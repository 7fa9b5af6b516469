/** Folds over rows: `reduce((sum, x) => sum + f(x), 0)`, the mean that is 0
    on an empty list, and counting the rows that pass a test. Numbers are
    exact (`int` or `real`); floating-point rounding is not modelled. */
module Folds {

  /** The left fold `rows.reduce((sum, x) => sum + f(x), 0)`. */
  function SumReal<T>(rows: seq<T>, f: T -> real): real {
    if rows == [] then 0.0 else SumReal(rows[..|rows| - 1], f) + f(rows[|rows| - 1])
  }

  /** The same fold over integer figures. */
  function SumInt<T>(rows: seq<T>, f: T -> int): int {
    if rows == [] then 0 else SumInt(rows[..|rows| - 1], f) + f(rows[|rows| - 1])
  }

  /** `rows.length > 0 ? sum / rows.length : 0`. */
  function Mean<T>(rows: seq<T>, f: T -> real): (m: real)
    ensures rows == [] ==> m == 0.0
    ensures rows != [] ==> m * (|rows| as real) == SumReal(rows, f)
  {
    if |rows| > 0 then SumReal(rows, f) / (|rows| as real) else 0.0
  }

  /** The rows that pass `p`, in order: `[x for x in rows if p(x)]`. */
  function Filter<T(!new)>(rows: seq<T>, p: T -> bool): (r: seq<T>)
    ensures |r| <= |rows|
    ensures forall x :: x in r <==> x in rows && p(x)
  {
    if rows == [] then []
    else
      var rest := Filter(rows[1..], p);
      assert forall x :: x in rows <==> x == rows[0] || x in rows[1..];
      if p(rows[0]) then [rows[0]] + rest else rest
  }

  // ------------------------------------------------------------- lemmas

  /** A fold over two lists is the sum of the folds. */
  lemma {:induction false} SumRealAppend<T>(a: seq<T>, b: seq<T>, f: T -> real)
    ensures SumReal(a + b, f) == SumReal(a, f) + SumReal(b, f)
    decreases |b|
  {
    if b == [] {
      assert a + b == a;
    } else {
      var b' := b[..|b| - 1];
      assert (a + b)[..|a + b| - 1] == a + b';
      SumRealAppend(a, b', f);
    }
  }

  lemma {:induction false} SumIntAppend<T>(a: seq<T>, b: seq<T>, f: T -> int)
    ensures SumInt(a + b, f) == SumInt(a, f) + SumInt(b, f)
    decreases |b|
  {
    if b == [] {
      assert a + b == a;
    } else {
      var b' := b[..|b| - 1];
      assert (a + b)[..|a + b| - 1] == a + b';
      SumIntAppend(a, b', f);
    }
  }

  /** Removing the row at position `i` takes its figure out of the sum. */
  lemma SumRealRemove<T>(s: seq<T>, i: nat, f: T -> real)
    requires i < |s|
    ensures SumReal(s, f) == SumReal(s[..i] + s[i + 1..], f) + f(s[i])
  {
    var l, x, r := s[..i], s[i], s[i + 1..];
    assert s == (l + [x]) + r;
    assert (l + [x])[..|l + [x]| - 1] == l;
    SumRealAppend(l + [x], r, f);
    SumRealAppend(l, r, f);
  }

  lemma SumIntRemove<T>(s: seq<T>, i: nat, f: T -> int)
    requires i < |s|
    ensures SumInt(s, f) == SumInt(s[..i] + s[i + 1..], f) + f(s[i])
  {
    var l, x, r := s[..i], s[i], s[i + 1..];
    assert s == (l + [x]) + r;
    assert (l + [x])[..|l + [x]| - 1] == l;
    SumIntAppend(l + [x], r, f);
    SumIntAppend(l, r, f);
  }

  /** The order of the rows does not change the sum: the statistics of a
      sorted list are those of the table. */
  lemma {:induction false} SumRealPermutation<T>(a: seq<T>, b: seq<T>, f: T -> real)
    requires multiset(a) == multiset(b)
    ensures SumReal(a, f) == SumReal(b, f)
    decreases |a|
  {
    if a == [] {
      assert |b| == |multiset(b)| == 0;
    } else {
      var x := a[|a| - 1];
      var a' := a[..|a| - 1];
      assert a == a' + [x];
      assert x in multiset(b);
      var i :| 0 <= i < |b| && b[i] == x;
      RemoveAt(b, i);
      SumRealPermutation(a', b[..i] + b[i + 1..], f);
      SumRealRemove(b, i, f);
    }
  }

  lemma {:induction false} SumIntPermutation<T>(a: seq<T>, b: seq<T>, f: T -> int)
    requires multiset(a) == multiset(b)
    ensures SumInt(a, f) == SumInt(b, f)
    decreases |a|
  {
    if a == [] {
      assert |b| == |multiset(b)| == 0;
    } else {
      var x := a[|a| - 1];
      var a' := a[..|a| - 1];
      assert a == a' + [x];
      assert x in multiset(b);
      var i :| 0 <= i < |b| && b[i] == x;
      RemoveAt(b, i);
      SumIntPermutation(a', b[..i] + b[i + 1..], f);
      SumIntRemove(b, i, f);
    }
  }

  /** Removing the row at position `i` removes one copy of it. */
  lemma RemoveAt<T>(s: seq<T>, i: nat)
    requires i < |s|
    ensures multiset(s[..i] + s[i + 1..]) == multiset(s) - multiset{s[i]}
  {
    assert s == s[..i] + [s[i]] + s[i + 1..];
  }

  /** A sum of figures that all lie in `[lo, hi]` lies in `[n * lo, n * hi]`. */
  lemma {:induction false} SumRealBounds<T>(rows: seq<T>, f: T -> real, lo: real, hi: real)
    requires forall x :: x in rows ==> lo <= f(x) <= hi
    ensures (|rows| as real) * lo <= SumReal(rows, f) <= (|rows| as real) * hi
    decreases |rows|
  {
    if rows != [] {
      var init := rows[..|rows| - 1];
      assert forall x :: x in init ==> x in rows;
      SumRealBounds(init, f, lo, hi);
      assert rows[|rows| - 1] in rows;
      var k := |init| as real;
      assert (|rows| as real) * lo == k * lo + lo && (|rows| as real) * hi == k * hi + hi;
    }
  }

  /** A mean of figures in `[lo, hi]` lies in `[lo, hi]`. */
  lemma MeanBounds<T>(rows: seq<T>, f: T -> real, lo: real, hi: real)
    requires rows != []
    requires forall x :: x in rows ==> lo <= f(x) <= hi
    ensures lo <= Mean(rows, f) <= hi
  {
    SumRealBounds(rows, f, lo, hi);
    var n := |rows| as real;
    var m := Mean(rows, f);
    QuotientBounds(SumReal(rows, f), n, m, lo, hi);
  }

  /** If `m * n` lies in `[n * lo, n * hi]` for a positive `n`, then `m`
      lies in `[lo, hi]`. */
  lemma QuotientBounds(s: real, n: real, m: real, lo: real, hi: real)
    requires n > 0.0 && m * n == s && n * lo <= s <= n * hi
    ensures lo <= m <= hi
  {
  }

  /** Sorting does not change a mean. */
  lemma MeanPermutation<T>(a: seq<T>, b: seq<T>, f: T -> real)
    requires multiset(a) == multiset(b)
    ensures Mean(a, f) == Mean(b, f)
  {
    SumRealPermutation(a, b, f);
    assert |a| == |multiset(a)| == |multiset(b)| == |b|;
  }

  /** Counting does not depend on the order of the rows. */
  lemma {:induction false} FilterPermutation<T(!new)>(a: seq<T>, b: seq<T>, p: T -> bool)
    requires multiset(a) == multiset(b)
    ensures |Filter(a, p)| == |Filter(b, p)|
  {
    var one := (x: T) => if p(x) then 1 else 0;
    FilterAsSum(a, p);
    FilterAsSum(b, p);
    SumIntPermutation(a, b, one);
  }

  /** The filtered length is the sum of one per passing row. */
  lemma {:induction false} FilterAsSum<T(!new)>(rows: seq<T>, p: T -> bool)
    ensures |Filter(rows, p)| == SumInt(rows, (x: T) => if p(x) then 1 else 0)
    decreases |rows|
  {
    var one := (x: T) => if p(x) then 1 else 0;
    if rows != [] {
      FilterAsSum(rows[1..], p);
      assert rows == [rows[0]] + rows[1..];
      SumIntAppend([rows[0]], rows[1..], one);
      assert SumInt([rows[0]], one) == one(rows[0]) by {
        assert [rows[0]][..0] == [];
      }
    }
  }
}
