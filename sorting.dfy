/** The ordering the record store applies to its lists: `Array.prototype.sort`
    with a comparator that subtracts two integer keys. Since ES2019 that sort
    is stable, and so is the insertion sort below. */
module Sorting {

  /** `s` is in non-decreasing order of `key`. */
  predicate SortedBy<T>(s: seq<T>, key: T -> int) {
    forall i, j :: 0 <= i < j < |s| ==> key(s[i]) <= key(s[j])
  }

  /** Places `x` after every leading element whose key is not larger than its
      own, so that equal keys keep their order. */
  function Insert<T>(x: T, s: seq<T>, key: T -> int): (r: seq<T>)
    ensures multiset(r) == multiset(s) + multiset{x}
    ensures forall y :: y in r ==> y == x || y in s
    ensures SortedBy(s, key) ==> SortedBy(r, key)
  {
    if s == [] then [x]
    else if key(x) < key(s[0]) then
      assert SortedBy(s, key) ==> SortedBy([x] + s, key) by {
        if SortedBy(s, key) {
          forall y | y in s ensures key(x) <= key(y) {
            var i :| 0 <= i < |s| && s[i] == y;
          }
          SortedCons(x, s, key);
        }
      }
      [x] + s
    else
      var tail := Insert(x, s[1..], key);
      assert s == [s[0]] + s[1..];
      assert SortedBy(s, key) ==> SortedBy([s[0]] + tail, key) by {
        if SortedBy(s, key) {
          assert SortedBy(s[1..], key);
          forall y | y in tail ensures key(s[0]) <= key(y) {
            if y != x {
              var i :| 0 <= i < |s[1..]| && s[1..][i] == y;
              assert s[i + 1] == y;
            }
          }
          SortedCons(s[0], tail, key);
        }
      }
      [s[0]] + tail
  }

  /** Putting an element no larger than any other in front keeps a list
      sorted. */
  lemma SortedCons<T>(h: T, t: seq<T>, key: T -> int)
    requires SortedBy(t, key)
    requires forall y :: y in t ==> key(h) <= key(y)
    ensures SortedBy([h] + t, key)
  {
    var r := [h] + t;
    forall i, j | 0 <= i < j < |r| ensures key(r[i]) <= key(r[j]) {
      assert r[j] == t[j - 1];
      if i > 0 {
        assert r[i] == t[i - 1];
      }
    }
  }

  /** The list sorted by `key`: a permutation of `s` in non-decreasing key
      order. */
  function SortBy<T>(s: seq<T>, key: T -> int): (r: seq<T>)
    ensures |r| == |s|
    ensures multiset(r) == multiset(s)
    ensures SortedBy(r, key)
  {
    if s == [] then []
    else
      var init := s[..|s| - 1];
      assert s == init + [s[|s| - 1]];
      var r := Insert(s[|s| - 1], SortBy(init, key), key);
      assert |r| == |multiset(r)|;
      r
  }
}
