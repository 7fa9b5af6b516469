/** The script generator form: its state and defaults, the parameters it
    hands on when the user asks for a script, when the Generate button is
    enabled, and how a generated script is shown, with each section marker
    such as `[Hook]` replaced by a labelled icon. */
module ScriptGenerator {
  import opened Wrappers
  import opened Text
  import opened JsSemantics

  // ------------------------------------------------------ text replacing

  /** `q` occurs in `s` at position `i`. */
  predicate OccursAt(s: string, q: string, i: int) {
    0 <= i && i + |q| <= |s| && s[i..i + |q|] == q
  }

  ghost predicate Occurs(s: string, q: string) {
    exists i :: OccursAt(s, q, i)
  }

  /** `s.replace(/pat/g, rep)` for a pattern that is a plain text: scanning
      from the left, every occurrence that does not overlap an earlier one is
      replaced. */
  function ReplaceAll(s: string, pat: string, rep: string): (r: string)
    requires |pat| > 0
    ensures |pat| <= |rep| ==> |s| <= |r|
    ensures |rep| <= |pat| ==> |r| <= |s|
    decreases |s|
  {
    if |s| < |pat| then s
    else if s[..|pat|] == pat then rep + ReplaceAll(s[|pat|..], pat, rep)
    else [s[0]] + ReplaceAll(s[1..], pat, rep)
  }

  /** Replacing puts nothing in the text but its own characters and the
      replacement's. */
  lemma {:induction false} ReplaceAllChars(s: string, pat: string, rep: string)
    requires |pat| > 0
    ensures forall c :: c in ReplaceAll(s, pat, rep) ==> c in s || c in rep
    decreases |s|
  {
    if |s| >= |pat| {
      if s[..|pat|] == pat {
        ReplaceAllChars(s[|pat|..], pat, rep);
      } else {
        ReplaceAllChars(s[1..], pat, rep);
      }
    }
  }

  /** Text without the pattern is left as it is. */
  lemma {:induction false} ReplaceAbsent(s: string, pat: string, rep: string)
    requires |pat| > 0 && !Occurs(s, pat)
    ensures ReplaceAll(s, pat, rep) == s
    decreases |s|
  {
    if |s| >= |pat| {
      assert !OccursAt(s, pat, 0);
      SuffixAbsent(s, 1, pat);
      ReplaceAbsent(s[1..], pat, rep);
    }
  }

  /** Up to any length `k` of the result, it either copies `t` or, at the
      first place it differs, starts a replacement. */
  lemma {:induction false} CopiedUntilReplaced(t: string, pat: string, rep: string, k: nat)
    requires |pat| > 0 && |rep| > 0
    requires k <= |ReplaceAll(t, pat, rep)|
    ensures (k <= |t| && ReplaceAll(t, pat, rep)[..k] == t[..k])
         || (exists p :: 0 <= p < k && ReplaceAll(t, pat, rep)[p] == rep[0])
    decreases |t|
  {
    var r := ReplaceAll(t, pat, rep);
    if |t| < |pat| || k == 0 {
    } else if t[..|pat|] == pat {
      assert r[0] == rep[0];
    } else {
      var r' := ReplaceAll(t[1..], pat, rep);
      assert r == [t[0]] + r';
      CopiedUntilReplaced(t[1..], pat, rep, k - 1);
      if k - 1 <= |t[1..]| && r'[..k - 1] == t[1..][..k - 1] {
        assert r[..k] == [t[0]] + r'[..k - 1];
        assert t[..k] == [t[0]] + t[1..][..k - 1];
      } else {
        var p :| 0 <= p < k - 1 && r'[p] == rep[0];
        assert r[p + 1] == rep[0];
      }
    }
  }

  /** What does not occur in a text does not occur in its suffixes. */
  lemma SuffixAbsent(s: string, d: nat, q: string)
    requires d <= |s| && !Occurs(s, q)
    ensures !Occurs(s[d..], q)
  {
    forall i ensures !OccursAt(s[d..], q, i) {
      assert !OccursAt(s, q, i + d);
    }
  }

  /** An occurrence after a prefix is an occurrence in the rest. */
  lemma ShiftOccurrence(head: string, tail: string, q: string, i: int)
    requires i >= |head| && OccursAt(head + tail, q, i)
    ensures OccursAt(tail, q, i - |head|)
  {
    assert (head + tail)[i..i + |q|] == tail[i - |head|..i - |head| + |q|];
  }

  /** No occurrence of `q` starts inside a replacement that does not
      contain `q`'s first character. */
  lemma {:induction false} NoneStartsInReplacement(s: string, pat: string, rep: string, q: string, i: int)
    requires |pat| > 0 && |q| > 0 && |s| >= |pat| && s[..|pat|] == pat
    requires q[0] !in rep && 0 <= i < |rep|
    ensures !OccursAt(ReplaceAll(s, pat, rep), q, i)
  {
    assert ReplaceAll(s, pat, rep)[i] == rep[i];
  }

  /** No occurrence of `q` starts at a character copied from the text: with
      what follows it, it would be an occurrence already there, or it would
      run into a replacement, whose first character `q` does not contain. */
  lemma {:induction false} NoneStartsAtCopied(s: string, pat: string, rep: string, q: string)
    requires |pat| > 0 && |rep| > 0 && |q| > 0 && |s| >= |pat| && s[..|pat|] != pat
    requires rep[0] !in q
    requires !OccursAt(s, q, 0)
    ensures !OccursAt(ReplaceAll(s, pat, rep), q, 0)
  {
    CopyStep(s, pat, rep);
    assert s == [s[0]] + s[1..];
    CopiedHead(s[0], s[1..], pat, rep, q);
  }

  /** A character put before the replaced rest starts no occurrence of `q`
      that it did not start before the rest was replaced. */
  lemma {:induction false} CopiedHead(c: char, rest: string, pat: string, rep: string, q: string)
    requires |pat| > 0 && |rep| > 0 && |q| > 0 && rep[0] !in q
    requires !OccursAt([c] + rest, q, 0)
    ensures !OccursAt([c] + ReplaceAll(rest, pat, rep), q, 0)
  {
    var r' := ReplaceAll(rest, pat, rep);
    if |q| - 1 <= |r'| {
      CopiedUntilReplaced(rest, pat, rep, |q| - 1);
      CopiedOrBlocked(c, rest, r', q, rep[0]);
    }
  }

  /** Where the pattern does not start, the first character is copied. */
  lemma {:induction false} CopyStep(s: string, pat: string, rep: string)
    requires |pat| > 0 && |s| >= |pat| && s[..|pat|] != pat
    ensures ReplaceAll(s, pat, rep) == [s[0]] + ReplaceAll(s[1..], pat, rep)
  {
  }

  /** The step of `NoneStartsAtCopied` about sequences alone. */
  lemma CopiedOrBlocked(c: char, rest: string, r': string, q: string, stop: char)
    requires |q| > 0 && stop !in q && |q| - 1 <= |r'|
    requires !OccursAt([c] + rest, q, 0)
    requires (|q| - 1 <= |rest| && r'[..|q| - 1] == rest[..|q| - 1])
          || (exists p :: 0 <= p < |q| - 1 && r'[p] == stop)
    ensures !OccursAt([c] + r', q, 0)
  {
    var r := [c] + r';
    if |q| - 1 <= |rest| && r'[..|q| - 1] == rest[..|q| - 1] {
      assert r[..|q|] == ([c] + rest)[..|q|];
    } else {
      var p :| 0 <= p < |q| - 1 && r'[p] == stop;
      assert r[p + 1] == stop != q[p + 1];
    }
  }

  /** Replacing leaves no occurrence of `q` when `q` is the pattern itself or
      was absent before, provided a replacement cannot start or continue an
      occurrence of `q`: the first character of `q` is not in `rep`, and the
      first character of `rep` is not in `q`. */
  lemma {:induction false} ReplaceLeavesNone(s: string, pat: string, rep: string, q: string)
    requires |pat| > 0 && |rep| > 0 && |q| > 0
    requires q[0] !in rep && rep[0] !in q
    requires q == pat || !Occurs(s, q)
    ensures !Occurs(ReplaceAll(s, pat, rep), q)
    decreases |s|
  {
    if |s| < |pat| {
      return;
    }
    var matched := s[..|pat|] == pat;
    var d := if matched then |pat| else 1;
    var head := if matched then rep else [s[0]];
    var rest := s[d..];
    var r := ReplaceAll(s, pat, rep);
    assert r == head + ReplaceAll(rest, pat, rep);
    if q != pat {
      SuffixAbsent(s, d, q);
    }
    ReplaceLeavesNone(rest, pat, rep, q);
    forall i ensures !OccursAt(r, q, i) {
      if 0 <= i < |head| && matched {
        NoneStartsInReplacement(s, pat, rep, q, i);
      } else if 0 <= i < |head| {
        assert !OccursAt(s, q, 0);
        NoneStartsAtCopied(s, pat, rep, q);
      } else if i >= |head| && OccursAt(r, q, i) {
        ShiftOccurrence(head, ReplaceAll(rest, pat, rep), q, i);
      }
    }
  }

  // ------------------------------------------------------ the markers

  function HookMarker(): string { "[Hook]" }
  function ProblemMarker(): string { "[Problem]" }
  function SolutionMarker(): string { "[Solution]" }
  function ProofMarker(): string { "[Proof]" }
  function CtaMarker(): string { "[CTA]" }

  function HookLabel(): string { "\U{1F3AF} Hook" }
  function ProblemLabel(): string { "\U{2757} Problem" }
  function SolutionLabel(): string { "\U{1F4A1} Solution" }
  function ProofLabel(): string { "\U{1F4CA} Proof" }
  function CtaLabel(): string { "\U{1F4DE} Call to Action" }

  /** `formatScript`: the five markers replaced in order; nothing but the
      script's own characters and the labels' appears. */
  function FormatScript(script: string): (r: string)
    ensures forall c :: c in r ==>
      c in script || c in HookLabel() || c in ProblemLabel() || c in SolutionLabel()
      || c in ProofLabel() || c in CtaLabel()
    ensures |script| <= |r|
  {
    var s1 := ReplaceAll(script, HookMarker(), HookLabel());
    var s2 := ReplaceAll(s1, ProblemMarker(), ProblemLabel());
    var s3 := ReplaceAll(s2, SolutionMarker(), SolutionLabel());
    var s4 := ReplaceAll(s3, ProofMarker(), ProofLabel());
    ReplaceAllChars(script, HookMarker(), HookLabel());
    ReplaceAllChars(s1, ProblemMarker(), ProblemLabel());
    ReplaceAllChars(s2, SolutionMarker(), SolutionLabel());
    ReplaceAllChars(s3, ProofMarker(), ProofLabel());
    ReplaceAllChars(s4, CtaMarker(), CtaLabel());
    ReplaceAll(s4, CtaMarker(), CtaLabel())
  }

  /** None of the five markers is there. */
  ghost predicate NoMarkers(s: string) {
    !Occurs(s, HookMarker()) && !Occurs(s, ProblemMarker()) && !Occurs(s, SolutionMarker())
    && !Occurs(s, ProofMarker()) && !Occurs(s, CtaMarker())
  }

  /** A formatted script shows no marker at all. Every marker starts with a
      bracket, which no replacement contains, and every replacement starts
      with an icon, which no marker contains; so a replacement neither
      leaves its own marker behind nor brings back an earlier one. */
  lemma FormatScriptRemovesMarkers(script: string)
    ensures NoMarkers(FormatScript(script))
  {
    var s1 := ReplaceAll(script, HookMarker(), HookLabel());
    ReplaceLeavesNone(script, HookMarker(), HookLabel(), HookMarker());
    var s2 := ReplaceAll(s1, ProblemMarker(), ProblemLabel());
    ReplaceLeavesNone(s1, ProblemMarker(), ProblemLabel(), HookMarker());
    ReplaceLeavesNone(s1, ProblemMarker(), ProblemLabel(), ProblemMarker());
    var s3 := ReplaceAll(s2, SolutionMarker(), SolutionLabel());
    ReplaceLeavesNone(s2, SolutionMarker(), SolutionLabel(), HookMarker());
    ReplaceLeavesNone(s2, SolutionMarker(), SolutionLabel(), ProblemMarker());
    ReplaceLeavesNone(s2, SolutionMarker(), SolutionLabel(), SolutionMarker());
    var s4 := ReplaceAll(s3, ProofMarker(), ProofLabel());
    ReplaceLeavesNone(s3, ProofMarker(), ProofLabel(), HookMarker());
    ReplaceLeavesNone(s3, ProofMarker(), ProofLabel(), ProblemMarker());
    ReplaceLeavesNone(s3, ProofMarker(), ProofLabel(), SolutionMarker());
    ReplaceLeavesNone(s3, ProofMarker(), ProofLabel(), ProofMarker());
    var s5 := ReplaceAll(s4, CtaMarker(), CtaLabel());
    ReplaceLeavesNone(s4, CtaMarker(), CtaLabel(), HookMarker());
    ReplaceLeavesNone(s4, CtaMarker(), CtaLabel(), ProblemMarker());
    ReplaceLeavesNone(s4, CtaMarker(), CtaLabel(), SolutionMarker());
    ReplaceLeavesNone(s4, CtaMarker(), CtaLabel(), ProofMarker());
    ReplaceLeavesNone(s4, CtaMarker(), CtaLabel(), CtaMarker());
  }

  /** A script without markers is shown as it is. */
  lemma FormatScriptKeepsPlain(script: string)
    requires NoMarkers(script)
    ensures FormatScript(script) == script
  {
    ReplaceAbsent(script, HookMarker(), HookLabel());
    ReplaceAbsent(script, ProblemMarker(), ProblemLabel());
    ReplaceAbsent(script, SolutionMarker(), SolutionLabel());
    ReplaceAbsent(script, ProofMarker(), ProofLabel());
    ReplaceAbsent(script, CtaMarker(), CtaLabel());
  }

  /** Formatting twice is formatting once. */
  lemma FormatScriptIdempotent(script: string)
    ensures FormatScript(FormatScript(script)) == FormatScript(script)
  {
    FormatScriptRemovesMarkers(script);
    FormatScriptKeepsPlain(FormatScript(script));
  }

  // ------------------------------------------- each marker gets its label

  /** The five markers and their labels, in the order `formatScript`
      replaces them. */
  function Markers(): seq<string> {
    [HookMarker(), ProblemMarker(), SolutionMarker(), ProofMarker(), CtaMarker()]
  }

  function Labels(): seq<string> {
    [HookLabel(), ProblemLabel(), SolutionLabel(), ProofLabel(), CtaLabel()]
  }

  /** An opening bracket followed by ASCII characters and no other bracket. */
  predicate Bracketed(q: string) {
    |q| >= 2 && q[0] == '[' && forall k :: 0 < k < |q| ==> q[k] != '[' && (q[k] as int) < 128
  }

  /** An icon outside ASCII, then text without a bracket. */
  predicate Iconic(m: string) {
    |m| > 0 && (m[0] as int) >= 128 && forall k :: 0 <= k < |m| ==> m[k] != '['
  }

  /** No occurrence of `q` can start before `m` and run into it, start
      inside it, or start where it starts. */
  predicate Separated(q: string, m: string) {
    && |q| > 0 && |m| > 0
    && (forall k :: 0 < k < |q| ==> q[k] != m[0])
    && (forall k :: 0 < k < |m| ==> m[k] != q[0])
    && (exists k :: 0 <= k < |q| && k < |m| && q[k] != m[k])
  }

  lemma MarkersBracketed()
    ensures forall j :: 0 <= j < 5 ==> Bracketed(Markers()[j])
  {
    assert Bracketed(HookMarker()) && Bracketed(ProblemMarker()) && Bracketed(SolutionMarker());
    assert Bracketed(ProofMarker()) && Bracketed(CtaMarker());
  }

  lemma LabelsIconic()
    ensures forall j :: 0 <= j < 5 ==> Iconic(Labels()[j])
  {
    assert Iconic(HookLabel()) && Iconic(ProblemLabel()) && Iconic(SolutionLabel());
    assert Iconic(ProofLabel()) && Iconic(CtaLabel());
  }

  /** The markers differ at their second character, except "[Problem]" and
      "[Proof]", which differ at their fifth. */
  lemma MarkersDiffer(j: int, k: int)
    requires 0 <= j < 5 && 0 <= k < 5 && j != k
    ensures exists w :: 0 <= w < |Markers()[j]| && w < |Markers()[k]| && Markers()[j][w] != Markers()[k][w]
  {
    var ms := Markers();
    assert ms[0][1] == 'H' && ms[1][1] == 'P' && ms[2][1] == 'S' && ms[3][1] == 'P' && ms[4][1] == 'C';
    assert ms[1][4] == 'b' && ms[3][4] == 'o';
    if (j == 1 && k == 3) || (j == 3 && k == 1) {
      assert ms[j][4] != ms[k][4];
    } else {
      assert ms[j][1] != ms[k][1];
    }
  }

  /** Every marker is separated from every label and from every other
      marker. */
  lemma MarkersSeparated(j: int, k: int)
    requires 0 <= j < 5 && 0 <= k < 5
    ensures Separated(Markers()[j], Labels()[k])
    ensures j != k ==> Separated(Markers()[j], Markers()[k])
  {
    MarkersBracketed();
    LabelsIconic();
    var q, l := Markers()[j], Labels()[k];
    assert q[0] != l[0];
    if j != k {
      MarkersDiffer(j, k);
    }
  }

  /** A text made of `a`, `m` and `b` has no occurrence of `q` when neither
      `a` nor `b` has one and `q` is separated from `m`. */
  lemma NoneAcross(a: string, m: string, b: string, q: string)
    requires Separated(q, m) && !Occurs(a, q) && !Occurs(b, q)
    ensures !Occurs(a + m + b, q)
  {
    var s := a + m + b;
    forall i | 0 <= i && i + |q| <= |s|
      ensures !OccursAt(s, q, i)
    {
      var w := s[i..i + |q|];
      if i + |q| <= |a| {
        assert w == a[i..i + |q|];
        assert !OccursAt(a, q, i);
      } else if i < |a| {
        assert w[|a| - i] == m[0];
      } else if i == |a| {
        var k :| 0 <= k < |q| && k < |m| && q[k] != m[k];
        assert s[i + k] == m[k];
        assert w[k] == s[i + k];
      } else if i < |a| + |m| {
        assert w[0] == m[i - |a|];
      } else {
        assert w == b[i - |a| - |m|..i - |a| - |m| + |q|];
        assert !OccursAt(b, q, i - |a| - |m|);
      }
    }
  }

  /** Where no occurrence starts in `x`, replacing copies `x`. */
  lemma {:induction false} CopyPrefix(x: string, y: string, pat: string, rep: string)
    requires |pat| > 0
    requires forall i :: 0 <= i < |x| ==> !OccursAt(x + y, pat, i)
    ensures ReplaceAll(x + y, pat, rep) == x + ReplaceAll(y, pat, rep)
    decreases |x|
  {
    if x != [] {
      var s := x + y;
      assert !OccursAt(s, pat, 0);
      if |s| >= |pat| {
        CopyStep(s, pat, rep);
        assert s[1..] == x[1..] + y;
        forall i | 0 <= i < |x[1..]|
          ensures !OccursAt(x[1..] + y, pat, i)
        {
          assert !OccursAt(s, pat, i + 1);
          if i + |pat| <= |s[1..]| {
            assert s[1..][i..i + |pat|] == s[i + 1..i + 1 + |pat|];
          }
        }
        CopyPrefix(x[1..], y, pat, rep);
        assert ReplaceAll(s, pat, rep) == [x[0]] + (x[1..] + ReplaceAll(y, pat, rep));
        assert x == [x[0]] + x[1..];
      } else {
        assert ReplaceAll(y, pat, rep) == y;
      }
    } else {
      assert x + y == y;
    }
  }

  /** The single occurrence of a pattern that starts with a character it
      does not repeat is replaced. */
  lemma ReplaceOne(a: string, pat: string, rep: string, b: string)
    requires |pat| > 0 && forall k :: 0 < k < |pat| ==> pat[k] != pat[0]
    requires !Occurs(a, pat) && !Occurs(b, pat)
    ensures ReplaceAll(a + pat + b, pat, rep) == a + rep + b
  {
    NoneStartsBefore(a, pat, b);
    CopyPrefix(a, pat + b, pat, rep);
    var t := pat + b;
    assert t[..|pat|] == pat && t[|pat|..] == b;
    assert ReplaceAll(t, pat, rep) == rep + ReplaceAll(b, pat, rep);
    ReplaceAbsent(b, pat, rep);
    assert a + pat + b == a + t;
  }

  /** No occurrence of such a pattern starts before its occurrence that
      follows `a`. */
  lemma NoneStartsBefore(a: string, pat: string, b: string)
    requires |pat| > 0 && forall k :: 0 < k < |pat| ==> pat[k] != pat[0]
    requires !Occurs(a, pat)
    ensures forall i :: 0 <= i < |a| ==> !OccursAt(a + (pat + b), pat, i)
  {
    var s := a + (pat + b);
    forall i | 0 <= i < |a| && i + |pat| <= |s|
      ensures !OccursAt(s, pat, i)
    {
      if i + |pat| <= |a| {
        assert s[i..i + |pat|] == a[i..i + |pat|];
        assert !OccursAt(a, pat, i);
      } else {
        assert s[i..i + |pat|][|a| - i] == pat[0];
      }
    }
  }

  /** The text after the first `j` of the five steps of `formatScript`. */
  function Steps(s: string, j: int): string
    requires 0 <= j <= 5
  {
    if j == 0 then s else ReplaceAll(Steps(s, j - 1), Markers()[j - 1], Labels()[j - 1])
  }

  lemma StepsFormat(s: string)
    ensures Steps(s, 5) == FormatScript(s)
  {
    var s1 := ReplaceAll(s, HookMarker(), HookLabel());
    var s2 := ReplaceAll(s1, ProblemMarker(), ProblemLabel());
    var s3 := ReplaceAll(s2, SolutionMarker(), SolutionLabel());
    var s4 := ReplaceAll(s3, ProofMarker(), ProofLabel());
    assert Steps(s, 1) == s1;
    assert Steps(s, 2) == s2;
    assert Steps(s, 3) == s3;
    assert Steps(s, 4) == s4;
  }

  /** No occurrence of `q` starts in `a` or in `m`, whatever follows them,
      when `a` has none and `q` is separated from `m`. */
  lemma NoneStartsInFront(a: string, m: string, y: string, q: string)
    requires Separated(q, m) && !Occurs(a, q)
    ensures forall i :: 0 <= i < |a + m| ==> !OccursAt(a + m + y, q, i)
  {
    var s := a + m + y;
    forall i | 0 <= i < |a + m| && i + |q| <= |s|
      ensures !OccursAt(s, q, i)
    {
      var w := s[i..i + |q|];
      if i + |q| <= |a| {
        assert w == a[i..i + |q|];
        assert !OccursAt(a, q, i);
      } else if i < |a| {
        assert w[|a| - i] == m[0];
      } else if i == |a| {
        var k :| 0 <= k < |q| && k < |m| && q[k] != m[k];
        assert s[i + k] == m[k];
        assert w[k] == s[i + k];
      } else {
        assert w[0] == m[i - |a|];
      }
    }
  }

  /** The first occurrence of a pattern that starts with a character it
      does not repeat is replaced, and replacing goes on after it. */
  lemma ReplaceFirst(a: string, pat: string, rep: string, y: string)
    requires |pat| > 0 && forall k :: 0 < k < |pat| ==> pat[k] != pat[0]
    requires !Occurs(a, pat)
    ensures ReplaceAll(a + pat + y, pat, rep) == a + rep + ReplaceAll(y, pat, rep)
  {
    NoneStartsBefore(a, pat, y);
    CopyPrefix(a, pat + y, pat, rep);
    var t := pat + y;
    assert t[..|pat|] == pat && t[|pat|..] == y;
    assert ReplaceAll(t, pat, rep) == rep + ReplaceAll(y, pat, rep);
    assert a + pat + y == a + t;
  }

  /** The text before step `j` of `formatScript`, when the script is `a`,
      then marker `k`, then `b`: the marker is replaced at step `k`, and
      `b` goes through the steps on its own. */
  function Stage(a: string, b: string, k: int, j: int): string
    requires 0 <= k < 5 && 0 <= j <= 5
  {
    (if j <= k then a + Markers()[k] else a + Labels()[k]) + Steps(b, j)
  }

  lemma StageStep(a: string, b: string, k: int, j: int)
    requires NoMarkers(a) && 0 <= k < 5 && 0 <= j < 5
    ensures ReplaceAll(Stage(a, b, k, j), Markers()[j], Labels()[j]) == Stage(a, b, k, j + 1)
  {
    var q, rep, y := Markers()[j], Labels()[j], Steps(b, j);
    MarkersBracketed();
    MarkersSeparated(j, k);
    assert !Occurs(a, q);
    if j == k {
      ReplaceFirst(a, q, rep, y);
    } else {
      var m := if j < k then Markers()[k] else Labels()[k];
      NoneStartsInFront(a, m, y, q);
      CopyPrefix(a + m, y, q, rep);
    }
  }

  /** `formatScript` replaces a marker by its label, keeps the marker-free
      text before it, and formats what follows it as a script of its own;
      so a script with several markers has each replaced by its label in
      turn. */
  lemma FormatScriptMarkerStep(a: string, b: string, k: int)
    requires NoMarkers(a) && 0 <= k < 5
    ensures FormatScript(a + Markers()[k] + b) == a + Labels()[k] + FormatScript(b)
  {
    StageStep(a, b, k, 0);
    StageStep(a, b, k, 1);
    StageStep(a, b, k, 2);
    StageStep(a, b, k, 3);
    StageStep(a, b, k, 4);
    StepsFormat(b);
  }

  /** A single marker between texts holding no marker: `[Hook]` becomes the
      target icon and "Hook", and so on for the other four. */
  lemma FormatScriptReplacesMarker(a: string, b: string, k: int)
    requires NoMarkers(a) && NoMarkers(b) && 0 <= k < 5
    ensures FormatScript(a + Markers()[k] + b) == a + Labels()[k] + b
  {
    FormatScriptMarkerStep(a, b, k);
    FormatScriptKeepsPlain(b);
  }

  /** A script with two markers, such as "[Hook] … [CTA] …", shows both
      labels and the text around them. */
  lemma FormatScriptTwoMarkers(a: string, b: string, c: string, j: int, k: int)
    requires NoMarkers(a) && NoMarkers(b) && NoMarkers(c) && 0 <= j < 5 && 0 <= k < 5
    ensures FormatScript(a + Markers()[j] + b + Markers()[k] + c)
         == a + Labels()[j] + b + Labels()[k] + c
  {
    var mj, mk, lj, lk := Markers()[j], Markers()[k], Labels()[j], Labels()[k];
    var rest := b + mk + c;
    var shown := b + lk + c;
    assert a + mj + b + mk + c == a + mj + rest;
    FormatScriptMarkerStep(a, rest, j);
    FormatScriptReplacesMarker(b, c, k);
    assert a + lj + shown == a + lj + b + lk + c;
  }

  // ---------------------------------------------------------- the form

  /** The form's fields. */
  datatype GenerateParams = GenerateParams(
    contentType: string, videoLength: string, targetAudience: string,
    keyMessage: string, templateType: string)

  /** The form as it first appears: the first choice of each list selected
      (a 60-second video) and no key message. */
  function InitialForm(): (f: GenerateParams)
    ensures f.keyMessage == ""
    ensures f.contentType != "" && f.videoLength != "" && f.targetAudience != "" && f.templateType != ""
  {
    GenerateParams("Side Hustle Tips", "60 seconds", "Aspiring Entrepreneurs", "", "success-story")
  }

  /** `disabled={isLoading || !keyMessage.trim()}`, negated: an absent
      `isLoading` counts as false. */
  predicate GenerateEnabled(isLoading: Option<bool>, keyMessage: string)
    ensures GenerateEnabled(isLoading, keyMessage) ==> isLoading != Some(true) && keyMessage != ""
  {
    !OrDefault(isLoading, false, false) && Strip(keyMessage, IsJsSpace) != ""
  }

  /** Generate is enabled exactly when nothing is loading and the key
      message has a character that is not whitespace; so not on a new form. */
  lemma GenerateEnabledIff(isLoading: Option<bool>, keyMessage: string)
    ensures GenerateEnabled(isLoading, keyMessage)
        <==> isLoading != Some(true) && exists i :: 0 <= i < |keyMessage| && !IsJsSpace(keyMessage[i])
    ensures !GenerateEnabled(isLoading, InitialForm().keyMessage)
  {
  }
}
