/** Character classes, whitespace trimming and decimal numerals, shared by
    the JavaScript and Python parts of the model. */
module Text {

  /** WhiteSpace and LineTerminator of the ECMAScript grammar: the characters
      that `String.prototype.trim` and `parseInt` skip. */
  predicate IsJsSpace(c: char) {
    c == '\t' || c == '\n' || c == '\U{B}' || c == '\U{C}' || c == '\r' || c == ' '
    || c == '\U{A0}' || c == '\U{1680}' || ('\U{2000}' <= c <= '\U{200A}')
    || c == '\U{2028}' || c == '\U{2029}' || c == '\U{202F}' || c == '\U{205F}'
    || c == '\U{3000}' || c == '\U{FEFF}'
  }

  /** The characters for which Python's `str.isspace()` holds, which
      `str.strip()` removes. Unlike JavaScript it includes the information
      separators U+001C..U+001F and U+0085 and excludes U+FEFF. */
  predicate IsPySpace(c: char) {
    ('\t' <= c <= '\r') || ('\U{1C}' <= c <= ' ')
    || c == '\U{85}' || c == '\U{A0}' || c == '\U{1680}' || ('\U{2000}' <= c <= '\U{200A}')
    || c == '\U{2028}' || c == '\U{2029}' || c == '\U{202F}' || c == '\U{205F}'
    || c == '\U{3000}'
  }

  /** Number of whitespace characters at the start of `s`. */
  function LeadingSpaces(s: string, isSpace: char -> bool): (k: nat)
    ensures k <= |s|
    ensures forall i :: 0 <= i < k ==> isSpace(s[i])
    ensures k < |s| ==> !isSpace(s[k])
  {
    if s == [] || !isSpace(s[0]) then 0 else 1 + LeadingSpaces(s[1..], isSpace)
  }

  /** Number of whitespace characters at the end of `s`. */
  function TrailingSpaces(s: string, isSpace: char -> bool): (k: nat)
    ensures k <= |s|
    ensures forall i :: |s| - k <= i < |s| ==> isSpace(s[i])
    ensures k < |s| ==> !isSpace(s[|s| - 1 - k])
  {
    if s == [] || !isSpace(s[|s| - 1]) then 0 else 1 + TrailingSpaces(s[..|s| - 1], isSpace)
  }

  /** `trim()` in JavaScript, `strip()` in Python, for the given whitespace
      class: the result is empty exactly when `s` is all whitespace, has no
      whitespace at either end, and is `s` itself when `s` has none there. */
  function Strip(s: string, isSpace: char -> bool): (r: string)
    ensures |r| <= |s|
    ensures r == [] <==> forall i :: 0 <= i < |s| ==> isSpace(s[i])
    ensures r != [] ==> !isSpace(r[0]) && !isSpace(r[|r| - 1])
    ensures (s == [] || (!isSpace(s[0]) && !isSpace(s[|s| - 1]))) ==> r == s
  {
    var lead := LeadingSpaces(s, isSpace);
    var t := s[lead..];
    var trail := TrailingSpaces(t, isSpace);
    assert forall i :: lead <= i < |s| ==> s[i] == t[i - lead];
    t[..|t| - trail]
  }

  /** Whitespace before a text that does not start with whitespace is
      exactly what `LeadingSpaces` counts. */
  lemma {:induction false} LeadingSpacesOfPadded(pad: string, x: string, isSpace: char -> bool)
    requires forall i :: 0 <= i < |pad| ==> isSpace(pad[i])
    requires x != [] && !isSpace(x[0])
    ensures LeadingSpaces(pad + x, isSpace) == |pad|
    decreases |pad|
  {
    if pad != [] {
      assert (pad + x)[1..] == pad[1..] + x;
      LeadingSpacesOfPadded(pad[1..], x, isSpace);
    }
  }

  /** Whitespace after a text that does not end with whitespace is exactly
      what `TrailingSpaces` counts. */
  lemma {:induction false} TrailingSpacesOfPadded(x: string, pad: string, isSpace: char -> bool)
    requires forall i :: 0 <= i < |pad| ==> isSpace(pad[i])
    requires x != [] && !isSpace(x[|x| - 1])
    ensures TrailingSpaces(x + pad, isSpace) == |pad|
    decreases |pad|
  {
    if pad != [] {
      assert (x + pad)[..|x + pad| - 1] == x + pad[..|pad| - 1];
      TrailingSpacesOfPadded(x, pad[..|pad| - 1], isSpace);
    }
  }

  /** A character that is not whitespace survives stripping. */
  lemma StripKeeps(s: string, isSpace: char -> bool, i: int)
    requires 0 <= i < |s| && !isSpace(s[i])
    ensures s[i] in Strip(s, isSpace)
  {
    var lead := LeadingSpaces(s, isSpace);
    var t := s[lead..];
    var trail := TrailingSpaces(t, isSpace);
    assert lead <= i;
    assert t[i - lead] == s[i];
    assert i - lead < |t| - trail;
    assert Strip(s, isSpace)[i - lead] == s[i];
  }

  /** Stripping removes exactly the surrounding whitespace. */
  lemma StripPadded(before: string, x: string, after: string, isSpace: char -> bool)
    requires forall i :: 0 <= i < |before| ==> isSpace(before[i])
    requires forall i :: 0 <= i < |after| ==> isSpace(after[i])
    requires x != [] && !isSpace(x[0]) && !isSpace(x[|x| - 1])
    ensures Strip(before + x + after, isSpace) == x
  {
    var s := before + x + after;
    assert s == before + (x + after);
    LeadingSpacesOfPadded(before, x + after, isSpace);
    assert s[|before|..] == x + after;
    TrailingSpacesOfPadded(x, after, isSpace);
  }


  predicate IsDecimalDigit(c: char) {
    '0' <= c <= '9'
  }

  /** Letters and digits that `parseInt` accepts in base 16. */
  predicate IsHexDigit(c: char) {
    IsDecimalDigit(c) || ('a' <= c <= 'f') || ('A' <= c <= 'F')
  }

  /** The value of a hexadecimal digit; a decimal digit has its usual value. */
  function HexDigitValue(c: char): (v: nat)
    requires IsHexDigit(c)
    ensures v < 16
    ensures IsDecimalDigit(c) <==> v < 10
  {
    if IsDecimalDigit(c) then (c as int - '0' as int)
    else if 'a' <= c <= 'f' then (c as int - 'a' as int) + 10
    else (c as int - 'A' as int) + 10
  }

  /** A digit of base `radix` (10 or 16). */
  predicate IsRadixDigit(c: char, radix: nat) {
    IsHexDigit(c) && HexDigitValue(c) < radix
  }

  predicate AllRadixDigits(ds: string, radix: nat) {
    forall i :: 0 <= i < |ds| ==> IsRadixDigit(ds[i], radix)
  }

  /** The value of a numeral, most significant digit first. */
  function DigitsValue(ds: string, radix: nat): nat
    requires AllRadixDigits(ds, radix)
  {
    if ds == [] then 0
    else DigitsValue(ds[..|ds| - 1], radix) * radix + HexDigitValue(ds[|ds| - 1])
  }

  function DecimalDigit(d: nat): (c: char)
    requires d < 10
    ensures IsDecimalDigit(c) && HexDigitValue(c) == d
  {
    ('0' as int + d) as char
  }

  /** The decimal numeral of `n`, as `Number.prototype.toString` and Python's
      `str` write it: no sign, no leading zero, and its value is `n`. */
  function NatToDecimal(n: nat): (s: string)
    ensures 1 <= |s|
    ensures AllRadixDigits(s, 10)
    ensures s[0] == '0' ==> n == 0 && s == "0"
    ensures DigitsValue(s, 10) == n
  {
    if n < 10 then [DecimalDigit(n)]
    else
      var prefix := NatToDecimal(n / 10);
      var s := prefix + [DecimalDigit(n % 10)];
      assert s[..|s| - 1] == prefix;
      s
  }
}
