/** The JavaScript built-in behaviour the TypeScript sources rely on: the
    "falsy" rule behind `x || d`, clamping with `Math.max`/`Math.min`,
    `parseInt` without a radix and `toString` on integers. */
module JsSemantics {
  import opened Wrappers
  import opened Text

  /** A field value is falsy when it is absent (`undefined` or `null`) or
      equal to its type's zero: `""`, `0` or `false`. */
  predicate Falsy<T(==)>(x: Option<T>, zero: T) {
    x == None || x == Some(zero)
  }

  /** `x || null`: a falsy value is stored as null, anything else as is. */
  function OrNull<T(==)>(x: Option<T>, zero: T): (r: Option<T>)
    ensures r == None <==> Falsy(x, zero)
    ensures r != None ==> r == x
  {
    if Falsy(x, zero) then None else x
  }

  /** `x || d`: the default replaces a falsy value. */
  function OrDefault<T(==)>(x: Option<T>, zero: T, d: T): (r: T)
    ensures Falsy(x, zero) ==> r == d
    ensures !Falsy(x, zero) ==> Some(r) == x
  {
    if Falsy(x, zero) then d else x.value
  }

  /** `Math.max(0, Math.min(100, x))`: the score range of every AI figure. */
  function Clamp(x: int): (r: int)
    ensures 0 <= r <= 100
    ensures r == x <==> 0 <= x <= 100
    ensures x < 0 ==> r == 0
    ensures x > 100 ==> r == 100
  {
    var m := if x < 100 then x else 100;
    if 0 < m then m else 0
  }

  /** A number produced by `parseInt`: an integer, or NaN when there is
      nothing to parse. */
  datatype IntOrNaN = Int(value: int) | NaN

  /** Length of the longest prefix of `s` made of base-`radix` digits. */
  function LeadingDigits(s: string, radix: nat): (k: nat)
    ensures k <= |s|
    ensures AllRadixDigits(s[..k], radix)
    ensures k < |s| ==> !IsRadixDigit(s[k], radix)
  {
    if s == [] || !IsRadixDigit(s[0], radix) then 0
    else
      var k := 1 + LeadingDigits(s[1..], radix);
      assert forall i :: 1 <= i < k ==> s[..k][i] == s[1..][..k - 1][i - 1];
      k
  }

  /** `parseInt(s)` with no radix: skip leading whitespace, take one optional
      sign, then read the magnitude. (The sign of a negative zero is not
      kept.) */
  function ParseInt(s: string): (r: IntOrNaN)
    ensures r.Int? ==>
      var t := s[LeadingSpaces(s, IsJsSpace)..];
      |t| > 0 && (IsDecimalDigit(t[0]) || t[0] == '-' || t[0] == '+')
  {
    var t := s[LeadingSpaces(s, IsJsSpace)..];
    if |t| > 0 && t[0] == '-' then Negate(ParseMagnitude(t[1..]))
    else if |t| > 0 && t[0] == '+' then ParseMagnitude(t[1..])
    else ParseMagnitude(t)
  }

  function Negate(x: IntOrNaN): IntOrNaN {
    match x
    case Int(v) => Int(-v)
    case NaN => NaN
  }

  /** Base 16 after a `0x`/`0X` prefix, base 10 otherwise. */
  function ParseMagnitude(u: string): IntOrNaN {
    if |u| >= 2 && u[0] == '0' && (u[1] == 'x' || u[1] == 'X') then DigitRun(u[2..], 16)
    else DigitRun(u, 10)
  }

  /** The value of the digits at the start of `body`, up to the first
      character that is not a digit; NaN when there is none. */
  function DigitRun(body: string, radix: nat): IntOrNaN {
    var n := LeadingDigits(body, radix);
    if n == 0 then NaN else Int(DigitsValue(body[..n], radix))
  }

  /** `n.toString()` for an integer `n`. */
  function IntToString(n: int): string {
    if n < 0 then "-" + NatToDecimal(-n) else NatToDecimal(n)
  }

  /** `parseInt` reads back what `toString` wrote, and stops at the first
      character after the numeral that cannot continue it. */
  lemma ParseIntToString(n: int, rest: string)
    requires rest == [] || (!IsDecimalDigit(rest[0]) && rest[0] != 'x' && rest[0] != 'X')
    ensures ParseInt(IntToString(n) + rest) == Int(n)
  {
    var numeral := NatToDecimal(if n < 0 then -n else n);
    MagnitudeOfNumeral(numeral, rest);
    if n < 0 {
      assert IntToString(n) + rest == "-" + (numeral + rest);
      SignedParse(numeral + rest);
    } else {
      assert IntToString(n) + rest == numeral + rest;
      UnsignedParse(numeral + rest);
    }
  }

  /** Text that starts with a digit is read as a magnitude. */
  lemma UnsignedParse(u: string)
    requires |u| > 0 && IsDecimalDigit(u[0])
    ensures ParseInt(u) == ParseMagnitude(u)
  {
    assert LeadingSpaces(u, IsJsSpace) == 0;
  }

  /** A minus sign directly before a digit negates the magnitude after it. */
  lemma SignedParse(u: string)
    requires |u| > 0 && IsDecimalDigit(u[0])
    ensures ParseInt("-" + u) == Negate(ParseMagnitude(u))
  {
    var s := "-" + u;
    assert LeadingSpaces(s, IsJsSpace) == 0;
    assert s[1..] == u;
  }

  /** A decimal numeral followed by a character that cannot continue it
      parses to the numeral's value. */
  lemma MagnitudeOfNumeral(numeral: string, rest: string)
    requires 1 <= |numeral| && AllRadixDigits(numeral, 10)
    requires numeral[0] == '0' ==> numeral == "0"
    requires rest == [] || (!IsDecimalDigit(rest[0]) && rest[0] != 'x' && rest[0] != 'X')
    ensures ParseMagnitude(numeral + rest) == Int(DigitsValue(numeral, 10))
  {
    var u := numeral + rest;
    if |u| >= 2 && u[0] == '0' {
      assert u[1] == rest[0];
    }
    LeadingDigitsOfNumeral(numeral, rest);
    assert u[..|numeral|] == numeral;
  }

  /** The digit run of a numeral followed by a non-digit is the numeral. */
  lemma {:induction false} LeadingDigitsOfNumeral(numeral: string, rest: string)
    requires AllRadixDigits(numeral, 10)
    requires rest == [] || !IsDecimalDigit(rest[0])
    ensures LeadingDigits(numeral + rest, 10) == |numeral|
  {
    if numeral == [] {
      assert rest == [] || !IsRadixDigit(rest[0], 10);
    } else {
      assert (numeral + rest)[1..] == numeral[1..] + rest;
      LeadingDigitsOfNumeral(numeral[1..], rest);
    }
  }
}
