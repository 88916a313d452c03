/**
  JavaScript's conversions between numbers and text, on exact rationals:
  `parseFloat` (a missing result stands for NaN), `Math.round` and the
  numeric value of `x.toFixed(d)`.
*/
module JsNumber {
  import opened Optional
  import opened Text

  function Pow10(e: nat): (r: nat)
    ensures r >= 1
  {
    if e == 0 then 1 else 10 * Pow10(e - 1)
  }

  /** Multiplication by ten to the power `e`, for either sign of `e`. */
  function Scale(e: int): (r: real)
    ensures r > 0.0
  {
    if e >= 0 then Pow10(e) as real else 1.0 / (Pow10(-e) as real)
  }

  /** Length of the longest prefix of `s` made of decimal digits. */
  function DigitRun(s: string): (k: nat)
    ensures k <= |s| && AllDigits(s[..k])
    ensures k < |s| ==> !IsDigit(s[k])
  {
    if s != [] && IsDigit(s[0]) then
      var k := 1 + DigitRun(s[1..]);
      assert s[..k] == [s[0]] + s[1..][..k - 1];
      k
    else 0
  }

  /** The exponent that an `e` or `E` part at the start of `s` denotes; 0 when there is none. */
  function ExponentPart(s: string): int
  {
    if |s| >= 1 && (s[0] == 'e' || s[0] == 'E') then
      var negative := |s| >= 2 && s[1] == '-';
      var digits := if |s| >= 2 && (s[1] == '-' || s[1] == '+') then s[2..] else s[1..];
      var k := DigitRun(digits);
      if k == 0 then 0
      else if negative then -(DigitsValue(digits[..k]) as int)
      else DigitsValue(digits[..k])
    else 0
  }

  /** The value of the digits `whole`, a decimal point and the digits `fraction`. */
  function Mantissa(whole: string, fraction: string): real
    requires AllDigits(whole) && AllDigits(fraction)
  {
    DigitsValue(whole) as real + DigitsValue(fraction) as real / Pow10(|fraction|) as real
  }

  /**
    The value of the longest prefix of `u` that reads as an unsigned
    decimal literal (digits, an optional fraction, an optional exponent);
    None when no digit starts it.
  */
  function UnsignedPrefix(u: string): Option<real>
  {
    var i := DigitRun(u);
    var rest := u[i..];
    var hasDot := rest != [] && rest[0] == '.';
    var f := if hasDot then DigitRun(rest[1..]) else 0;
    if i + f == 0 then None
    else
      var fraction := if hasDot then rest[1..][..f] else "";
      var after := if hasDot then rest[1 + f..] else rest;
      Some(Mantissa(u[..i], fraction) * Scale(ExponentPart(after)))
  }

  /**
    `parseFloat(s)`: leading white space is skipped, an optional sign is
    read, then the longest decimal literal; None stands for NaN.
  */
  function ParseFloat(s: string): Option<real>
  {
    var t := TrimStart(s);
    var negative := t != [] && t[0] == '-';
    var u := if t != [] && (t[0] == '-' || t[0] == '+') then t[1..] else t;
    match UnsignedPrefix(u)
    case None => None
    case Some(v) => Some(if negative then -v else v)
  }

  /** A string of digits alone reads back as the number it denotes. */
  lemma DigitsParse(s: string)
    requires |s| >= 1 && AllDigits(s)
    ensures UnsignedPrefix(s) == Some(DigitsValue(s) as real)
  {
    DigitsPrefix(s);
    WholeMantissa(s);
  }

  /** A string of digits alone is all mantissa, with no fraction and no exponent. */
  lemma DigitsPrefix(s: string)
    requires |s| >= 1 && AllDigits(s)
    ensures UnsignedPrefix(s) == Some(Mantissa(s, ""))
  {
    var i := DigitRun(s);
    assert i == |s|;
    assert s[..i] == s && s[i..] == [];
    assert Scale(ExponentPart([])) == 1.0;
  }

  /** Digits with no fraction denote their integer value. */
  lemma WholeMantissa(s: string)
    requires AllDigits(s)
    ensures Mantissa(s, "") == DigitsValue(s) as real
  {
    var w := DigitsValue(s) as real;
    assert DigitsValue("") == 0 && Pow10(0) == 1;
    assert Mantissa(s, "") == w + 0.0 / 1.0;
  }

  /** `parseFloat(String(i))` is `i` for every integer `i`. */
  lemma ParseFloatOfInteger(i: int)
    ensures ParseFloat(IntToString(i)) == Some(i as real)
  {
    var s := IntToString(i);
    var d := if i < 0 then NatToString(-i) else NatToString(i);
    assert !IsJsWhitespace(s[0]);
    assert TrimStart(s) == s;
    if i < 0 {
      assert s[1..] == d;
    }
    DigitsParse(d);
    NatToStringRoundTrip(if i < 0 then -i else i);
  }

  /** A string that starts with neither a digit, a sign, a dot nor white space is NaN. */
  lemma ParseFloatOfNonNumeric(s: string)
    requires s != [] && !IsDigit(s[0]) && !IsJsWhitespace(s[0])
    requires s[0] != '-' && s[0] != '+' && s[0] != '.'
    ensures ParseFloat(s) == None
  {
    assert TrimStart(s) == s;
    assert DigitRun(s) == 0;
  }

  /** `Math.round(x)`: the nearest integer, halves rounded up. */
  function MathRound(x: real): (r: int)
    ensures x - 0.5 < r as real <= x + 0.5
  {
    (x + 0.5).Floor
  }

  /**
    The number `x.toFixed(digits)` denotes: `x` rounded to `digits`
    decimals, halves rounded away from zero.
  */
  function ToFixed(x: real, digits: nat): (r: real)
    ensures -1.0 / (2 * Pow10(digits)) as real <= r - x <= 1.0 / (2 * Pow10(digits)) as real
  {
    var p := Pow10(digits) as real;
    var m := if x >= 0.0 then x else -x;
    var n := (m * p + 0.5).Floor;
    RoundedQuotient(m, p, n as real);
    if x >= 0.0 then n as real / p else -(n as real / p)
  }

  /** A numerator within a half of `m * p` gives a quotient within `1 / (2p)` of `m`. */
  lemma RoundedQuotient(m: real, p: real, n: real)
    requires p >= 1.0 && m * p - 0.5 < n <= m * p + 0.5
    ensures -1.0 / (2.0 * p) <= n / p - m <= 1.0 / (2.0 * p)
  {
    var d := n - m * p;
    assert n / p == m + d / p;
    assert -0.5 <= d <= 0.5;
    assert d / p <= 0.5 / p;
    assert -0.5 / p <= d / p;
  }
}
