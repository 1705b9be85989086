/**
 * The handful of JavaScript number conventions the application relies on:
 * `x || d` defaults, `Math.round`-based rounding, and the leading-prefix
 * readers `parseFloat` / `parseInt`. A JavaScript number that is NaN or
 * undefined is modelled as `None`.
 */
module JsNumber {

  datatype Option<+T> = None | Some(value: T)

  /** `x || d` for a number: NaN (None) and 0 are falsy and give `d`. */
  function OrDefault(x: Option<real>, d: real): real
  {
    if x.Some? && x.value != 0.0 then x.value else d
  }

  /** `x || d` for an integer produced by `parseInt`. */
  function OrDefaultInt(x: Option<int>, d: int): int
  {
    if x.Some? && x.value != 0 then x.value else d
  }

  /** `s || d` for a string: absent (None) and empty are falsy and give `d`. */
  function OrDefaultText(s: Option<string>, d: string): string
  {
    if s.Some? && s.value != "" then s.value else d
  }

  // ---------------------------------------------------------------------------
  // Rounding: Math.round(x * scale) / scale, where Math.round(y) = floor(y + 1/2)
  // ---------------------------------------------------------------------------

  function RoundAt(x: real, scale: nat): real
    requires scale > 0
  {
    ((x * scale as real + 0.5).Floor as real) / scale as real
  }

  function RoundTo2(x: real): real { RoundAt(x, 100) }

  function RoundTo4(x: real): real { RoundAt(x, 10000) }

  /** Rounding to two decimals moves a value by at most half a cent. */
  lemma RoundTo2Error(x: real)
    ensures -0.005 < RoundTo2(x) - x <= 0.005
  {
    var y := x * 100.0 + 0.5;
    var f := y.Floor as real;
    assert y - 1.0 < f <= y;
    assert RoundTo2(x) == f / 100.0;
    assert f / 100.0 - x == (f - x * 100.0) / 100.0;
  }

  /** Rounding to two decimals gives a whole number of cents. */
  lemma RoundTo2WholeCents(x: real)
    ensures (RoundTo2(x) * 100.0).Floor as real == RoundTo2(x) * 100.0
  {
    var f := (x * 100.0 + 0.5).Floor as real;
    assert RoundTo2(x) * 100.0 == f;
  }

  /** Rounding to four decimals moves a value by at most 0.00005. */
  lemma RoundTo4Error(x: real)
    ensures -0.00005 < RoundTo4(x) - x <= 0.00005
  {
    var y := x * 10000.0 + 0.5;
    var f := y.Floor as real;
    assert y - 1.0 < f <= y;
    assert RoundTo4(x) == f / 10000.0;
    assert f / 10000.0 - x == (f - x * 10000.0) / 10000.0;
  }

  // ---------------------------------------------------------------------------
  // Decimal digits
  // ---------------------------------------------------------------------------

  predicate IsDigit(c: char) { '0' <= c <= '9' }

  predicate AllDigits(s: string) { forall i :: 0 <= i < |s| ==> IsDigit(s[i]) }

  function DigitValue(c: char): nat
    requires IsDigit(c)
  {
    c as int - '0' as int
  }

  function DigitChar(d: nat): (c: char)
    requires d < 10
    ensures IsDigit(c) && DigitValue(c) == d
  {
    ('0' as int + d) as char
  }

  /** The longest prefix of `s` made of decimal digits. */
  function DigitPrefix(s: string): (p: string)
    ensures |p| <= |s| && p == s[..|p|]
    ensures AllDigits(p)
    ensures |p| < |s| ==> !IsDigit(s[|p|])
  {
    if s == [] || !IsDigit(s[0]) then [] else [s[0]] + DigitPrefix(s[1..])
  }

  /** The value of a digit string, most significant digit first. */
  function DigitsValue(s: string): nat
    requires AllDigits(s)
  {
    if s == [] then 0 else DigitsValue(s[..|s| - 1]) * 10 + DigitValue(s[|s| - 1])
  }

  function Pow10(n: nat): (p: nat)
    ensures p >= 1
  {
    if n == 0 then 1 else 10 * Pow10(n - 1)
  }

  /** The decimal text of a natural number, as `Number.prototype.toString` writes it. */
  function NatToString(n: nat): (s: string)
    ensures |s| >= 1 && AllDigits(s)
  {
    if n < 10 then [DigitChar(n)] else NatToString(n / 10) + [DigitChar(n % 10)]
  }

  lemma {:induction false} NatToStringValue(n: nat)
    ensures DigitsValue(NatToString(n)) == n
  {
    if n >= 10 {
      var s := NatToString(n);
      assert s[..|s| - 1] == NatToString(n / 10);
      NatToStringValue(n / 10);
    }
  }

  /** The sign of a leading `+` or `-`, and the text after it. */
  function SplitSign(s: string): (bool, string)
  {
    if |s| > 0 && (s[0] == '-' || s[0] == '+') then (s[0] == '-', s[1..]) else (false, s)
  }

  /**
   * `parseFloat`: an optional sign, digits, an optional '.', digits; the
   * longest such prefix is read, and no digit at all gives NaN (None).
   */
  function ParseFloat(s: string): Option<real>
  {
    var (negative, rest) := SplitSign(s);
    var whole := DigitPrefix(rest);
    var tail := rest[|whole|..];
    var frac := if |tail| > 0 && tail[0] == '.' then DigitPrefix(tail[1..]) else [];
    if |whole| + |frac| == 0 then None
    else
      var magnitude := DigitsValue(whole) as real + DigitsValue(frac) as real / Pow10(|frac|) as real;
      Some(if negative then -magnitude else magnitude)
  }

  /** `parseInt(s, 10)`: an optional sign and the longest digit prefix; none gives NaN. */
  function ParseInt(s: string): (r: Option<int>)
    ensures r.Some? ==> DigitPrefix(SplitSign(s).1) != []
    ensures r.Some? && !SplitSign(s).0 ==> r.value >= 0
    ensures r.Some? && SplitSign(s).0 ==> r.value <= 0
  {
    var (negative, rest) := SplitSign(s);
    var whole := DigitPrefix(rest);
    if whole == [] then None
    else Some(if negative then -(DigitsValue(whole) as int) else DigitsValue(whole) as int)
  }

  /** A value read without a leading '-' is never negative, and one read with it is never positive. */
  lemma ParseFloatSign(s: string)
    requires ParseFloat(s).Some?
    ensures !SplitSign(s).0 ==> ParseFloat(s).value >= 0.0
    ensures SplitSign(s).0 ==> ParseFloat(s).value <= 0.0
  {
    MagnitudeOfParsed(s);
  }

  /** Text that `parseInt` reads as a number, `parseFloat` reads as one too, with the same sign. */
  lemma ParseIntThenParseFloat(s: string)
    requires ParseInt(s).Some?
    ensures ParseFloat(s).Some?
    ensures ParseInt(s).value < 0 ==> ParseFloat(s).value < 0.0
  {
    assert ParseFloat(s).Some?;
    MagnitudeOfParsed(s);
  }

  lemma QuotientNonNegative(a: real, b: real)
    requires a >= 0.0 && b > 0.0
    ensures a / b >= 0.0
  {
  }

  /** What `parseFloat` reads is at least as far from 0 as the value of its whole digits, on the side of its sign. */
  lemma MagnitudeOfParsed(s: string)
    requires ParseFloat(s).Some?
    ensures !SplitSign(s).0 ==> ParseFloat(s).value >= DigitsValue(DigitPrefix(SplitSign(s).1)) as real
    ensures SplitSign(s).0 ==> ParseFloat(s).value <= -(DigitsValue(DigitPrefix(SplitSign(s).1)) as real)
  {
    var (negative, rest) := SplitSign(s);
    var whole := DigitPrefix(rest);
    var tail := rest[|whole|..];
    var frac := if |tail| > 0 && tail[0] == '.' then DigitPrefix(tail[1..]) else [];
    var fraction := DigitsValue(frac) as real / Pow10(|frac|) as real;
    QuotientNonNegative(DigitsValue(frac) as real, Pow10(|frac|) as real);
    var magnitude := DigitsValue(whole) as real + fraction;
    assert |whole| + |frac| != 0;
    assert ParseFloat(s).value == (if negative then -magnitude else magnitude);
  }

  /** The whole of `s` (after an optional sign) is digits with at most one '.', and holds a digit. */
  predicate WholeDecimal(s: string)
  {
    var (negative, rest) := SplitSign(s);
    var whole := DigitPrefix(rest);
    var tail := rest[|whole|..];
    (tail == [] && |whole| > 0)
    || (|tail| > 0 && tail[0] == '.' && AllDigits(tail[1..]) && |whole| + |tail| > 1)
  }

  /**
   * `Number(s)` for a string: the empty string is 0, a string that is
   * entirely a signed decimal is its value, anything else is NaN (None).
   */
  function NumberOfString(s: string): (r: Option<real>)
    ensures s != [] && r.Some? ==> r == ParseFloat(s)
  {
    if s == [] then Some(0.0) else if WholeDecimal(s) then ParseFloat(s) else None
  }

  /** A non-empty digit string reads as its value with `parseFloat`. */
  lemma ParseFloatOfDigits(s: string)
    requires s != [] && AllDigits(s)
    ensures SplitSign(s) == (false, s) && DigitPrefix(s) == s
    ensures ParseFloat(s) == Some(DigitsValue(s) as real)
  {
    assert !(s[0] == '-' || s[0] == '+') by { assert IsDigit(s[0]); }
    DigitPrefixOfDigits(s);
    ParseFloatWholeOnly(s);
  }

  /** Text that is unsigned and all digit prefix reads as that prefix's value. */
  lemma ParseFloatWholeOnly(s: string)
    requires s != [] && SplitSign(s) == (false, s) && DigitPrefix(s) == s
    ensures ParseFloat(s) == Some(DigitsValue(s) as real)
  {
    assert s[|s|..] == [];
  }

  /** ... and with `Number`. */
  lemma NumberOfDigits(s: string)
    requires s != [] && AllDigits(s)
    ensures NumberOfString(s) == Some(DigitsValue(s) as real)
  {
    ParseFloatOfDigits(s);
    assert s[|s|..] == [];
    assert WholeDecimal(s);
  }

  /** Reading back the decimal text of a natural number gives the number. */
  lemma ParseIntNatToString(n: nat)
    ensures ParseInt(NatToString(n)) == Some(n)
  {
    var s := NatToString(n);
    assert !(s[0] == '-' || s[0] == '+') by { assert IsDigit(s[0]); }
    assert SplitSign(s) == (false, s);
    DigitPrefixOfDigits(s);
    NatToStringValue(n);
  }

  lemma {:induction false} DigitPrefixOfDigits(s: string)
    requires AllDigits(s)
    ensures DigitPrefix(s) == s
  {
    if s != [] {
      DigitPrefixOfDigits(s[1..]);
    }
  }
}
