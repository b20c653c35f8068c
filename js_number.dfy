/**
 * ECMAScript's `parseFloat` (ECMA-262, section 19.2.4) on exact rationals:
 * leading white space is skipped, and the longest prefix that is a
 * StrDecimalLiteral (an optional sign, digits with an optional fraction, an
 * optional exponent) gives the value. `None` stands for `NaN`.
 */
module JsNumber {
  import opened Wrappers
  import JsString

  predicate IsDigit(c: char) {
    '0' <= c <= '9'
  }

  predicate AllDigits(s: string) {
    forall i :: 0 <= i < |s| ==> IsDigit(s[i])
  }

  predicate HasDigit(s: string) {
    exists i :: 0 <= i < |s| && IsDigit(s[i])
  }

  function DigitValue(c: char): (d: nat)
    requires IsDigit(c)
    ensures d < 10
  {
    c as int - '0' as int
  }

  function Digit(d: nat): (c: char)
    requires d < 10
    ensures IsDigit(c) && DigitValue(c) == d
  {
    ('0' as int + d) as char
  }

  /** Length of the run of decimal digits at the start of `s`. */
  function DigitRun(s: string): (n: nat)
    ensures n <= |s| && AllDigits(s[..n])
    ensures n < |s| ==> !IsDigit(s[n])
  {
    if |s| > 0 && IsDigit(s[0]) then
      var n := 1 + DigitRun(s[1..]);
      assert s[..n] == [s[0]] + s[1..][..n - 1];
      n
    else 0
  }

  /** The value of a string of decimal digits, most significant first. */
  function DigitsValue(d: string): nat
    requires AllDigits(d)
  {
    if d == [] then 0 else 10 * DigitsValue(d[..|d| - 1]) + DigitValue(d[|d| - 1])
  }

  function Pow10(n: nat): (r: nat)
    ensures r >= 1
  {
    if n == 0 then 1 else 10 * Pow10(n - 1)
  }

  /**
   * The power of ten an ExponentPart (`e` or `E`, an optional sign, digits)
   * at the start of `t` gives; 0 when `t` does not start with a complete
   * one, in which case the longest numeric prefix ends before it.
   */
  function ExponentPart(t: string): int {
    if |t| >= 2 && (t[0] == 'e' || t[0] == 'E') then
      var k := if t[1] == '-' || t[1] == '+' then 2 else 1;
      var n := DigitRun(t[k..]);
      if n == 0 then 0
      else
        var e: int := DigitsValue(t[k..][..n]);
        if t[1] == '-' then -e else e
    else 0
  }

  /** `x` times ten to the `e`, one decimal place at a time. */
  function Scale(x: real, e: int): real
    decreases if e < 0 then -e else e
  {
    if e == 0 then x
    else if e > 0 then 10.0 * Scale(x, e - 1)
    else Scale(x, e + 1) / 10.0
  }

  /** The value of the digits after a decimal point. */
  function Fraction(f: string): real
    requires AllDigits(f)
  {
    Scale(DigitsValue(f) as real, -|f|)
  }

  /** A non-negative power multiplies by that power of ten. */
  lemma {:induction false} ScaleUp(x: real, n: nat)
    ensures Scale(x, n) == x * Pow10(n) as real
  {
    if n > 0 {
      ScaleUp(x, n - 1);
      assert x * Pow10(n) as real == 10.0 * (x * Pow10(n - 1) as real);
    }
  }

  /** A negative power divides by that power of ten. */
  lemma {:induction false} ScaleDown(x: real, n: nat)
    ensures Scale(x, -(n as int)) == x / Pow10(n) as real
  {
    if n > 0 {
      ScaleDown(x, n - 1);
      var p := Pow10(n - 1) as real;
      assert Pow10(n) as real == 10.0 * p;
      assert x / (10.0 * p) == (x / p) / 10.0;
    }
  }

  /** Digits after a point are worth their value over ten to their count. */
  lemma FractionValue(f: string)
    requires AllDigits(f)
    ensures Fraction(f) == DigitsValue(f) as real / Pow10(|f|) as real
  {
    ScaleDown(DigitsValue(f) as real, |f|);
  }

  /** Digits followed by nothing, or by a non-digit, form a run of exactly that length. */
  lemma DigitRunOfDigits(d: string, tail: string)
    requires AllDigits(d)
    requires tail == [] || !IsDigit(tail[0])
    ensures DigitRun(d + tail) == |d|
  {
    var s := d + tail;
    assert forall i :: 0 <= i < |d| ==> s[i] == d[i];
    assert |d| < |s| ==> s[|d|] == tail[0];
  }

  /**
   * The value of digits `whole`, a fraction part `frac` after the point and
   * whatever follows, which may start with an exponent.
   */
  function Decimal(whole: string, frac: string, rest: string): real
    requires AllDigits(whole) && AllDigits(frac)
  {
    Scale(DigitsValue(whole) as real + Fraction(frac), ExponentPart(rest))
  }

  /**
   * With nothing after it, a decimal is its whole part plus its fraction
   * (stated on the `Option` that ParseUnsigned returns it in).
   */
  lemma DecimalWithoutExponent(whole: string, frac: string)
    requires AllDigits(whole) && AllDigits(frac)
    ensures Some(Decimal(whole, frac, "")) == Some(DigitsValue(whole) as real + Fraction(frac))
  {
  }

  /** Digits alone are worth their value. */
  lemma DecimalOfDigits(whole: string)
    requires AllDigits(whole)
    ensures Decimal(whole, "", "") == DigitsValue(whole) as real
  {
  }

  /** An exponent made of digits `e` gives the power `e`. */
  lemma ExponentPartOfDigits(e: string)
    requires |e| >= 1 && AllDigits(e)
    ensures ExponentPart("e" + e) == DigitsValue(e)
  {
    var t := "e" + e;
    assert t[1..] == e + [];
    DigitRunOfDigits(e, []);
    assert t[1..][..|e|] == e;
  }

  /** Digits before an exponent with digits `e` are scaled by ten to the `e`. */
  lemma DecimalWithExponent(whole: string, e: string)
    requires AllDigits(whole) && |e| >= 1 && AllDigits(e)
    ensures Decimal(whole, "", "e" + e) == Scale(DigitsValue(whole) as real, DigitsValue(e))
  {
    ExponentPartOfDigits(e);
    assert Fraction("") == 0.0;
  }

  /**
   * The value read after digits `whole` and a decimal point, where `t` is
   * what follows the point: the digits of a fraction and perhaps an
   * exponent. A point with no digit on either side is not a number.
   */
  function AfterPoint(whole: string, t: string): (r: Option<real>)
    requires AllDigits(whole)
    ensures r.Some? <==> |whole| > 0 || (|t| > 0 && IsDigit(t[0]))
  {
    var f := DigitRun(t);
    if |whole| == 0 && f == 0 then None else Some(Decimal(whole, t[..f], t[f..]))
  }

  /** The value of the longest StrUnsignedDecimalLiteral prefix of `u`, if any. */
  function ParseUnsigned(u: string): (r: Option<real>)
    ensures r.Some? ==> HasDigit(u)
  {
    var i := DigitRun(u);
    if i < |u| && u[i] == '.' then
      var r := AfterPoint(u[..i], u[i + 1..]);
      assert r.Some? ==> HasDigit(u) by {
        if r.Some? && i == 0 { assert u[i + 1..][0] == u[1]; }
        if r.Some? && i > 0 { assert u[..i][0] == u[0]; }
      }
      r
    else if i == 0 then None
    else
      assert u[..i][0] == u[0];
      Some(Decimal(u[..i], "", u[i..]))
  }

  /**
   * `parseFloat(s)`. A result needs at least one digit in `s`: a string with
   * no digit, such as "", "null" or "abc", gives `NaN`.
   */
  function ParseFloat(s: string): (r: Option<real>)
    ensures r.Some? ==> HasDigit(s)
  {
    var t := JsString.TrimStart(s);
    var k := |s| - |t|;
    if |t| > 0 && (t[0] == '-' || t[0] == '+') then
      var r := ParseUnsigned(t[1..]);
      assert r.Some? ==> HasDigit(s) by {
        if r.Some? {
          var i :| 0 <= i < |t[1..]| && IsDigit(t[1..][i]);
          assert s[k + 1 + i] == t[1..][i];
        }
      }
      if t[0] == '-' then
        match r
        case None => None
        case Some(x) => Some(-x)
      else r
    else
      var r := ParseUnsigned(t);
      assert r.Some? ==> HasDigit(s) by {
        if r.Some? {
          var i :| 0 <= i < |t| && IsDigit(t[i]);
          assert s[k + i] == t[i];
        }
      }
      r
  }

  /**
   * The decimal digits of a natural number without leading zeros. This is
   * `String(n)` for `n < 10^21`; JavaScript prints larger numbers in
   * exponent form ("1e+21").
   */
  function NatToDecimal(n: nat): (d: string)
    ensures |d| >= 1 && AllDigits(d)
    ensures |d| > 1 ==> d[0] != '0'
  {
    if n < 10 then [Digit(n)] else NatToDecimal(n / 10) + [Digit(n % 10)]
  }

  lemma {:induction false} NatToDecimalValue(n: nat)
    ensures DigitsValue(NatToDecimal(n)) == n
  {
    if n >= 10 {
      var d := NatToDecimal(n);
      assert d[..|d| - 1] == NatToDecimal(n / 10);
      NatToDecimalValue(n / 10);
    }
  }

  /** ParseUnsigned on a run of `i` digits and a point reads on after the point. */
  lemma ParseUnsignedWithPoint(u: string, i: nat)
    requires i < |u| && DigitRun(u) == i && u[i] == '.'
    ensures ParseUnsigned(u) == AfterPoint(u[..i], u[i + 1..])
  {
  }

  /** After the point, digits alone are the fraction. */
  lemma AfterPointDigits(whole: string, frac: string)
    requires |whole| >= 1 && AllDigits(whole) && AllDigits(frac)
    ensures AfterPoint(whole, frac) == Some(Decimal(whole, frac, ""))
  {
    DigitRunOfDigits(frac, []);
    assert frac + [] == frac;
    assert frac[..|frac|] == frac;
    assert frac[|frac|..] == [];
  }

  /** ParseUnsigned on a run of `i > 0` digits not followed by a point. */
  lemma ParseUnsignedWithoutPoint(u: string, i: nat)
    requires 0 < i <= |u| && DigitRun(u) == i && (i == |u| || u[i] != '.')
    ensures ParseUnsigned(u) == Some(Decimal(u[..i], "", u[i..]))
  {
  }

  /** A string that starts with something other than white space is its own TrimStart. */
  lemma TrimStartNonSpace(s: string)
    requires |s| > 0 && !JsString.IsSpace(s[0])
    ensures JsString.TrimStart(s) == s
  {
    assert JsString.LeadingSpace(s) == 0;
  }
}
