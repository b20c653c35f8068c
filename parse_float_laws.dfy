/**
 * What `parseFloat` gives on the strings the page produces and reads: plain
 * digits, digits with a decimal fraction, digits with an exponent, and a
 * leading minus sign.
 */
module ParseFloatLaws {
  import opened Wrappers
  import opened JsNumber

  /** A string of digits alone is read whole, with no fraction and no exponent. */
  lemma ParseUnsignedAllDigits(d: string)
    requires |d| >= 1 && AllDigits(d)
    ensures ParseUnsigned(d) == Some(DigitsValue(d) as real)
  {
    assert d + "" == d;
    ParseUnsignedDigitsThen(d, "");
    DecimalOfDigits(d);
  }

  /** Digits followed by something other than a digit or a point are read without a fraction. */
  lemma ParseUnsignedDigitsThen(d: string, rest: string)
    requires |d| >= 1 && AllDigits(d)
    requires rest == [] || (!IsDigit(rest[0]) && rest[0] != '.')
    ensures ParseUnsigned(d + rest) == Some(Decimal(d, "", rest))
  {
    var u := d + rest;
    DigitRunOfDigits(d, rest);
    assert u[..|d|] == d;
    assert u[|d|..] == rest;
    ParseUnsignedWithoutPoint(u, |d|);
  }

  /** Digits, a point and digits (possibly none) are read as a decimal with no exponent. */
  lemma ParseUnsignedDigitsPointDigits(a: string, b: string)
    requires |a| >= 1 && AllDigits(a) && AllDigits(b)
    ensures ParseUnsigned(a + "." + b) == Some(Decimal(a, b, ""))
  {
    var u := a + "." + b;
    assert u == a + ("." + b);
    DigitRunOfDigits(a, "." + b);
    assert u[..|a|] == a;
    assert u[|a| + 1..] == b;
    ParseUnsignedWithPoint(u, |a|);
    AfterPointDigits(a, b);
  }

  /** That decimal is the whole part plus the fraction. */
  lemma ParseUnsignedDecimal(a: string, b: string)
    requires |a| >= 1 && AllDigits(a) && AllDigits(b)
    ensures ParseUnsigned(a + "." + b) == Some(DigitsValue(a) as real + Fraction(b))
  {
    ParseUnsignedDigitsPointDigits(a, b);
    DecimalWithoutExponent(a, b);
  }

  /** A string starting with a digit is read by parseFloat as an unsigned literal. */
  lemma ParseFloatFromDigit(u: string)
    requires |u| >= 1 && IsDigit(u[0])
    ensures ParseFloat(u) == ParseUnsigned(u)
  {
    TrimStartNonSpace(u);
  }

  /** `parseFloat(String(n)) === n` for every natural number `n`. */
  lemma ParseFloatNatToDecimal(n: nat)
    ensures ParseFloat(NatToDecimal(n)) == Some(n as real)
  {
    var d := NatToDecimal(n);
    ParseFloatFromDigit(d);
    ParseUnsignedAllDigits(d);
    NatToDecimalValue(n);
  }

  /** parseFloat reads digits, a point and digits as the whole part plus the fraction. */
  lemma ParseFloatPointFraction(a: string, b: string)
    requires |a| >= 1 && AllDigits(a) && AllDigits(b)
    ensures ParseFloat(a + "." + b) == Some(DigitsValue(a) as real + Fraction(b))
  {
    assert (a + "." + b)[0] == a[0];
    ParseFloatFromDigit(a + "." + b);
    ParseUnsignedDecimal(a, b);
  }

  /** The fraction written out as a quotient, on the `Option` parseFloat returns it in. */
  lemma SomeFractionQuotient(a: string, b: string)
    requires AllDigits(a) && AllDigits(b)
    ensures Some(DigitsValue(a) as real + Fraction(b))
            == Some(DigitsValue(a) as real + DigitsValue(b) as real / Pow10(|b|) as real)
  {
    FractionValue(b);
  }

  /** `parseFloat("12.5")`: digits, a point and digits (possibly none) read as a decimal fraction. */
  lemma ParseFloatDecimal(a: string, b: string)
    requires |a| >= 1 && AllDigits(a) && AllDigits(b)
    ensures ParseFloat(a + "." + b)
            == Some(DigitsValue(a) as real + DigitsValue(b) as real / Pow10(|b|) as real)
  {
    ParseFloatPointFraction(a, b);
    SomeFractionQuotient(a, b);
  }

  /**
   * `parseFloat("1e3")`: digits with an exponent are scaled by ten to the
   * exponent, which ScaleUp shows is multiplying by that power of ten.
   */
  lemma ParseFloatExponent(a: string, e: string)
    requires |a| >= 1 && AllDigits(a) && |e| >= 1 && AllDigits(e)
    ensures ParseFloat(a + "e" + e) == Some(Scale(DigitsValue(a) as real, DigitsValue(e)))
  {
    assert a + "e" + e == a + ("e" + e);
    assert (a + ("e" + e))[0] == a[0];
    ParseFloatFromDigit(a + ("e" + e));
    ParseUnsignedDigitsThen(a, "e" + e);
    DecimalWithExponent(a, e);
  }

  /** `parseFloat("-" + t)` is the negation of `parseFloat(t)` when `t` starts with a digit. */
  lemma ParseFloatNegative(t: string)
    requires |t| >= 1 && IsDigit(t[0])
    ensures ParseFloat("-" + t) == match ParseFloat(t) case None => None case Some(x) => Some(-x)
  {
    TrimStartNonSpace(t);
    var u := "-" + t;
    TrimStartNonSpace(u);
    assert u[1..] == t;
  }

  /** `parseFloat("0")` is zero: a typed "0" is a number, though a falsy one. */
  lemma ParseFloatZero()
    ensures ParseFloat("0") == Some(0.0)
  {
    assert NatToDecimal(0) == "0";
    ParseFloatNatToDecimal(0);
  }
}
