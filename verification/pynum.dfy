/**
 * Python's `float(str)` on plain decimal text and `int(float)` truncation.
 * Floating-point rounding is not modelled: decimal text denotes its exact value.
 */
module PyNum {
  import opened PyText

  function Pow10(n: nat): (r: nat)
    ensures r >= 1
  {
    if n == 0 then 1 else 10 * Pow10(n - 1)
  }

  /** The value of `whole.frac` written in decimal. */
  function DecimalValue(whole: string, frac: string): real
    requires AllDigits(whole) && AllDigits(frac)
  {
    DigitsValue(whole) as real + DigitsValue(frac) as real / Pow10(|frac|) as real
  }

  /** Python's `float(s)` for plain decimal text: optional sign, then `d+`, `d+.`, `d+.d+` or `.d+`.
      Exponents, `inf` and `nan` are not part of this model and read as a failure. */
  function ParseDecimal(s: string): Option<real>
  {
    var t := Strip(s);
    var neg := t != [] && t[0] == '-';
    var body := if t != [] && (t[0] == '+' || t[0] == '-') then t[1..] else t;
    match UnsignedDecimal(body)
    case None => None
    case Some(v) => Some(if neg then -v else v)
  }

  /** The value of `d+`, `d+.`, `d+.d+` or `.d+`. */
  function UnsignedDecimal(body: string): Option<real>
  {
    match Find(body, ".")
    case None => if IsDigitText(body) then Some(DigitsValue(body) as real) else None
    case Some(i) =>
      var whole := body[..i];
      var frac := body[i + 1..];
      if AllDigits(whole) && AllDigits(frac) && (whole != [] || frac != []) then Some(DecimalValue(whole, frac))
      else None
  }

  /** Unsigned text with nothing to strip and a point at `i` reads as the decimal around it. */
  lemma ParseDecimalPlain(s: string, i: nat)
    requires Strip(s) == s && s != [] && s[0] != '+' && s[0] != '-'
    requires Find(s, ".") == Some(i) && i < |s|
    requires AllDigits(s[..i]) && AllDigits(s[i + 1..]) && (i > 0 || i + 1 < |s|)
    ensures ParseDecimal(s) == Some(DecimalValue(s[..i], s[i + 1..]))
  {
    UnsignedPoint(s, i);
    Unsigned(s);
  }

  /** Digits around the first point read as the decimal they spell. */
  lemma UnsignedPoint(body: string, i: nat)
    requires Find(body, ".") == Some(i) && i < |body|
    requires AllDigits(body[..i]) && AllDigits(body[i + 1..]) && (i > 0 || i + 1 < |body|)
    ensures UnsignedDecimal(body) == Some(DecimalValue(body[..i], body[i + 1..]))
  {
  }

  /** Text with nothing to strip and no sign reads as its unsigned value. */
  lemma Unsigned(s: string)
    requires Strip(s) == s && s != [] && s[0] != '+' && s[0] != '-'
    ensures ParseDecimal(s) == UnsignedDecimal(s)
  {
  }

  /** `int(x)` for a float: truncation toward zero. */
  function Trunc(r: real): int
  {
    if r >= 0.0 then r.Floor else -((-r).Floor)
  }

  /** Truncation toward zero: the whole part below a non-negative number, above a negative one. */
  lemma TruncBounds(r: real)
    ensures r >= 0.0 ==> Trunc(r) as real <= r < Trunc(r) as real + 1.0
    ensures r <= 0.0 ==> Trunc(r) as real - 1.0 < r <= Trunc(r) as real
    ensures r >= 0.0 ==> 0 <= Trunc(r)
    ensures r <= 0.0 ==> Trunc(r) <= 0
  {
  }
}
