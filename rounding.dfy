/** One-decimal rounding of exact real quantities.

    The source rounds every gram and kcal figure with Python's round(x, 1).
    Here quantities are exact reals and rounding is half-up:
    RoundTenth(x) is floor(10*x + 1/2) / 10. */
module Rounding {

  /** x has at most one decimal digit: ten times x is a whole number. */
  predicate OneDecimal(x: real) {
    (10.0 * x).Floor as real == 10.0 * x
  }

  /** x rounded to one decimal place, ties rounded up. The result is a
      one-decimal value at distance at most 0.05 from x, and rounding
      keeps zero at zero and non-negative values non-negative. */
  function RoundTenth(x: real): (r: real)
    ensures OneDecimal(r)
    ensures x - 0.05 < r <= x + 0.05
    ensures 0.0 <= x ==> 0.0 <= r
    ensures x == 0.0 ==> r == 0.0
  {
    var n := (10.0 * x + 0.5).Floor;
    assert (10.0 * (n as real / 10.0)).Floor == n;
    n as real / 10.0
  }

  /** The result of RoundTenth is the only one-decimal value in the
      half-open window (x - 0.05, x + 0.05]; the window and OneDecimal
      therefore specify rounding completely. */
  lemma RoundTenthUnique(x: real, y: real)
    requires OneDecimal(y)
    requires x - 0.05 < y <= x + 0.05
    ensures y == RoundTenth(x)
  {
    var r := RoundTenth(x);
    var a, b := (10.0 * y).Floor, (10.0 * r).Floor;
    assert a as real == 10.0 * y && b as real == 10.0 * r;
    assert -1 < a - b < 1;
  }

  /** Values that already have one decimal are left unchanged. */
  lemma RoundTenthIdempotent(x: real)
    requires OneDecimal(x)
    ensures RoundTenth(x) == x
  {
    RoundTenthUnique(x, x);
  }

  /** Rounding preserves order. */
  lemma RoundTenthMonotone(x: real, y: real)
    requires x <= y
    ensures RoundTenth(x) <= RoundTenth(y)
  {
    var a, b := (10.0 * x + 0.5).Floor, (10.0 * y + 0.5).Floor;
    assert a as real < b as real + 1.0;
    assert a <= b;
    assert RoundTenth(x) == a as real / 10.0 && RoundTenth(y) == b as real / 10.0;
  }

  /** Ties go up on both sides of zero: 0.25 becomes 0.3 and -0.25 becomes -0.2. */
  lemma RoundTenthTiesUp()
    ensures RoundTenth(0.25) == 0.3
    ensures RoundTenth(-0.25) == -0.2
  {
    RoundTenthUnique(0.25, 0.3);
    RoundTenthUnique(-0.25, -0.2);
  }
}
