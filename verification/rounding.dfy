/** `Math.round` of a quotient, computed exactly on integers.
    `Math.round(x)` is `floor(x + 1/2)`: the nearest integer, halves rounded
    towards positive infinity. */
module Rounding {

  /** `Math.round(p / q)` for a positive divisor. */
  function RoundHalfUp(p: int, q: int): (r: int)
    requires q > 0
    ensures 2 * q * r <= 2 * p + q < 2 * q * (r + 1)
  {
    var d := 2 * q;
    var r := (2 * p + q) / d;
    assert d * r + (2 * p + q) % d == 2 * p + q;
    r
  }

  /** The bracket of `RoundHalfUp` has exactly one solution. */
  lemma RoundHalfUpUnique(p: int, q: int, r: int)
    requires q > 0
    requires 2 * q * r <= 2 * p + q < 2 * q * (r + 1)
    ensures r == RoundHalfUp(p, q)
  {
    var r' := RoundHalfUp(p, q);
    MulCancel(2 * q, r, r' + 1);
    MulCancel(2 * q, r', r + 1);
  }

  /** Cancelling a positive factor on both sides of a strict inequality. */
  lemma MulCancel(k: int, a: int, b: int)
    requires k > 0 && k * a < k * b
    ensures a < b
  {
    assert k * (b - a) == k * b - k * a > 0;
  }

  /** Rounding a quotient that lies between two integers stays between them. */
  lemma RoundHalfUpBetween(p: int, q: int, lo: int, hi: int)
    requires q > 0 && lo * q <= p <= hi * q
    ensures lo <= RoundHalfUp(p, q) <= hi
  {
    var r := RoundHalfUp(p, q);
    assert 2 * q * lo < 2 * q * (r + 1);
    MulCancel(2 * q, lo, r + 1);
    assert 2 * q * r < 2 * q * (hi + 1);
    MulCancel(2 * q, r, hi + 1);
  }

  /** An exact quotient is returned unchanged. */
  lemma RoundHalfUpExact(k: int, q: int)
    requires q > 0
    ensures RoundHalfUp(k * q, q) == k
  {
    RoundHalfUpBetween(k * q, q, k, k);
  }

  /** `Math.round((part / whole) * 100)`: a whole-number percentage. */
  function Percent(part: int, whole: int): int
    requires whole > 0
  {
    RoundHalfUp(100 * part, whole)
  }

  /** A share of a whole is a percentage in 0..100, 0 for nothing and 100 for everything. */
  lemma PercentBounds(part: int, whole: int)
    requires 0 <= part <= whole && whole > 0
    ensures 0 <= Percent(part, whole) <= 100
    ensures part == 0 ==> Percent(part, whole) == 0
    ensures part == whole ==> Percent(part, whole) == 100
  {
    RoundHalfUpBetween(100 * part, whole, 0, 100);
    if part == 0 {
      RoundHalfUpExact(0, whole);
    }
    if part == whole {
      RoundHalfUpExact(100, whole);
    }
  }
}
