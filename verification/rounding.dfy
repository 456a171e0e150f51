/** Decimal rounding as Ruby's BigDecimal#round does it by default
    (ROUND_HALF_UP): to the nearest integer, a tie going away from zero.
    A quotient num/den rounded to two decimal places is the integer number of
    hundredths RoundHalfUpDiv(100 * num, den). */
module Rounding {

  function Abs(x: int): nat
  {
    if x < 0 then -x else x
  }

  /** p is num/den rounded to the nearest integer, halves away from zero:
      |p| is within one half of |num/den| (a tie taking the larger magnitude),
      and a nonzero p has the sign of the quotient. */
  ghost predicate IsRoundHalfUp(p: int, num: int, den: int)
    requires den != 0
  {
    var a, b, m := Abs(num), Abs(den), Abs(p);
    && b * (2 * m - 1) <= 2 * a < b * (2 * m + 1)
    && (p < 0 ==> (num < 0) != (den < 0))
    && (p > 0 ==> (num < 0) == (den < 0))
  }

  lemma FloorDivBounds(x: int, d: int)
    requires d > 0
    ensures d * (x / d) <= x < d * (x / d) + d
    ensures x >= 0 ==> x / d >= 0
  {
  }

  /** The magnitude of a rounded quotient: floor(a/b + 1/2). */
  lemma HalfUpMagnitude(a: nat, b: nat)
    requires b > 0
    ensures (2 * a + b) / (2 * b) >= 0
    ensures b * (2 * ((2 * a + b) / (2 * b)) - 1) <= 2 * a < b * (2 * ((2 * a + b) / (2 * b)) + 1)
  {
    var m := (2 * a + b) / (2 * b);
    FloorDivBounds(2 * a + b, 2 * b);
    assert 2 * b * m <= 2 * a + b < 2 * b * m + 2 * b;
    assert b * (2 * m - 1) == 2 * b * m - b;
    assert b * (2 * m + 1) == 2 * b * m + b;
  }

  function RoundHalfUpDiv(num: int, den: int): (p: int)
    requires den != 0
    ensures IsRoundHalfUp(p, num, den)
  {
    var a, b := Abs(num), Abs(den);
    HalfUpMagnitude(a, b);
    var m := (2 * a + b) / (2 * b);
    if (num < 0) != (den < 0) then -m else m
  }

  lemma MulMonotone(b: int, x: int, y: int)
    requires b >= 0 && x <= y
    ensures b * x <= b * y
  {
    assert b * y - b * x == b * (y - x);
  }

  /** Two magnitudes squeezed around the same quotient are ordered. */
  lemma MagnitudeOrder(m: int, k: int, a: int, b: int)
    requires b > 0
    requires b * (2 * m - 1) <= 2 * a < b * (2 * k + 1)
    ensures m <= k
  {
    if m > k {
      MulMonotone(b, 2 * k + 1, 2 * m - 1);
    }
  }

  /** IsRoundHalfUp determines the rounded value uniquely. */
  lemma {:induction false} RoundHalfUpUnique(p: int, q: int, num: int, den: int)
    requires den != 0
    requires IsRoundHalfUp(p, num, den) && IsRoundHalfUp(q, num, den)
    ensures p == q
  {
    MagnitudeOrder(Abs(p), Abs(q), Abs(num), Abs(den));
    MagnitudeOrder(Abs(q), Abs(p), Abs(num), Abs(den));
  }
}
