/**
 * Rounding a real number to a whole number, in the three directions the
 * calculators use: ceiling (Python's math.ceil), ROUND_UP (Python's Decimal
 * rounding away from zero) and ROUND_HALF_UP (to nearest, ties away from zero).
 */
module Rounding {

  /** The least integer not below x. */
  function Ceil(x: real): (n: int)
    ensures x <= n as real < x + 1.0
  {
    -((-x).Floor)
  }

  /** Decimal's ROUND_UP to a whole number: the magnitude is rounded up, the sign kept. */
  function RoundUp(x: real): (n: int)
    ensures x >= 0.0 ==> x <= n as real < x + 1.0
    ensures x < 0.0 ==> x - 1.0 < n as real <= x
  {
    if x >= 0.0 then Ceil(x) else -Ceil(-x)
  }

  /** Decimal's ROUND_HALF_UP to a whole number: nearest integer, halves away from zero. */
  function RoundHalfUp(x: real): (n: int)
    ensures x >= 0.0 ==> x - 0.5 < n as real <= x + 0.5
    ensures x < 0.0 ==> x - 0.5 <= n as real < x + 0.5
  {
    if x >= 0.0 then (x + 0.5).Floor else -((-x + 0.5).Floor)
  }

  /** Ceiling never decreases as its argument grows. */
  lemma CeilMonotone(x: real, y: real)
    requires x <= y
    ensures Ceil(x) <= Ceil(y)
  {
  }

  /** On non-negative numbers ROUND_UP and the ceiling agree. */
  lemma RoundUpIsCeilOnNonNegatives(x: real)
    requires x >= 0.0
    ensures RoundUp(x) == Ceil(x)
  {
  }
}
