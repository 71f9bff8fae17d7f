/** Python's numeric conversions that the sorter relies on. */
module Numbers {

  /** Python's `int()` applied to a float: the integer part, rounded toward zero. */
  function Truncate(x: real): int
  {
    if 0.0 <= x then x.Floor else -((-x).Floor)
  }

  /** The truncated value lies within one of `x`, on the side of zero. */
  lemma TruncateTowardZero(x: real)
    ensures 0.0 <= x ==> 0 <= Truncate(x) && Truncate(x) as real <= x < Truncate(x) as real + 1.0
    ensures x < 0.0 ==> Truncate(x) <= 0 && Truncate(x) as real - 1.0 < x <= Truncate(x) as real
  {
  }
}
