/**
 * The parts of the C library that the two generators use, stated over exact
 * reals: round(), floor(), the conversion (int) of a double, the shift and
 * mask of a non-negative int, and the base-2 logarithm computed as
 * log(x)/log(2.0).
 */
module CMath {

  /**
   * C's round(): the nearest integer, with halfway cases rounded away from
   * zero. The three postconditions determine the result.
   */
  function Round(x: real): (r: int)
    ensures -0.5 <= x - r as real <= 0.5
    ensures x - r as real == 0.5 ==> x < 0.0
    ensures x - r as real == -0.5 ==> x > 0.0
  {
    if x >= 0.0 then (x + 0.5).Floor else -((0.5 - x).Floor)
  }

  /** An integer is its own rounding. */
  lemma RoundOfInt(n: int)
    ensures Round(n as real) == n
  {
  }

  /** Rounding never reverses the order of two values. */
  lemma RoundMonotone(x: real, y: real)
    requires x <= y
    ensures Round(x) <= Round(y)
  {
  }

  /** Shifting a value by a whole number shifts its floor by the same amount. */
  lemma FloorShift(x: real, n: int)
    ensures (x + n as real).Floor == x.Floor + n
  {
  }

  /** A factor whose product with a positive number is positive, or not negative, is itself so. */
  lemma PositiveFactor(g: real, d: real)
    requires d > 0.0
    ensures g * d > 0.0 ==> g > 0.0
    ensures g * d >= 0.0 ==> g >= 0.0
  {
  }

  /**
   * The conversion (int) x of a C double: the fractional part is discarded,
   * that is, the value is truncated toward zero.
   */
  function Trunc(x: real): (r: int)
    ensures 0.0 <= x ==> 0 <= r && r as real <= x < r as real + 1.0
    ensures x < 0.0 ==> r <= 0 && r as real - 1.0 < x <= r as real
  {
    if x >= 0.0 then x.Floor else -((-x).Floor)
  }

  /** `n >> 7` of a C int, an arithmetic shift: division by 128 rounded down. */
  function ShiftRight7(n: int): int
  {
    n / 128
  }

  /** `n & 0x7f` of a C int in two's complement: the low seven bits. */
  function Low7(n: int): int
  {
    n % 128
  }

  /** The two halves put back together give the original 14-bit value, and each fits a 7-bit data byte. */
  lemma SplitFourteenBits(n: int)
    requires 0 <= n < 0x4000
    ensures 0 <= ShiftRight7(n) < 128 && 0 <= Low7(n) < 128
    ensures ShiftRight7(n) * 128 + Low7(n) == n
  {
  }

  /**
   * What the model assumes of log(x)/log(2.0): it sends 1 to 0 and 2 to 1 and
   * is strictly increasing on the positive reals.
   */
  ghost predicate IsLog2(lg: real -> real)
  {
    && lg(1.0) == 0.0
    && lg(2.0) == 1.0
    && forall x: real, y: real :: 0.0 < x < y ==> lg(x) < lg(y)
  }

  /** A ratio inside one octave has a logarithm in [0, 1). */
  lemma Log2WithinOctave(lg: real -> real, x: real)
    requires IsLog2(lg)
    requires 1.0 <= x < 2.0
    ensures 0.0 <= lg(x) < 1.0
  {
    assert lg(x) < lg(2.0);
    if x > 1.0 {
      assert lg(1.0) < lg(x);
    }
  }
}
