/**
 * The integer helpers of the firmware: `Abs` on the 16-bit `int` of the AVR
 * compiler (Definitions.cpp), and the byte of a value below 256.
 */
module Definitions {

  /** Bounds of a 16-bit two's-complement `int`. */
  const IntMin: int := -32768
  const IntMax: int := 32767

  type Int16 = x: int | IntMin <= x <= IntMax

  /**
   * `Abs(x)`: negates a negative argument as `0 - x`. For `x == INT_MIN` the
   * negation overflows a 16-bit `int` (undefined in C), so that argument is excluded.
   */
  function Abs(x: Int16): (r: Int16)
    requires x != IntMin
    ensures r >= 0
    ensures r == x || r == -x
  {
    if x < 0 then 0 - x else x
  }

  /** A non-negative argument is returned as it is. */
  lemma AbsOfNonNegative(x: Int16)
    requires x >= 0
    ensures Abs(x) == x
  {
  }

  /** A negative argument (other than INT_MIN) comes back negated. */
  lemma AbsOfNegative(x: Int16)
    requires IntMin < x < 0
    ensures Abs(x) == 0 - x
  {
  }

  /** `Abs` is idempotent and does not see the sign of its argument. */
  lemma AbsIdempotentAndEven(x: Int16)
    requires x != IntMin
    ensures Abs(Abs(x)) == Abs(x)
    ensures Abs(-x) == Abs(x)
  {
  }

  /**
   * What 16-bit wrap-around makes of `0 - x`: the one argument the
   * precondition of `Abs` excludes is the one whose negation is negative.
   */
  function Wrap16(x: int): (r: Int16)
    ensures (r - x) % 65536 == 0
  {
    (x + 32768) % 65536 - 32768
  }

  lemma NegationOverflowsOnlyAtIntMin(x: Int16)
    ensures Wrap16(0 - x) < 0 <==> x > 0 || x == IntMin
  {
  }

  /**
   * The byte whose value is `n`, counting up from `from`. Counting keeps the
   * conversion from integer to byte out of the proofs that use it.
   */
  function ByteFrom(n: int, from: bv8): (b: bv8)
    requires from as int <= n < 256
    ensures b as int == n
    decreases n - from as int
  {
    if from as int == n then from else ByteFrom(n, from + 1)
  }

  /** The byte of a value below 256. */
  function ToByte(n: int): (b: bv8)
    requires 0 <= n < 256
    ensures b as int == n
  {
    ByteFrom(n, 0)
  }
}
