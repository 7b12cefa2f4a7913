/** The fixed-width integer types of Java that the weather code relies on:
    `int` (32-bit, wrapping on overflow) and the `long` range of `Math.round`. */
module JavaNumbers {

  const MinInt: int := -0x8000_0000
  const MaxInt: int := 0x7FFF_FFFF

  const MinLong: int := -0x8000_0000_0000_0000
  const MaxLong: int := 0x7FFF_FFFF_FFFF_FFFF

  /** A value of Java's `int` type. */
  type Int32 = x: int | MinInt <= x <= MaxInt

  /** Java's `int` addition: the exact sum reduced modulo 2^32 into the signed range. */
  function AddInt32(a: Int32, b: Int32): (r: Int32)
    ensures MinInt <= a + b <= MaxInt ==> r == a + b
    ensures a + b > MaxInt ==> r == a + b - 0x1_0000_0000
    ensures a + b < MinInt ==> r == a + b + 0x1_0000_0000
  {
    (a + b - MinInt) % 0x1_0000_0000 + MinInt
  }

  /** `max + 1` is one more than `max` except at Integer.MAX_VALUE, where it wraps
      to Integer.MIN_VALUE, which no `int` lies below. */
  lemma IncrementWraps(max: Int32, x: Int32)
    ensures max < MaxInt ==> AddInt32(max, 1) == max + 1
    ensures max == MaxInt ==> AddInt32(max, 1) == MinInt
    ensures x < AddInt32(max, 1) <==> x <= max && max < MaxInt
  {
  }
}
