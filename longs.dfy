/** Java's 64-bit `long`, as far as the model needs it: the range, and the
    wrap-around of `AtomicLong.incrementAndGet`. */
module Longs {

  const LONG_MIN: int := -0x8000_0000_0000_0000
  const LONG_MAX: int := 0x7FFF_FFFF_FFFF_FFFF

  type Long = x: int | LONG_MIN <= x <= LONG_MAX

  /** Two's-complement increment: `Long.MAX_VALUE + 1` is `Long.MIN_VALUE`. */
  function IncrementAndGet(v: Long): (r: Long)
    ensures v < LONG_MAX ==> r == v + 1
    ensures v == LONG_MAX ==> r == LONG_MIN
  {
    if v == LONG_MAX then LONG_MIN else v + 1
  }
}
