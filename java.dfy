/** Java value semantics the drawable relies on: 32-bit two's-complement `int`
    arithmetic, truncating division, and nullable references. */
module Java {

  const MIN_INT: int := -0x8000_0000
  const MAX_INT: int := 0x7fff_ffff
  const TWO_TO_32: int := 0x1_0000_0000

  /** A Java `int`. */
  type Int32 = x: int | -0x8000_0000 <= x <= 0x7fff_ffff

  /** A reference that may be `null`, such as a Java `String`. */
  datatype Nullable<T> = Null | NonNull(value: T)

  predicate InRange(x: int) {
    MIN_INT <= x <= MAX_INT
  }

  /** Two's-complement narrowing to a Java `int` of a value less than 2^32
      away from the `int` range, as every sum or difference of two `int`s is:
      the `int` that differs from `x` by a multiple of 2^32. */
  function Wrap(x: int): (r: Int32)
    requires -TWO_TO_32 <= x < TWO_TO_32
  {
    if x > MAX_INT then x - TWO_TO_32 else if x < MIN_INT then x + TWO_TO_32 else x
  }

  /** Java `a + b` on `int`. */
  function Add(a: Int32, b: Int32): Int32 {
    Wrap(a + b)
  }

  /** Java `a - b` on `int`. */
  function Sub(a: Int32, b: Int32): Int32 {
    Wrap(a - b)
  }

  /** Java `Math.min(a, b)` on `int`. */
  function Min(a: Int32, b: Int32): (m: Int32)
  {
    if a <= b then a else b
  }

  /** Java `a / 2` on `int`: the quotient truncates toward zero, so the
      remainder has the sign of `a` (Dafny's own `/` floors instead). */
  function Quot2(a: Int32): (q: Int32)
  {
    if a >= 0 then a / 2 else -((-(a as int)) / 2)
  }

  /** Narrowing changes a value by a multiple of 2^32 and leaves the values
      already in range alone. */
  lemma WrapIsModular(x: int)
    requires -TWO_TO_32 <= x < TWO_TO_32
    ensures (Wrap(x) - x) % TWO_TO_32 == 0
    ensures InRange(x) <==> Wrap(x) == x
  {
  }

  /** Java's halving rounds toward zero: the remainder has the sign of the
      dividend, and halving commutes with negation. */
  lemma Quot2TruncatesTowardZero(a: Int32)
    ensures 0 <= a ==> 0 <= a - 2 * Quot2(a) <= 1
    ensures a < 0 ==> -1 <= a - 2 * Quot2(a) <= 0
    ensures MIN_INT < a ==> Quot2(-a as Int32) == -Quot2(a)
  {
  }
}
