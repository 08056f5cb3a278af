/** C#'s 32-bit `int` and its unchecked increment. */
module Int32 {

  const MinValue: int := -0x8000_0000
  const MaxValue: int := 0x7fff_ffff

  newtype int32 = x: int | -0x8000_0000 <= x < 0x8000_0000

  /** `++x` in an unchecked context: one more, except that `int.MaxValue` wraps to `int.MinValue`. */
  function Increment(x: int32): (r: int32)
    ensures x as int < MaxValue ==> r as int == x as int + 1
    ensures x as int == MaxValue ==> r as int == MinValue
    ensures (r as int - x as int - 1) % 0x1_0000_0000 == 0
  {
    if x == 0x7fff_ffff then -0x8000_0000 else x + 1
  }
}
