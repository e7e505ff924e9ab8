/**
 * The fixed-width integer types of the modelled code and the Rust `as`
 * casts between them, which keep the low bits (two's complement).
 */
module Ints {

  type U8 = x: int | 0 <= x < 0x100
  type U16 = x: int | 0 <= x < 0x1_0000
  type I32 = x: int | -0x8000_0000 <= x < 0x8000_0000

  /** `x as u16` for any integer `x`. */
  function AsU16(x: int): (r: U16)
    ensures 0 <= x < 0x1_0000 ==> r == x
    ensures (r - x) % 0x1_0000 == 0
  {
    x % 0x1_0000
  }

  /** `a + b` on two `u16` values in a release build (wrap-around). */
  function WrappingAddU16(a: U16, b: U16): (r: U16)
    ensures a + b < 0x1_0000 ==> r == a + b
    ensures a + b >= 0x1_0000 ==> r == a + b - 0x1_0000
  {
    (a + b) % 0x1_0000
  }

  /** `x as i32` for any integer `x` (an `i64` in the source). */
  function AsI32(x: int): (r: I32)
    ensures -0x8000_0000 <= x < 0x8000_0000 ==> r == x
    ensures (r - x) % 0x1_0000_0000 == 0
  {
    (x + 0x8000_0000) % 0x1_0000_0000 - 0x8000_0000
  }

  predicate InI32(x: int) {
    -0x8000_0000 <= x < 0x8000_0000
  }
}
