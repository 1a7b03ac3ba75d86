/** Fixed-width unsigned integers and the wrapping operations the modelled code uses. */
module Machine {
  type u8 = x: int | 0 <= x < 0x100
  type u16 = x: int | 0 <= x < 0x1_0000
  type u32 = x: int | 0 <= x < 0x1_0000_0000

  datatype Option<+T> = None | Some(value: T)

  /** a - b in 16 bits: how far a lies ahead of b on the circle of 2^16 numbers. */
  function Sub16(a: u16, b: u16): u16
  {
    if a >= b then a - b else a - b + 0x1_0000
  }

  /** a + k in 16 bits. */
  function Add16(a: u16, k: nat): u16
    requires k <= 0x1_0000
  {
    if a + k >= 0x1_0000 then a + k - 0x1_0000 else a + k
  }

  /** The 16-bit test `x & 0x8000 == 0`: read as a difference, x is not negative. */
  predicate Forward16(x: u16) {
    x < 0x8000
  }
}
