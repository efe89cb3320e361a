/**
 * Rust's fixed-width integers and its float-to-integer casts. `as` from f64 truncates
 * toward zero and saturates at the bounds of the target type (NaN becomes 0); integer
 * addition in a release build wraps around.
 */
module Casts {
  type U8 = n: int | 0 <= n < 0x100
  type U32 = n: int | 0 <= n < 0x1_0000_0000
  type I32 = n: int | -0x8000_0000 <= n < 0x8000_0000

  const U8Max: U8 := 0xFF
  const U32Max: U32 := 0xFFFF_FFFF
  const I32Min: I32 := -0x8000_0000
  const I32Max: I32 := 0x7FFF_FFFF

  /** `x as u8`: the integer part of `x`, saturated to `0..=255`. */
  function F64ToU8(x: real): (r: U8)
    ensures x <= 0.0 ==> r == 0
    ensures x >= U8Max as real ==> r == U8Max
    ensures 0.0 <= x < U8Max as real ==> r as real <= x < r as real + 1.0
  {
    if x <= 0.0 then 0 else if x >= U8Max as real then U8Max else x.Floor
  }

  /** `x as u32`: the integer part of `x`, saturated to `0..=u32::MAX`. */
  function F64ToU32(x: real): (r: U32)
    ensures x <= 0.0 ==> r == 0
    ensures x >= U32Max as real ==> r == U32Max
    ensures 0.0 <= x < U32Max as real ==> r as real <= x < r as real + 1.0
  {
    if x <= 0.0 then 0 else if x >= U32Max as real then U32Max else x.Floor
  }

  /** `x.round() as u32`: round half away from zero, then saturate. */
  function RoundF64ToU32(x: real): (r: U32)
    ensures x <= 0.0 ==> r == 0
    ensures 0.0 <= x < U32Max as real ==> x - 0.5 < r as real <= x + 0.5
  {
    if x <= 0.0 then 0 else F64ToU32((x + 0.5).Floor as real)
  }

  /** `x as i32` for an integral value: saturate to the i32 range. */
  function SaturateI32(n: int): (r: I32)
    ensures I32Min <= n <= I32Max ==> r == n
    ensures n < I32Min ==> r == I32Min
    ensures n > I32Max ==> r == I32Max
  {
    if n < I32Min then I32Min else if n > I32Max then I32Max else n
  }

  /** i32 addition with two's complement wrap-around. */
  function WrapI32(n: int): (r: I32)
    ensures (r - n) % 0x1_0000_0000 == 0
  {
    (n + 0x8000_0000) % 0x1_0000_0000 - 0x8000_0000
  }

  /** Wrap-around moves a sum by a multiple of 2^32, so its parity is kept. */
  lemma WrapI32KeepsParity(n: int)
    ensures WrapI32(n) % 2 == n % 2
  {
    var m := n + 0x8000_0000;
    var q := m / 0x1_0000_0000;
    assert m % 0x1_0000_0000 == m - q * 0x1_0000_0000;
    var j := -q * 0x8000_0000;
    assert WrapI32(n) == n + 2 * j;
    ParityShift(n, j);
  }

  lemma ParityShift(n: int, j: int)
    ensures (n + 2 * j) % 2 == n % 2
  {
  }
}
