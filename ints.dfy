/** Fixed-width unsigned integers of the C++ sources, as ranges of the unbounded `int`. */
module Ints {
  const TWO_8: int := 0x100
  const TWO_16: int := 0x1_0000
  const TWO_32: int := 0x1_0000_0000
  const TWO_64: int := 0x1_0000_0000_0000_0000

  /** uint32(-1) and uint64(-1), used throughout the framework as "invalid". */
  const U32_MAX: int := TWO_32 - 1
  const U64_MAX: int := TWO_64 - 1

  type u8 = x: int | 0 <= x < TWO_8
  type u16 = x: int | 0 <= x < TWO_16
  type u32 = x: int | 0 <= x < TWO_32
  type u64 = x: int | 0 <= x < TWO_64
  const I32_MIN: int := -0x8000_0000
  const I32_MAX: int := 0x7FFF_FFFF
  type i32 = x: int | I32_MIN <= x <= I32_MAX

  /** Truncating conversion to 32 bits (C++ `uint32(v)` and wrap-around of uint32 arithmetic). */
  function Wrap32(v: int): (r: u32)
    ensures 0 <= v < TWO_32 ==> r == v
  {
    v % TWO_32
  }

  /** Truncating conversion to 64 bits (wrap-around of uint64 arithmetic). */
  function Wrap64(v: int): (r: u64)
    ensures 0 <= v < TWO_64 ==> r == v
  {
    v % TWO_64
  }

  /** Truncating conversion to 16 bits (C++ `uint16(v)`). */
  function Wrap16(v: int): (r: u16)
    ensures 0 <= v < TWO_16 ==> r == v
  {
    v % TWO_16
  }

  /** Reinterpreting 32 bits as two's-complement (C++ `int32(u)` for a `uint32` value). */
  function AsSigned32(v: u32): (r: i32)
    ensures Wrap32(r) == v
    ensures v < 0x8000_0000 ==> r == v
  {
    if v < 0x8000_0000 then v else v - TWO_32
  }
}
