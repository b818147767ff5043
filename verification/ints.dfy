/** Rust's fixed-width integers as ranges of `int`, and the two casts the tool performs. */
module Ints {

  type I64 = x: int | -0x8000_0000_0000_0000 <= x < 0x8000_0000_0000_0000
  type U64 = x: int | 0 <= x < 0x1_0000_0000_0000_0000
  type U8 = x: int | 0 <= x < 0x100

  /** `x as u64` for an `i64`: the same 64 bits read as unsigned. */
  function AsU64(x: I64): (r: U64)
    ensures 0 <= x ==> r == x
    ensures x < 0 ==> r == x + 0x1_0000_0000_0000_0000
  {
    x % 0x1_0000_0000_0000_0000
  }

  /** `x as u8` for an `i64`: the low eight bits, so -1 becomes 255. */
  function AsU8(x: I64): (r: U8)
    ensures (x - r) % 0x100 == 0
    ensures 0 <= x < 0x100 ==> r == x
  {
    x % 0x100
  }
}
