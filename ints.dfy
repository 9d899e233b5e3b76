/** Fixed-width unsigned integers of the Rust source, as bounded subsets of `int`. */
module Ints {
  const U8_LIMIT: int := 0x100
  const U16_LIMIT: int := 0x1_0000
  const U32_LIMIT: int := 0x1_0000_0000
  const U64_LIMIT: int := 0x1_0000_0000_0000_0000

  type uint8 = x: int | 0 <= x < U8_LIMIT
  type uint16 = x: int | 0 <= x < U16_LIMIT
  type uint32 = x: int | 0 <= x < U32_LIMIT
  type uint64 = x: int | 0 <= x < U64_LIMIT
}
