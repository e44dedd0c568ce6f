/** Fixed-width unsigned integers of the Rust source, as subset types of nat.
    Wrap-around is written out where the source relies on it. */
module Ints {

  const U16_LIMIT: nat := 0x1_0000
  const U32_LIMIT: nat := 0x1_0000_0000
  const U64_LIMIT: nat := 0x1_0000_0000_0000_0000

  type u8 = x: nat | x < 0x100
  type u16 = x: nat | x < U16_LIMIT
  type u32 = x: nat | x < U32_LIMIT
  type u64 = x: nat | x < U64_LIMIT

  /** `AtomicU32::fetch_add(1)`: always wraps at u32::MAX. */
  function WrappingIncU32(x: u32): (r: u32)
    ensures x < U32_LIMIT - 1 ==> r == x + 1
    ensures x == U32_LIMIT - 1 ==> r == 0
  {
    (x + 1) % U32_LIMIT
  }

  /** `+= 1` on a u64 in a release build (no overflow checks): wraps at u64::MAX. */
  function WrappingIncU64(x: u64): (r: u64)
    ensures x < U64_LIMIT - 1 ==> r == x + 1
    ensures x == U64_LIMIT - 1 ==> r == 0
  {
    (x + 1) % U64_LIMIT
  }

  /** `a - b` on u64 in a release build: wraps below zero. */
  function WrappingSubU64(a: u64, b: u64): (r: u64)
    ensures b <= a ==> r == a - b
    ensures a < b ==> r == U64_LIMIT + a - b
  {
    (a - b) % U64_LIMIT
  }
}
