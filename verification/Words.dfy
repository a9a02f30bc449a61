/** Machine words and the outcome types shared by every component. */
module Words {

  const U16_MAX := 0xFFFF
  const U32_MAX := 0xFFFF_FFFF
  const U64_MAX := 0xFFFF_FFFF_FFFF_FFFF

  type u8 = x: int | 0 <= x <= 0xFF
  type u16 = x: int | 0 <= x <= U16_MAX
  type u32 = x: int | 0 <= x <= U32_MAX
  type u64 = x: int | 0 <= x <= U64_MAX

  /** Peers are only told apart. */
  type PeerId = nat

  datatype Option<+T> = None | Some(value: T)

  datatype Result<+T, +E> = Ok(value: T) | Err(error: E)

  function Max64(a: u64, b: u64): u64 { if a < b then b else a }

  /** `a + b` on `u64` in a build without overflow checks. */
  function WrapAdd64(a: u64, b: u64): u64 {
    (a + b) % (U64_MAX + 1)
  }

  /** `n as u32`, which drops the high bits. */
  function Truncate32(n: nat): u32 {
    n % (U32_MAX + 1)
  }
}
