/** Machine integers, and the result types the handlers return. */
module Words {

  const U64_MAX: int := 0xFFFF_FFFF_FFFF_FFFF
  const I128_MAX: int := 0x7FFF_FFFF_FFFF_FFFF_FFFF_FFFF_FFFF_FFFF
  const TWO_64: int := 0x1_0000_0000_0000_0000
  const TWO_128: int := 0x1_0000_0000_0000_0000_0000_0000_0000_0000

  type u64 = n: int | 0 <= n <= 0xFFFF_FFFF_FFFF_FFFF

  /** A Unix timestamp. The runtime's clock is an `i64` that is never negative. */
  type timestamp = n: int | 0 <= n <= 0x7FFF_FFFF_FFFF_FFFF

  datatype Option<+T> = None | Some(value: T)

  function Min(a: int, b: int): int {
    if a <= b then a else b
  }

  function Max(a: int, b: int): int {
    if a <= b then b else a
  }

  /** `u64::saturating_add` */
  function SaturatingAdd(a: u64, b: u64): u64 {
    Min(a + b, U64_MAX)
  }

  /** `u64::saturating_sub` */
  function SaturatingSub(a: u64, b: u64): u64 {
    Max(a - b, 0)
  }
}
