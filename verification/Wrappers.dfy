// Option and the saturating 64-bit arithmetic of the Rust sources.
module Wrappers {
  datatype Option<+T> = None | Some(value: T) {
    function GetOr(default: T): T {
      if Some? then value else default
    }
  }
}

module U64 {
  const MAX: int := 0xFFFF_FFFF_FFFF_FFFF
  const U32_MAX: int := 0xFFFF_FFFF

  type u64 = x: int | 0 <= x <= MAX witness 0

  function Min(a: int, b: int): int {
    if a <= b then a else b
  }

  function Max(a: int, b: int): int {
    if a >= b then a else b
  }

  function SaturatingSub(a: u64, b: u64): u64 {
    Max(a - b, 0)
  }

  function SaturatingAdd(a: u64, b: u64): u64 {
    Min(a + b, MAX)
  }

  function SaturatingMul(a: u64, b: u64): u64 {
    if a * b > MAX then MAX else
      assert 0 <= a * b by { if a > 0 && b > 0 { } }
      a * b
  }
}
