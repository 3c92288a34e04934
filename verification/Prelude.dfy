/** Small shared vocabulary: optional values, machine-integer bounds and `min`. */
module Prelude {

  datatype Option<+T> = None | Some(value: T)

  const U32_MAX: nat := 0xFFFF_FFFF
  const U64_SPAN: nat := 0x1_0000_0000_0000_0000
  const U128_SPAN: nat := 0x1_0000_0000_0000_0000_0000_0000_0000_0000

  type U32 = n: nat | n <= U32_MAX

  function Min(a: nat, b: nat): nat {
    if a <= b then a else b
  }

  /** `u32::saturating_add(1)`. */
  function SaturatingInc(n: nat): nat {
    if n < U32_MAX then n + 1 else U32_MAX
  }

  function One(b: bool): nat {
    if b then 1 else 0
  }
}
