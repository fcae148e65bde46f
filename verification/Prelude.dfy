/** Types shared by every module of the model. */
module Prelude {

  datatype Option<+T> = None | Some(value: T) {
    function GetOr(default: T): T {
      match this
      case Some(v) => v
      case None => default
    }
  }

  datatype Result<+T, +E> = Ok(value: T) | Err(error: E)

  const U32_MAX: nat := 0xFFFF_FFFF
  const U64_MAX: nat := 0xFFFF_FFFF_FFFF_FFFF

  type u32 = n: nat | n <= U32_MAX
  type u64 = n: nat | n <= U64_MAX

  function SaturatingSucc(n: u32): u32 {
    if n < U32_MAX then n + 1 else n
  }

  function Min(a: nat, b: nat): nat {
    if a <= b then a else b
  }
}
