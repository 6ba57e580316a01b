/** Shared value types: fixed-width integers and the Option/Result wrappers. */
module Common {

  /** An unsigned 8-bit integer (Rust `u8`). */
  type u8 = x: int | 0 <= x < 0x100

  /** An unsigned 16-bit integer (Rust `u16`), used for input event types and key codes. */
  type u16 = x: int | 0 <= x < 0x1_0000

  datatype Option<+T> = None | Some(value: T)

  datatype Result<+T, +E> = Ok(value: T) | Err(error: E)

  function Min(a: int, b: int): int { if a <= b then a else b }

  function Max(a: int, b: int): int { if a >= b then a else b }

  /** Rust `u8::saturating_add`. */
  function SaturatingAddU8(a: u8, b: u8): (r: u8)
    ensures r == Min(a + b, 0xFF)
  {
    if a + b > 0xFF then 0xFF else a + b
  }

  /** Rust `u8::saturating_sub`. */
  function SaturatingSubU8(a: u8, b: u8): (r: u8)
    ensures r == Max(a - b, 0)
  {
    if a < b then 0 else a - b
  }

  /** 2 to the power i. */
  function Pow2(i: nat): (r: nat)
    ensures r >= 1
  {
    if i == 0 then 1 else 2 * Pow2(i - 1)
  }
}
