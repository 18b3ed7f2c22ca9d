/** Shared value types: the optional value and the fixed-width integer
    conversions the firmware relies on (Rust's `as` casts and wrapping
    arithmetic on u8, u16, u32 and their signed counterparts). */
module Wrappers {

  datatype Option<T> = None | Some(value: T) {
    function GetOr(default: T): T {
      match this
      case Some(v) => v
      case None => default
    }
  }

  const U8_LIMIT: nat := 0x100
  const U16_LIMIT: nat := 0x1_0000
  const U32_LIMIT: nat := 0x1_0000_0000

  /** `x as u8`, or the result of wrapping u8 arithmetic. */
  function WrapU8(x: int): (r: nat)
    ensures r < U8_LIMIT && (r - x) % U8_LIMIT == 0
    ensures 0 <= x < U8_LIMIT ==> r == x
  {
    x % U8_LIMIT
  }

  /** `x as u16`, or the result of wrapping u16 arithmetic. */
  function WrapU16(x: int): (r: nat)
    ensures r < U16_LIMIT && (r - x) % U16_LIMIT == 0
    ensures 0 <= x < U16_LIMIT ==> r == x
  {
    x % U16_LIMIT
  }

  /** `x as u32`, or the result of wrapping u32 arithmetic. */
  function WrapU32(x: int): (r: nat)
    ensures r < U32_LIMIT && (r - x) % U32_LIMIT == 0
    ensures 0 <= x < U32_LIMIT ==> r == x
  {
    x % U32_LIMIT
  }

  /** `x as i8`: keep the low 8 bits and read them as two's complement. */
  function WrapI8(x: int): (r: int)
    ensures -0x80 <= r < 0x80 && (r - x) % U8_LIMIT == 0
    ensures -0x80 <= x < 0x80 ==> r == x
  {
    var u := x % U8_LIMIT;
    if u < 0x80 then u else u - U8_LIMIT
  }

  /** `x as i16`: keep the low 16 bits and read them as two's complement. */
  function WrapI16(x: int): (r: int)
    ensures -0x8000 <= r < 0x8000 && (r - x) % U16_LIMIT == 0
    ensures -0x8000 <= x < 0x8000 ==> r == x
  {
    var u := x % U16_LIMIT;
    if u < 0x8000 then u else u - U16_LIMIT
  }

  /** `x as i32`: keep the low 32 bits and read them as two's complement. */
  function WrapI32(x: int): (r: int)
    ensures -0x8000_0000 <= r < 0x8000_0000 && (r - x) % U32_LIMIT == 0
    ensures -0x8000_0000 <= x < 0x8000_0000 ==> r == x
  {
    var u := x % U32_LIMIT;
    if u < 0x8000_0000 then u else u - U32_LIMIT
  }
}
