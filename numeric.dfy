/**
 * Rust's float primitives used by `to_dms`, over exact reals: `f64::trunc`
 * and the saturating casts `as i32` and `as u32`.
 */
module Numeric {

  newtype int32 = x: int | -0x8000_0000 <= x < 0x8000_0000
  newtype uint32 = x: int | 0 <= x < 0x1_0000_0000

  const MinI32: int := -0x8000_0000
  const MaxI32: int := 0x7FFF_FFFF
  const MaxU32: int := 0xFFFF_FFFF

  /** `x.trunc()`: the integer part of `x`, rounding toward zero. */
  function Trunc(x: real): (r: int)
    ensures 0.0 <= x ==> 0 <= r && r as real <= x < r as real + 1.0
    ensures x < 0.0 ==> r <= 0 && r as real - 1.0 < x <= r as real
  {
    if 0.0 <= x then x.Floor else -((-x).Floor)
  }

  /** `x as i32`: truncates toward zero, then clamps to the range of `i32`. */
  function SaturateI32(x: real): (r: int32)
    ensures MinI32 <= Trunc(x) <= MaxI32 ==> r as int == Trunc(x)
    ensures Trunc(x) < MinI32 ==> r as int == MinI32
    ensures MaxI32 < Trunc(x) ==> r as int == MaxI32
  {
    var t := Trunc(x);
    if t < MinI32 then MinI32 as int32
    else if MaxI32 < t then MaxI32 as int32
    else t as int32
  }

  /** `x as u32`: truncates toward zero, then clamps to the range of `u32`; negatives become 0. */
  function SaturateU32(x: real): (r: uint32)
    ensures 0 <= Trunc(x) <= MaxU32 ==> r as int == Trunc(x)
    ensures x <= 0.0 ==> r == 0
    ensures MaxU32 < Trunc(x) ==> r as int == MaxU32
  {
    var t := Trunc(x);
    if t < 0 then 0
    else if MaxU32 < t then MaxU32 as uint32
    else t as uint32
  }

  /** The magnitude of `x`. */
  function Abs(x: real): (r: real)
    ensures 0.0 <= r && (r == x || r == -x)
  {
    if x < 0.0 then -x else x
  }

  /** Truncating a whole number gives it back. */
  lemma TruncOfInteger(k: int)
    ensures Trunc(k as real) == k
  {
  }
}
