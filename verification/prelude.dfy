/** Value types shared by every module: an optional value, bytes, and the
    64-bit integer conversions of the source language. */
module Prelude {

  /** A possibly absent value; `None` models a Go nil pointer, map or interface. */
  datatype Option<+T> = None | Some(value: T)

  newtype byte = x: int | 0 <= x < 0x100

  newtype uint64 = x: int | 0 <= x < 0x1_0000_0000_0000_0000

  const TwoTo63: int := 0x8000_0000_0000_0000
  const TwoTo64: int := 0x1_0000_0000_0000_0000

  /** Go's conversion `int64(v)` for any integer operand: the unique value of
      the signed 64-bit range that is congruent to `v` modulo 2^64. */
  function Int64Of(v: int): (r: int)
    ensures -TwoTo63 <= r < TwoTo63
    ensures (v - r) % TwoTo64 == 0
  {
    var m := v % TwoTo64;
    if m < TwoTo63 then m else m - TwoTo64
  }

  /** Widening a value that already fits the signed 64-bit range is the identity
      (every signed kind, and every unsigned value below 2^63). */
  lemma Int64OfInRange(v: int)
    requires -TwoTo63 <= v < TwoTo63
    ensures Int64Of(v) == v
  {
  }

  /** A uint64 value at or above 2^63 wraps to a negative int64. */
  lemma Int64OfWrapsHighUint64(v: int)
    requires TwoTo63 <= v < TwoTo64
    ensures Int64Of(v) == v - TwoTo64
    ensures Int64Of(v) < 0
  {
  }

  /** The wrap loses nothing on the unsigned 64-bit range: distinct uint64
      values stay distinct. */
  lemma Int64OfInjectiveOnUint64(a: int, b: int)
    requires 0 <= a < TwoTo64 && 0 <= b < TwoTo64
    requires Int64Of(a) == Int64Of(b)
    ensures a == b
  {
  }
}
