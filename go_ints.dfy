/** Go's fixed-width integers and the wrapping conversions between them. */
module GoInts {

  newtype int32 = x: int | -0x8000_0000 <= x < 0x8000_0000
  newtype int64 = x: int | -0x8000_0000_0000_0000 <= x < 0x8000_0000_0000_0000

  /** Go's conversion `int32(x)`: keeps the low 32 bits of `x`, read in two's complement. */
  function WrapInt32(x: int): (r: int32)
    ensures (r as int - x) % 0x1_0000_0000 == 0
  {
    var low := (x + 0x8000_0000) % 0x1_0000_0000;
    assert x + 0x8000_0000 == 0x1_0000_0000 * ((x + 0x8000_0000) / 0x1_0000_0000) + low;
    (low - 0x8000_0000) as int32
  }

  /** Go's 64-bit arithmetic: the low 64 bits of `x`, read in two's complement. */
  function WrapInt64(x: int): (r: int64)
    ensures (r as int - x) % 0x1_0000_0000_0000_0000 == 0
  {
    var low := (x + 0x8000_0000_0000_0000) % 0x1_0000_0000_0000_0000;
    assert x + 0x8000_0000_0000_0000 == 0x1_0000_0000_0000_0000 * ((x + 0x8000_0000_0000_0000) / 0x1_0000_0000_0000_0000) + low;
    (low - 0x8000_0000_0000_0000) as int64
  }

  /** A value that already fits in 32 bits crosses `int32(...)` unchanged. */
  lemma WrapInt32Fits(x: int)
    requires -0x8000_0000 <= x < 0x8000_0000
    ensures WrapInt32(x) as int == x
  {
  }

  /** A value that fits in 64 bits is unchanged by 64-bit wrap-around. */
  lemma WrapInt64Fits(x: int)
    requires -0x8000_0000_0000_0000 <= x < 0x8000_0000_0000_0000
    ensures WrapInt64(x) as int == x
  {
  }

  /** Two's-complement conversion to 32 bits is the identity exactly on the 32-bit range:
      any value outside it comes back changed. */
  lemma WrapInt32ChangesOutOfRange(x: int)
    requires x < -0x8000_0000 || 0x8000_0000 <= x
    ensures WrapInt32(x) as int != x
  {
  }
}
