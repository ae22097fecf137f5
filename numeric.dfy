/** Fixed-width integer types of the host runtime and the casts between them. */
module Numeric {

  const TWO_16: int := 0x1_0000
  const TWO_32: int := 0x1_0000_0000
  const TWO_64: int := 0x1_0000_0000_0000_0000

  type byte = x: int | 0 <= x < 0x100
  type int16 = x: int | -0x8000 <= x < 0x8000
  type uint16 = x: int | 0 <= x < 0x1_0000
  type int32 = x: int | -0x8000_0000 <= x < 0x8000_0000
  type uint32 = x: int | 0 <= x < 0x1_0000_0000
  type uint64 = x: int | 0 <= x < 0x1_0000_0000_0000_0000

  /** The C# cast `(uint)v` of a signed value: two's-complement reinterpretation modulo 2^32. */
  function ToUInt32(v: int): (r: uint32)
    ensures r % TWO_32 == v % TWO_32
  {
    v % TWO_32
  }

  /** The unchecked C# cast `(int)u` of an unsigned 32-bit value. */
  function ToInt32(u: uint32): (r: int32)
    ensures r % TWO_32 == u
    ensures u < 0x8000_0000 ==> r == u
  {
    if u < 0x8000_0000 then u else u - TWO_32
  }

  /** The C# cast `(ulong)v` of a signed value. */
  function ToUInt64(v: int): (r: uint64)
    ensures r % TWO_64 == v % TWO_64
    ensures 0 <= v < TWO_64 ==> r == v
  {
    v % TWO_64
  }

  /** Storing a `short` as `uint` and reading it back as `int` gives back the short. */
  lemma Int16ThroughUInt32(v: int16)
    ensures ToInt32(ToUInt32(v)) == v
  {
    if v < 0 {
      assert ToUInt32(v) == v + TWO_32;
    }
  }
}
