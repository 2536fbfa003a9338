/** Fixed-width integer types of the C++ code, written out as bounded
    subsets of `int` so that every wrap-around is explicit. */
module Types {

  const TwoTo32: int := 0x1_0000_0000
  const TwoTo64: int := 0x1_0000_0000_0000_0000

  /** `short`: the type of one ADC sample. */
  type Int16 = x: int | -0x8000 <= x < 0x8000

  /** `unsigned`: configuration counts and `raw::ChannelID_t`. */
  type UInt32 = x: int | 0 <= x < TwoTo32

  /** `size_t` on a 64-bit build. */
  type SizeT = x: int | 0 <= x < TwoTo64

  /** `a - b` on `unsigned` operands: the difference modulo 2^32. */
  function SubU32(a: UInt32, b: UInt32): (r: UInt32)
    ensures (r + b) % TwoTo32 == a
    ensures a >= b ==> r == a - b
  {
    (a - b) % TwoTo32
  }

  /** The implicit conversion of a `size_t` to an `unsigned`: keeps the low 32 bits. */
  function NarrowToU32(x: SizeT): (r: UInt32)
    ensures x < TwoTo32 ==> r == x
    ensures (x - r) % TwoTo32 == 0
  {
    x % TwoTo32
  }
}
