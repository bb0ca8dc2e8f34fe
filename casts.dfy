/**
 * The fixed-width integer types of the binding and Rust's `as` casts
 * between them. Dafny integers are unbounded, so every cast that can
 * truncate is written out: keep the low bits and read them back as
 * two's complement (signed targets) or as a plain remainder (unsigned).
 */
module Casts {

  type I8 = x: int | -0x80 <= x < 0x80
  type I16 = x: int | -0x8000 <= x < 0x8000
  type I32 = x: int | -0x8000_0000 <= x < 0x8000_0000
  type I64 = x: int | -0x8000_0000_0000_0000 <= x < 0x8000_0000_0000_0000
  type U32 = x: int | 0 <= x < 0x1_0000_0000

  const I32_MAX: int := 0x7FFF_FFFF

  /** `x as i8`: the unique 8-bit signed value congruent to `x` modulo 2^8. */
  function AsI8(x: int): (r: I8)
    ensures (x - r) % 0x100 == 0
    ensures -0x80 <= x < 0x80 ==> r == x
  {
    var low := x % 0x100;
    if low < 0x80 then low else low - 0x100
  }

  /** `x as i32`: the unique 32-bit signed value congruent to `x` modulo 2^32. */
  function AsI32(x: int): (r: I32)
    ensures (x - r) % 0x1_0000_0000 == 0
    ensures -0x8000_0000 <= x < 0x8000_0000 ==> r == x
  {
    var low := x % 0x1_0000_0000;
    if low < 0x8000_0000 then low else low - 0x1_0000_0000
  }

  /** `x as u32`: the remainder of `x` modulo 2^32. */
  function AsU32(x: int): (r: U32)
    ensures (x - r) % 0x1_0000_0000 == 0
    ensures 0 <= x < 0x1_0000_0000 ==> r == x
  {
    x % 0x1_0000_0000
  }

  /** An 8-bit cast is determined by the residue of its argument modulo 2^8. */
  lemma AsI8OfResidue(x: int)
    ensures AsI8(x % 0x100) == AsI8(x)
    ensures AsI8(x) % 0x100 == x % 0x100
  {
  }
}
