/** Fixed-width integer ranges and the truncating `as i32` conversion. */
module Numeric {

  const I32_MIN: int := -0x8000_0000
  const I32_MAX: int := 0x7fff_ffff
  const I64_MIN: int := -0x8000_0000_0000_0000
  const I64_MAX: int := 0x7fff_ffff_ffff_ffff

  /** 2^32, the modulus of a 32-bit two's-complement integer. */
  const TWO_POW_32: int := 0x1_0000_0000

  predicate InI32(x: int) {
    I32_MIN <= x <= I32_MAX
  }

  predicate InI64(x: int) {
    I64_MIN <= x <= I64_MAX
  }

  /**
   * Rust's `x as i32` on an integer: keep the low 32 bits and read them as
   * two's complement. The result is the one i32 value congruent to `x`
   * modulo 2^32.
   */
  function AsI32(x: int): (r: int)
    ensures InI32(r)
    ensures (x - r) % TWO_POW_32 == 0
  {
    (x - I32_MIN) % TWO_POW_32 + I32_MIN
  }

  /** A value that already fits in an i32 survives the cast unchanged. */
  lemma AsI32OfI32(x: int)
    requires InI32(x)
    ensures AsI32(x) == x
  {
    assert 0 <= x - I32_MIN < TWO_POW_32;
  }

  /** The cast only depends on `x` modulo 2^32. */
  lemma AsI32Periodic(x: int, k: int)
    ensures AsI32(x + k * TWO_POW_32) == AsI32(x)
  {
    var a, b := AsI32(x + k * TWO_POW_32), AsI32(x);
    assert (a - b) % TWO_POW_32 == 0 by {
      assert a - b == (x + k * TWO_POW_32 - b) - (x + k * TWO_POW_32 - a);
    }
    assert -TWO_POW_32 < a - b < TWO_POW_32;
  }
}
