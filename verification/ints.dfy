/** Fixed-width integers of the program, as ranges over the unbounded `int`. */
module Ints {

  const TWO_32: int := 0x1_0000_0000
  const TWO_31: int := 0x8000_0000
  const TWO_64: int := 0x1_0000_0000_0000_0000

  type U8 = x: int | 0 <= x < 0x100
  type U64 = x: int | 0 <= x < 0x1_0000_0000_0000_0000
  type I32 = x: int | -0x8000_0000 <= x < 0x8000_0000
  type I64 = x: int | -0x8000_0000_0000_0000 <= x < 0x8000_0000_0000_0000

  /** Rust's `v as i32` on an `i64`: keep the low 32 bits and read them as
      two's complement. The result is the unique `i32` congruent to `v`
      modulo 2^32, so values already in range are kept. */
  function WrapI32(v: I64): (r: I32)
    ensures (r - v) % TWO_32 == 0
    ensures -TWO_31 <= v < TWO_31 ==> r == v
  {
    (v + TWO_31) % TWO_32 - TWO_31
  }

  /** `WrapI32` is the only congruent choice: two `i32` values that agree
      modulo 2^32 are equal. */
  lemma WrapI32Unique(v: I64, r: I32)
    requires (r - v) % TWO_32 == 0
    ensures r == WrapI32(v)
  {
    var w := WrapI32(v);
    assert (r - w) % TWO_32 == 0 by {
      assert r - w == (r - v) - (w - v);
    }
    assert -TWO_32 < r - w < TWO_32;
  }

  /** Rust's `a - b` on `u64` with overflow checks off, as in a release
      build: the difference modulo 2^64. It is the true difference when
      `b <= a` and wraps around otherwise. */
  function WrapSubU64(a: U64, b: U64): (r: U64)
    ensures (r - (a - b)) % TWO_64 == 0
    ensures b <= a ==> r == a - b
    ensures a < b ==> r == a - b + TWO_64
  {
    (a - b) % TWO_64
  }
}
