/** Go's 64-bit signed integers: the range of `int64` and the two's-complement
    wrap-around that `++` and `+=` perform on overflow. */
module Int64 {

  const MIN: int := -0x8000_0000_0000_0000
  const MAX: int := 0x7FFF_FFFF_FFFF_FFFF
  const MODULUS: int := 0x1_0000_0000_0000_0000

  newtype int64 = x: int | -0x8000_0000_0000_0000 <= x < 0x8000_0000_0000_0000

  /** The int64 that an unbounded integer truncates to: the unique value in
      range that is congruent to it modulo 2^64. */
  function Wrap(x: int): (r: int64)
    ensures (x - r as int) % MODULUS == 0
    ensures MIN <= x <= MAX ==> r as int == x
  {
    ((x - MIN) % MODULUS + MIN) as int64
  }

  /** Go's `a + b` on int64 operands. */
  function Add(a: int64, b: int64): (r: int64)
    ensures MIN <= a as int + b as int <= MAX ==> r as int == a as int + b as int
    ensures (a as int + b as int - r as int) % MODULUS == 0
  {
    Wrap(a as int + b as int)
  }

  /** Two int64 values that are congruent modulo 2^64 are equal. */
  lemma CongruentEqual(a: int64, b: int64)
    requires (a as int - b as int) % MODULUS == 0
    ensures a == b
  {
  }

  /** Wrapping early and wrapping late agree: a running int64 sum is the
      truncation of the exact sum. */
  lemma WrapThenAdd(x: int, y: int)
    ensures Wrap(Wrap(x) as int + y) == Wrap(x + y)
  {
    var w := Wrap(x) as int;
    var k := (x - w) / MODULUS;
    assert x == w + k * MODULUS;
    var u := Wrap(w + y) as int;
    var v := Wrap(x + y) as int;
    assert (w + y - u) % MODULUS == 0;
    assert (x + y - v) % MODULUS == 0;
    assert (u - v) == (x + y - v) - (w + y - u) - k * MODULUS;
    CongruentEqual(Wrap(w + y), Wrap(x + y));
  }
}
