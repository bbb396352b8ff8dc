/**
 * Java's fixed-width integers: the ranges of `int` and `long`, the wrap-around of
 * `int` arithmetic and of the `(int)` cast, and `/` on `int`, which truncates toward zero.
 */
module JavaInt {

  const INT_MIN: int := -0x8000_0000
  const INT_MAX: int := 0x7FFF_FFFF
  const LONG_MIN: int := -0x8000_0000_0000_0000
  const LONG_MAX: int := 0x7FFF_FFFF_FFFF_FFFF
  const TWO_TO_32: int := 0x1_0000_0000

  type Int32 = x: int | INT_MIN <= x <= INT_MAX
  type Int64 = x: int | LONG_MIN <= x <= LONG_MAX

  /** The 32-bit two's-complement value of `x`: what `int` addition and the `(int)` cast produce. */
  function Wrap32(x: int): (r: Int32)
    ensures (r - x) % TWO_TO_32 == 0
    ensures INT_MIN <= x <= INT_MAX ==> r == x
  {
    (x - INT_MIN) % TWO_TO_32 + INT_MIN
  }

  /** Java's `a / b` for a positive divisor: the quotient rounded toward zero. */
  function Div(a: int, b: int): (q: int)
    requires b > 0
    ensures a >= 0 ==> 0 <= a - q * b < b
    ensures a < 0 ==> -b < a - q * b <= 0
  {
    if a >= 0 then a / b else -((-a) / b)
  }

  /**
   * Wrapping preserves divisibility by the two chunk sizes of the download scheduler, because
   * each of them divides 2^32.
   */
  lemma WrapKeepsMultiple(x: int, c: int)
    requires c == 0x8000 || c == 0x2_0000
    requires x % c == 0
    ensures Wrap32(x) % c == 0
  {
    var q := (x - INT_MIN) / TWO_TO_32;
    var k := x / c;
    assert x == k * c;
    if c == 0x8000 {
      assert Wrap32(x) == (k - q * 0x2_0000) * 0x8000;
    } else {
      assert Wrap32(x) == (k - q * 0x8000) * 0x2_0000;
    }
  }
}
