/**
 * Rust's fixed-width integers as ranges of `int`, and Rust's remainder
 * operator, which truncates toward zero.
 */
module RustInt {

  const I32_MIN: int := -0x8000_0000
  const I32_MAX: int := 0x7fff_ffff
  const U16_MAX: int := 0xffff

  predicate IsI32(x: int) { I32_MIN <= x <= I32_MAX }

  type I32 = x: int | IsI32(x)

  type U16 = x: int | 0 <= x <= U16_MAX

  /**
   * Rust's `a % b` for a positive divisor: the quotient is truncated toward zero,
   * so the remainder takes the sign of `a`.
   */
  function RustRem(a: int, b: int): (r: int)
    requires b > 0
    ensures -b < r < b
    ensures a >= 0 ==> r >= 0
    ensures a < 0 ==> r <= 0
  {
    if a >= 0 then a % b else -((-a) % b)
  }

  /**
   * For the divisors the exercises use, the truncating and Euclidean remainders
   * agree on whether `b` divides `a`, negative `a` included.
   */
  lemma RustRemZeroIffDivides(a: int, b: int)
    requires b == 2 || b == 3 || b == 5 || b == 15
    ensures RustRem(a, b) == 0 <==> a % b == 0
  {
    if a < 0 {
      var r := (-a) % b;
      var q := (-a) / b;
      assert a == -(b * q) - r;
      assert RustRem(a, b) == -r;
      if r == 0 {
        assert a == b * -q;
        assert a % b == 0;
      } else {
        assert a == b * (-q - 1) + (b - r);
        assert a % b == b - r;
      }
    }
  }
}
