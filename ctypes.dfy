/** C integer types of the firmware and the conversions between them.
    Dafny integers are unbounded; every cast and every division of the
    C code is written out with these functions. */
module CTypes {

  type Bit = x: int | 0 <= x <= 1
  type U8 = x: int | 0 <= x < 0x100
  type U16 = x: int | 0 <= x < 0x1_0000
  type U32 = x: int | 0 <= x < 0x1_0000_0000
  type I16 = x: int | -0x8000 <= x < 0x8000

  /** C's `(uint16_t)x`: reduction modulo 2^16 (two's complement wrap). */
  function ToU16(x: int): (r: U16)
    ensures (r - x) % 0x1_0000 == 0
    ensures 0 <= x < 0x1_0000 ==> r == x
  {
    x % 0x1_0000
  }

  /** C's `(int16_t)x` as the compiler implements it: modulo 2^16 into [-2^15, 2^15). */
  function ToI16(x: int): (r: I16)
    ensures (r - x) % 0x1_0000 == 0
    ensures -0x8000 <= x < 0x8000 ==> r == x
  {
    var m := x % 0x1_0000;
    if m < 0x8000 then m else m - 0x1_0000
  }

  /** C's `a / b` on `int` for a positive divisor: the quotient truncated toward zero. */
  function CDiv(a: int, b: int): (q: int)
    requires b > 0
    ensures a >= 0 ==> q >= 0 && q * b <= a < q * b + b
    ensures a < 0 ==> q <= 0 && q * b - b < a <= q * b
  {
    if a >= 0 then
      DivBounds(a, b);
      a / b
    else
      DivBounds(-a, b);
      assert -((-a) / b) * b == -(((-a) / b) * b);
      -((-a) / b)
  }

  /** Euclidean division of a non-negative dividend brackets it between
      two consecutive multiples of the divisor. */
  lemma DivBounds(a: nat, b: int)
    requires b > 0
    ensures a / b >= 0 && (a / b) * b <= a < (a / b) * b + b
  {
    var q, r := a / b, a % b;
    assert a == q * b + r;
  }

  /** An int16_t stored as its uint16_t bit pattern reads back unchanged. */
  lemma SignedBitsRoundTrip(x: I16)
    ensures ToI16(ToU16(x)) == x
  {
    if x < 0 {
      assert ToU16(x) == x + 0x1_0000;
    }
  }

  /** A uint16_t bit pattern read as int16_t stores back unchanged. */
  lemma UnsignedBitsRoundTrip(x: U16)
    ensures ToU16(ToI16(x)) == x
  {
    if x >= 0x8000 {
      assert ToI16(x) == x - 0x1_0000;
    }
  }
}
