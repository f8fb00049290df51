/**
 * C# `int` arithmetic. The hub is compiled without `checked`, so a product or
 * a sum that leaves the 32-bit range wraps around in two's complement.
 */
module Int32Arith {

  const MinInt32: int := -0x8000_0000
  const MaxInt32: int := 0x7FFF_FFFF
  const Modulus: int := 0x1_0000_0000

  type Int32 = x: int | MinInt32 <= x <= MaxInt32

  /** Truncates a mathematical integer to the 32-bit value C# stores for it. */
  function Wrap32(x: int): (r: Int32)
    ensures (x - r) % Modulus == 0
    ensures MinInt32 <= x <= MaxInt32 ==> r == x
  {
    (x - MinInt32) % Modulus + MinInt32
  }

  /** Two integers that agree modulo 2^32 are stored as the same `int`. */
  lemma WrapCongruent(a: int, b: int)
    requires (a - b) % Modulus == 0
    ensures Wrap32(a) == Wrap32(b)
  {
    var k := (a - b) / Modulus;
    assert a == b + Modulus * k;
    assert (a - MinInt32) % Modulus == (b - MinInt32) % Modulus;
  }

  /** Wrapping an operand of an addition early does not change the wrapped sum. */
  lemma WrapAdd(a: int, b: int)
    ensures Wrap32(a + Wrap32(b)) == Wrap32(a + b)
  {
    WrapCongruent(a + Wrap32(b), a + b);
  }
}
