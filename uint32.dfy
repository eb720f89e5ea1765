/**
 * 32-bit unsigned arithmetic. The firmware's timestamps are uint32_t, so every
 * sum and difference of timestamps is taken modulo 2^32.
 */
module U32 {
  const Modulus: int := 0x1_0000_0000

  type u32 = x: int | 0 <= x < Modulus

  /** The uint32_t value an integer expression wraps to. */
  function Wrap(x: int): (r: u32)
    ensures 0 <= x < Modulus ==> r == x
  {
    x % Modulus
  }

  /** Wrapping an intermediate result does not change the final wrapped value. */
  lemma WrapAdd(a: int, b: int)
    ensures Wrap(Wrap(a) + b) == Wrap(a + b)
  {
    var q := a / Modulus;
    assert a == q * Modulus + Wrap(a);
    assert Wrap(a) + b == (a + b) - q * Modulus;
    ModuloShift(a + b, -q);
  }

  /** Adding a multiple of the modulus leaves the remainder unchanged. */
  lemma {:induction false} ModuloShift(x: int, k: int)
    ensures (x + k * Modulus) % Modulus == x % Modulus
    decreases if k < 0 then -k else k
  {
    if k > 0 {
      ModuloShift(x, k - 1);
      assert x + k * Modulus == (x + (k - 1) * Modulus) + Modulus;
    } else if k < 0 {
      ModuloShift(x, k + 1);
      assert x + k * Modulus == (x + (k + 1) * Modulus) - Modulus;
    }
  }
}
