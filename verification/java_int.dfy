/** Java's 32-bit `int`: values and the wrap-around of `+`. */
module JavaInt {

  const MIN: int := -0x8000_0000
  const MAX: int := 0x7fff_ffff
  const MODULUS: int := 0x1_0000_0000

  type int32 = x: int | MIN <= x <= MAX

  /** The `int` that Java produces for the mathematical value `x`: the one
      in range congruent to `x` modulo 2^32. */
  function Wrap(x: int): (r: int32)
    ensures (r - x) % MODULUS == 0
    ensures MIN <= x <= MAX ==> r == x
  {
    (x - MIN) % MODULUS + MIN
  }

  /** Java's `a + b` on two `int`s. */
  function Add(a: int32, b: int32): (r: int32)
    ensures MIN <= a + b <= MAX ==> r == a + b
    ensures (r - (a + b)) % MODULUS == 0
  {
    Wrap(a + b)
  }

  /** Wrapping an intermediate result does not change the final wrapped
      value, so a running `int` sum equals the wrapped exact sum. */
  lemma WrapAbsorbs(x: int, y: int)
    ensures Wrap(Wrap(x) + y) == Wrap(x + y)
  {
    var k := (x - MIN) / MODULUS;
    assert Wrap(x) == x - k * MODULUS;
    assert Wrap(x) + y - MIN == (x + y - MIN) - k * MODULUS;
    ModShift(x + y - MIN, k);
  }

  lemma ModShift(a: int, k: int)
    ensures (a - k * MODULUS) % MODULUS == a % MODULUS
  {
  }
}
