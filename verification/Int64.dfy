/** Go's 64-bit integers: products and sums wrap around. */
module Int64 {
  const MIN := -0x8000_0000_0000_0000
  const MAX := 0x7fff_ffff_ffff_ffff
  const MODULUS := 0x1_0000_0000_0000_0000

  predicate InRange(x: int) {
    MIN <= x <= MAX
  }

  /** The value that is left of x in 64 bits. */
  function Wrap(x: int): (r: int)
    ensures InRange(r)
    ensures InRange(x) ==> r == x
    ensures (x - r) % MODULUS == 0
  {
    var m := (x - MIN) % MODULUS;
    assert x - MIN == ((x - MIN) / MODULUS) * MODULUS + m;
    assert InRange(x) ==> (x - MIN) / MODULUS == 0;
    MultipleOfModulus((x - MIN) / MODULUS);
    m + MIN
  }

  lemma MultipleOfModulus(k: int)
    ensures (k * MODULUS) % MODULUS == 0
  {}

  /** Wrapping never makes a natural number larger. */
  lemma WrapAtMost(x: nat)
    ensures Wrap(x) <= x
  {}
}
