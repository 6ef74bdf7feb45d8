/** `unsigned long long` (the source's `u64`): arithmetic modulo 2^64. */
module UInt64 {

  const U64_MODULUS: int := 0x1_0000_0000_0000_0000

  type u64 = x: int | 0 <= x < U64_MODULUS

  /** `a + b` on u64. */
  function Add64(a: u64, b: u64): (r: u64)
    ensures r == (a + b) % U64_MODULUS
    ensures a + b < U64_MODULUS ==> r == a + b
  {
    if a + b < U64_MODULUS then a + b else a + b - U64_MODULUS
  }

  /** `a - b` on u64: wraps around when b > a. */
  function Sub64(a: u64, b: u64): (r: u64)
    ensures r == (a - b) % U64_MODULUS
    ensures b <= a ==> r == a - b
    ensures Add64(b, r) == a
  {
    if b <= a then a - b else a - b + U64_MODULUS
  }

  /** Two consecutive differences add up to the difference over both steps. */
  lemma SubChain(a: u64, b: u64, c: u64)
    ensures Add64(Sub64(b, a), Sub64(c, b)) == Sub64(c, a)
  {
  }
}
