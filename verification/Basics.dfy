/** Types that several modules share. */
module Basics {

  datatype Option<T> = None | Some(value: T)

  type byte = x: int | 0 <= x < 0x100
  type u16 = x: int | 0 <= x < 0x1_0000
  type u32 = x: int | 0 <= x < 0x1_0000_0000

  // What a whole quotient says about products.
  lemma Quotient(n: nat, v: nat)
    requires 0 < v
    ensures (n / v) * v <= n < (n / v) * v + v
  {
  }

  lemma QuotientAtLeast(n: nat, v: nat, k: nat)
    requires 0 < v && k * v <= n
    ensures n / v >= k
  {
    Quotient(n, v);
    if n / v < k {
      QuotientBelow(n / v, v, k);
    }
  }

  lemma QuotientBelow(q: nat, v: nat, k: nat)
    requires q < k
    ensures q * v + v <= k * v
  {
    assert (q + 1) * v <= k * v;
  }
}
