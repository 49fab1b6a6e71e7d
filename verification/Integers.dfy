/** The sizes of the C types that wrap around, and division with remainder. */
module Integers {
  const U32: nat := 0x1_0000_0000
  const U64: nat := 0x1_0000_0000_0000_0000

  lemma Quotient(n: nat, k: nat)
    requires k >= 1
    ensures n == n / k * k + n % k && 0 <= n % k < k
  {
  }

  lemma Multiple(d: int, k: int)
    requires k >= 1
    ensures d >= 1 ==> d * k >= k
    ensures d <= -1 ==> d * k <= -k
  {
    assert d * k == (d - 1) * k + k;
    assert d * k == (d + 1) * k - k;
    assert d >= 1 ==> (d - 1) * k >= 0;
    assert d <= -1 ==> (d + 1) * k <= 0;
  }

  lemma QuotientIs(n: nat, k: nat, q: nat, r: nat)
    requires k >= 1 && n == q * k + r && r < k
    ensures n / k == q && n % k == r
  {
    Quotient(n, k);
    Multiple(n / k - q, k);
    assert n / k * k - q * k == (n / k - q) * k;
  }

  lemma NotNegative(n: nat, k: nat)
    requires k >= 1
    ensures n / k >= 0
  {
    Quotient(n, k);
    Multiple(n / k, k);
  }

  lemma RestBelow(n: nat, k: nat)
    requires k >= 1
    ensures 0 <= n % k <= n
  {
    NotNegative(n, k);
    Quotient(n, k);
    assert n / k * k >= 0;
  }
}
