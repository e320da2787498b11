/** A few facts about products and quotients. */
module Arithmetic {

  lemma MulMonotone(a: nat, b: nat, k: nat)
    requires a <= b
    ensures a * k <= b * k
  {
    assert b * k - a * k == (b - a) * k;
  }

  lemma MulSuccessor(n: nat, a: nat)
    ensures (n + 1) * a == n * a + a
  {
  }

  lemma BelowQuotient(x: nat, a: nat, q: nat)
    requires a > 0 && q * a <= x
    ensures q <= x / a
  {
    if q > x / a {
      MulMonotone(x / a + 1, q, a);
    }
  }

  lemma MulThenDiv(n: nat, a: nat)
    requires a > 0
    ensures (n * a) / a == n
  {
    BelowQuotient(n * a, a, n);
    var q := (n * a) / a;
    assert q * a <= n * a;
    assert (q - n) * a <= 0;
  }
}
