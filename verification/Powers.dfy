/** Powers of two, which bound tree heights and proof lengths. */
module Powers {

  function Pow2(k: nat): (p: nat)
    ensures p >= 1
  {
    if k == 0 then 1 else 2 * Pow2(k - 1)
  }

  /** Halving a count of several, rounded up, takes one power less. */
  lemma Halves(n: nat, k: nat)
    requires 1 < n <= Pow2(k)
    ensures k > 0 && (n + 1) / 2 <= Pow2(k - 1)
  {
    assert Pow2(k) == if k == 0 then 1 else 2 * Pow2(k - 1);
  }

  /** How often a count is halved, rounding up, before one is left. */
  function Halvings(n: nat): nat
    requires n >= 1
  {
    if n == 1 then 0 else 1 + Halvings((n + 1) / 2)
  }

  lemma {:induction false} HalvingsBound(n: nat, k: nat)
    requires 1 <= n <= Pow2(k)
    ensures Halvings(n) <= k
  {
    if n > 1 {
      Halves(n, k);
      HalvingsBound((n + 1) / 2, k - 1);
    }
  }
}
