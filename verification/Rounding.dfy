/** math.Round on non-negative amounts: half away from zero, over the reals. */
module Rounding {

  function Round(x: real): (n: int)
    requires x >= 0.0
    ensures n >= 0
    ensures -0.5 <= n as real - x <= 0.5
    ensures x - x.Floor as real == 0.5 ==> n == x.Floor + 1
  {
    (x + 0.5).Floor
  }

  lemma RoundMonotone(x: real, y: real)
    requires 0.0 <= x <= y
    ensures Round(x) <= Round(y)
  {
  }

  /** The exact amount of quota, before rounding. */
  function Exact(amount: real, perUnit: int): (x: real)
    requires amount > 0.0 && perUnit > 0
    ensures x > 0.0
  {
    amount * perUnit as real
  }

  /** Display currency to integer quota, shared by redemption and pricing: off the exact amount
      by half a unit at most. */
  function CurrencyToQuota(amount: real, perUnit: int): (q: int)
    requires perUnit > 0
    ensures q >= 0
    ensures amount <= 0.0 ==> q == 0
    ensures amount > 0.0 ==> -0.5 <= q as real - Exact(amount, perUnit) <= 0.5
  {
    if amount <= 0.0 then 0 else Round(Exact(amount, perUnit))
  }

  lemma ProductMonotone(a: real, b: real, f: real)
    requires a <= b && f > 0.0
    ensures a * f <= b * f
  {
  }

  lemma ExactMonotone(p: real, q: real, perUnit: int)
    requires 0.0 < p <= q && perUnit > 0
    ensures Exact(p, perUnit) <= Exact(q, perUnit)
  {
  }

  lemma CurrencyMonotone(p: real, q: real, perUnit: int)
    requires p <= q && perUnit > 0
    ensures CurrencyToQuota(p, perUnit) <= CurrencyToQuota(q, perUnit)
  {
    if p > 0.0 {
      ExactMonotone(p, q, perUnit);
      RoundMonotone(Exact(p, perUnit), Exact(q, perUnit));
    }
  }
}
