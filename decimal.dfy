/** Fixed-point royalty rates: a rate is a non-negative numerator over 10^18,
    as the host library's `Decimal` stores it. */
module Decimals {

  /** The denominator of every rate; a numerator equal to it is the rate 1. */
  const DECIMAL_FRACTIONAL: nat := 1_000_000_000_000_000_000

  type Decimal = nat

  /** An integer amount times a rate, rounded down. */
  function MulDecimal(amount: nat, rate: Decimal): nat
  {
    amount * rate / DECIMAL_FRACTIONAL
  }

  lemma DivAddLe(x: nat, y: nat, d: nat)
    requires d > 0
    ensures x / d + y / d <= (x + y) / d
  {
    var qx, qy := x / d, y / d;
    assert d * qx <= x && d * qy <= y;
    assert d * (qx + qy) <= x + y;
    DivLowerBound(x + y, d, qx + qy);
  }

  lemma MulMonotone(d: nat, a: nat, b: nat)
    ensures a >= b ==> d * a >= d * b
  {
  }

  lemma DivLowerBound(n: nat, d: nat, q: nat)
    requires d > 0 && d * q <= n
    ensures q <= n / d
  {
    MulMonotone(d, q, n / d + 1);
    assert n == d * (n / d) + n % d;
  }

  lemma DivUpperBound(n: nat, d: nat, m: nat)
    requires d > 0 && n <= d * m
    ensures n / d <= m
  {
    MulMonotone(d, n / d, m + 1);
    assert n == d * (n / d) + n % d;
  }

  /** A rate at most 1 never takes more than the whole amount. */
  lemma MulDecimalAtMost(amount: nat, rate: Decimal)
    requires rate <= DECIMAL_FRACTIONAL
    ensures MulDecimal(amount, rate) <= amount
  {
    assert amount * rate <= amount * DECIMAL_FRACTIONAL;
    DivUpperBound(amount * rate, DECIMAL_FRACTIONAL, amount);
  }
}
