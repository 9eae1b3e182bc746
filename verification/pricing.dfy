/** The linear mint price curve, in wei: the first corgi costs 0.01 ether and
    every later one 0.0001 ether more than the one before. */
module Pricing {

  const FIRST_CORGI_PRICE_ETH: int := 10_000_000_000_000_000
  const INCREMENTAL_PRICE_ETH: int := 100_000_000_000_000

  /** `priceForCorgi`: BigNumber arithmetic is exact, so unbounded integers
      match it. No lower bound is checked on `corgiNumber`. */
  function PriceForCorgi(corgiNumber: int): (price: int)
    ensures corgiNumber >= 1 ==> price >= FIRST_CORGI_PRICE_ETH
    ensures price > 0 <==> corgiNumber > -99
    ensures price % INCREMENTAL_PRICE_ETH == 0
  {
    FIRST_CORGI_PRICE_ETH + INCREMENTAL_PRICE_ETH * (corgiNumber - 1)
  }

  /** Reference definition: the first price, then one increment per step. */
  function PriceByStep(corgiNumber: nat): int
    requires corgiNumber >= 1
  {
    if corgiNumber == 1 then FIRST_CORGI_PRICE_ETH
    else PriceByStep(corgiNumber - 1) + INCREMENTAL_PRICE_ETH
  }

  /** The closed form agrees with the step-by-step reference for every
      positive corgi number. */
  lemma {:induction false} PriceMatchesSteps(corgiNumber: nat)
    requires corgiNumber >= 1
    ensures PriceForCorgi(corgiNumber) == PriceByStep(corgiNumber)
  {
    if corgiNumber > 1 {
      PriceMatchesSteps(corgiNumber - 1);
    }
  }

  /** Prices strictly increase with the corgi number, by one increment per step. */
  lemma PriceStrictlyIncreasing(m: int, n: int)
    requires m < n
    ensures PriceForCorgi(m) < PriceForCorgi(n)
    ensures PriceForCorgi(n) - PriceForCorgi(m) == INCREMENTAL_PRICE_ETH * (n - m)
  {
  }

  /** Reference values: the first corgi sends exactly 0.01 ether to the
      treasury, the hundredth costs 0.0199 ether, and corgi 0 is still priced
      rather than rejected. */
  lemma PriceReferenceValues()
    ensures PriceForCorgi(1) == 10_000_000_000_000_000
    ensures PriceForCorgi(100) == 19_900_000_000_000_000
    ensures PriceForCorgi(0) == 9_900_000_000_000_000
  {
  }

  /** What the treasury receives from the first `count` mints. */
  function TotalPaid(count: nat): int {
    if count == 0 then 0 else TotalPaid(count - 1) + PriceForCorgi(count)
  }

  /** Closed form of the treasury total (an arithmetic series). */
  lemma {:induction false} TotalPaidClosedForm(count: nat)
    ensures 2 * TotalPaid(count)
         == 2 * count * FIRST_CORGI_PRICE_ETH + INCREMENTAL_PRICE_ETH * count * (count - 1)
  {
    if count > 0 {
      TotalPaidClosedForm(count - 1);
    }
  }

  /** Three mints send 0.0303 ether to the treasury. */
  lemma ThreeMintTotal()
    ensures TotalPaid(3) == 30_300_000_000_000_000
  {
    TotalPaidClosedForm(3);
  }
}
