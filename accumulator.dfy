/**
 * The accumulator simulation (scripts/AccuSim.py): on every settlement of
 * a simulated price path the buyer accumulates shares at the strike,
 * twice as many below the strike, until the first settlement above the
 * knock-out price terminates the contract.
 *
 * The normal draws of the random generator enter as a parameter, one row
 * of twelve per path.
 */
module Accumulator {

  /** Settlements per path: twelve month ends. */
  const Settlements: nat := 12

  /** Shares bought per settlement between the strike and the knock-out price. */
  const Shares: real := 1000.0

  datatype Simulation = Simulation(times: nat, strike: real, knockOut: real)

  /** buyer_payoff: 0 above the knock-out price; 1000 shares' gain between
      the strike and the knock-out price; twice the loss below the strike. */
  function BuyerPayoff(s: Simulation, price: real): (r: real)
    ensures price > s.knockOut ==> r == 0.0
    ensures s.strike <= price <= s.knockOut ==> r == Shares * (price - s.strike) && r >= 0.0
    ensures price < s.strike && price <= s.knockOut ==> r == 2.0 * Shares * (price - s.strike) && r < 0.0
  {
    if price > s.knockOut then 0.0
    else
      var payoff := Shares * (price - s.strike);
      if s.strike <= price <= s.knockOut then payoff else payoff * 2.0
  }

  /** The accumulation over one path: settlements are paid in order until
      the first price above the knock-out price. */
  function PathPayoff(s: Simulation, prices: seq<real>): (r: real)
    ensures (forall m :: 0 <= m < |prices| ==> prices[m] >= s.strike) ==> r >= 0.0
  {
    if |prices| == 0 || prices[0] > s.knockOut then 0.0
    else BuyerPayoff(s, prices[0]) + PathPayoff(s, prices[1..])
  }

  /** The plain sum of the settlement payoffs. */
  function SumPayoffs(s: Simulation, prices: seq<real>): real
  {
    if |prices| == 0 then 0.0 else BuyerPayoff(s, prices[0]) + SumPayoffs(s, prices[1..])
  }

  /** The index of the first settlement above the knock-out price, or the
      path length when there is none. */
  function KnockOutIndex(s: Simulation, prices: seq<real>): (k: nat)
    ensures k <= |prices|
    ensures forall m :: 0 <= m < k ==> prices[m] <= s.knockOut
    ensures k < |prices| ==> prices[k] > s.knockOut
  {
    if |prices| == 0 || prices[0] > s.knockOut then 0
    else 1 + KnockOutIndex(s, prices[1..])
  }

  /** The path payoff is the sum over the settlements before the first
      knock-out. */
  lemma {:induction false} PathPayoffIsPrefixSum(s: Simulation, prices: seq<real>)
    ensures PathPayoff(s, prices) == SumPayoffs(s, prices[..KnockOutIndex(s, prices)])
  {
    if |prices| == 0 || prices[0] > s.knockOut {
    } else {
      var k := KnockOutIndex(s, prices);
      PathPayoffIsPrefixSum(s, prices[1..]);
      assert prices[..k][1..] == prices[1..][..k - 1];
    }
  }

  /** Settlements after a knock-out have no effect: two paths that agree up
      to and including a settlement above the knock-out price pay the same. */
  lemma {:induction false} LaterPricesIgnored(s: Simulation, p: seq<real>, q: seq<real>, k: nat)
    requires k < |p| && k < |q| && p[..k + 1] == q[..k + 1] && p[k] > s.knockOut
    ensures PathPayoff(s, p) == PathPayoff(s, q)
  {
    assert p[0] == p[..k + 1][0] == q[..k + 1][0] == q[0];
    if k > 0 && p[0] <= s.knockOut {
      assert p[1..][..k] == p[..k + 1][1..] == q[..k + 1][1..] == q[1..][..k];
      LaterPricesIgnored(s, p[1..], q[1..], k - 1);
    }
  }

  /** With no settlement above the knock-out price every settlement pays. */
  lemma {:induction false} NoKnockOutSumsAll(s: Simulation, prices: seq<real>)
    requires forall m :: 0 <= m < |prices| ==> prices[m] <= s.knockOut
    ensures PathPayoff(s, prices) == SumPayoffs(s, prices)
  {
    if |prices| > 0 {
      NoKnockOutSumsAll(s, prices[1..]);
    }
  }

  /** The monthly gross returns of one path: draw / 100 + 1. */
  function Returns(draws: seq<real>): (r: seq<real>)
    ensures |r| == |draws|
    ensures forall k :: 0 <= k < |r| ==> r[k] == draws[k] / 100.0 + 1.0
  {
    seq(|draws|, k requires 0 <= k < |draws| => draws[k] / 100.0 + 1.0)
  }

  /** The product of a sequence of reals. */
  function Product(xs: seq<real>): real
  {
    if |xs| == 0 then 1.0 else xs[0] * Product(xs[1..])
  }

  /** Running product of `gross`, starting from `start`. */
  function CumProd(start: real, gross: seq<real>): (p: seq<real>)
    ensures |p| == |gross|
    decreases |gross|
  {
    if |gross| == 0 then [] else [start * gross[0]] + CumProd(start * gross[0], gross[1..])
  }

  /** The price path from the gross returns: cumprod(returns) * 100. */
  function Path(gross: seq<real>): (p: seq<real>)
    ensures |p| == |gross|
    ensures (forall k :: 0 <= k < |gross| ==> gross[k] > 0.0) ==> forall k :: 0 <= k < |p| ==> p[k] > 0.0
  {
    CumProdPositive(100.0, gross);
    CumProd(100.0, gross)
  }

  /** A running product of positive factors from a positive start stays positive. */
  lemma {:induction false} CumProdPositive(start: real, gross: seq<real>)
    ensures start > 0.0 && (forall k :: 0 <= k < |gross| ==> gross[k] > 0.0) ==>
      forall k :: 0 <= k < |gross| ==> CumProd(start, gross)[k] > 0.0
    decreases |gross|
  {
    if start > 0.0 && |gross| > 0 && (forall k :: 0 <= k < |gross| ==> gross[k] > 0.0) {
      var next := start * gross[0];
      assert next > 0.0;
      CumProdPositive(next, gross[1..]);
      assert forall k :: 0 <= k < |gross| - 1 ==> gross[1..][k] > 0.0;
    }
  }

  /** Each price is 100 times the product of the returns up to its month. */
  lemma PathIsProduct(gross: seq<real>)
    ensures forall k :: 0 <= k < |gross| ==> Path(gross)[k] == 100.0 * Product(gross[..k + 1])
  {
    forall k | 0 <= k < |gross|
      ensures Path(gross)[k] == 100.0 * Product(gross[..k + 1])
    {
      CumProdIsProduct(100.0, gross, k);
    }
  }

  /** A path whose monthly draws never reach -100 (a fall of 100% or
      more) has a positive price at every settlement, each price being
      100 times the product of the gross returns 1 + draw / 100 so far. */
  lemma DrawsKeepPricesPositive(draws: seq<real>)
    requires forall m :: 0 <= m < |draws| ==> draws[m] > -100.0
    ensures forall k :: 0 <= k < |draws| ==>
      Path(Returns(draws))[k] == 100.0 * Product(Returns(draws)[..k + 1]) && Path(Returns(draws))[k] > 0.0
  {
    PathIsProduct(Returns(draws));
  }

  lemma {:induction false} CumProdIsProduct(start: real, gross: seq<real>, k: nat)
    requires k < |gross|
    ensures CumProd(start, gross)[k] == start * Product(gross[..k + 1])
    decreases k
  {
    if k == 0 {
      assert Product(gross[..1]) == gross[0] * Product([]);
    } else {
      assert CumProd(start, gross) == [start * gross[0]] + CumProd(start * gross[0], gross[1..]);
      CumProdIsProduct(start * gross[0], gross[1..], k - 1);
      assert gross[..k + 1][1..] == gross[1..][..k];
      var x, y := gross[0], Product(gross[1..][..k]);
      assert Product(gross[..k + 1]) == x * y;
      assert (start * x) * y == start * (x * y);
    }
  }

  /** run: for each of `times` paths, the price path from its twelve draws,
      then the settlements accumulated until the first knock-out. The
      payoffs come out one per path, in path order. */
  method Run(s: Simulation, draws: seq<seq<real>>) returns (payoffs: seq<real>)
    requires |draws| == s.times
    requires forall i :: 0 <= i < |draws| ==> |draws[i]| == Settlements
    ensures |payoffs| == s.times
    ensures forall i :: 0 <= i < s.times ==> payoffs[i] == PathPayoff(s, Path(Returns(draws[i])))
  {
    payoffs := [];
    for i := 0 to s.times
      invariant |payoffs| == i
      invariant forall m :: 0 <= m < i ==> payoffs[m] == PathPayoff(s, Path(Returns(draws[m])))
    {
      var prices := Path(Returns(draws[i]));
      var payoff := 0.0;
      var m := 0;
      while m < |prices|
        invariant 0 <= m <= |prices|
        invariant payoff + PathPayoff(s, prices[m..]) == PathPayoff(s, prices)
      {
        if prices[m] > s.knockOut {
          // a settlement above the knock-out price ends the contract
          break;
        }
        assert prices[m..][1..] == prices[m + 1..];
        payoff := payoff + BuyerPayoff(s, prices[m]);
        m := m + 1;
      }
      payoffs := payoffs + [payoff];
    }
  }
}
