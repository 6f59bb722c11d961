/**
 * The recombining binomial lattice shared by every pricer of the repository:
 * node spots, terminal payoffs, the one-step backward-induction rule, the
 * barrier predicate, and the three value recurrences (vanilla, knock-out,
 * knock-in) that every imperative strategy is proved to compute.
 *
 * A node is (i, j): time step i, j up-moves, 0 <= j <= i <= n.
 */
module Lattice {

  /** Everything one call to `price` works with: the calibrated lattice,
      the contract terms and the call's own arguments. */
  datatype Valuation = Valuation(
    n: nat,                    // number of time steps
    df: real,                  // one-step discount factor
    pu: real,                  // risk-neutral probability of an up-move
    pd: real,                  // risk-neutral probability of a down-move
    spot: (nat, nat) -> real,  // spot at node (i, j) for this call's initial spot
    s0: real,                  // the initial spot handed to price
    strike: real,
    opt: string,               // "call"; any other value is priced as a put
    shares: real)              // noShares, the notional share count

  /** Barrier level and trigger direction ("up" or "down"; anything else never triggers). */
  datatype Barrier = Barrier(level: real, move: string)

  function Max(a: real, b: real): real
  {
    if a >= b then a else b
  }

  function Min(a: real, b: real): real
  {
    if a <= b then a else b
  }

  function Pow(x: real, k: nat): real
  {
    if k == 0 then 1.0 else x * Pow(x, k - 1)
  }

  /** s(i, j) = s0 * up^j * down^(i-j). The lattice has no node with j > i
      and no caller asks for one; there the down exponent is taken as 0. */
  function NodeSpot(s0: real, up: real, down: real, i: nat, j: nat): real
  {
    s0 * Pow(up, j) * Pow(down, if j <= i then i - j else 0)
  }

  /** The multiplicative spot function of a lattice with the given step factors. */
  function MultiplicativeSpot(s0: real, up: real, down: real): (nat, nat) -> real
  {
    (i: nat, j: nat) => NodeSpot(s0, up, down, i, j)
  }

  /** Intrinsic value at one node: max(0, S - K) for "call", max(0, K - S) for
      every other option kind, times the share count. */
  function Payoff(opt: string, strike: real, spot: real, shares: real): real
  {
    (if opt == "call" then Max(0.0, spot - strike) else Max(0.0, strike - spot)) * shares
  }

  /** The one-step rule _f: PV(i, j) = df * (pu * PV(i+1, j+1) + pd * PV(i+1, j)). */
  function Step(v: Valuation, up: real, down: real): real
  {
    v.df * (v.pu * up + v.pd * down)
  }

  /** The barrier predicate shared by _isTerminated and _isActivated. */
  predicate Trips(b: Barrier, spot: real)
  {
    (b.move == "up" && spot >= b.level) || (b.move == "down" && spot <= b.level)
  }

  /** Payoff at terminal node (n, j). */
  function Terminal(v: Valuation, j: nat): real
  {
    Payoff(v.opt, v.strike, v.spot(v.n, j), v.shares)
  }

  /** Vanilla value of node (i, j) by backward induction from the terminal row. */
  function Vanilla(v: Valuation, i: nat, j: nat): real
    requires j <= i <= v.n
    decreases v.n - i
  {
    if i == v.n then Terminal(v, j)
    else Step(v, Vanilla(v, i + 1, j + 1), Vanilla(v, i + 1, j))
  }

  /** Knock-out value: zero at every node whose spot trips the barrier,
      otherwise the vanilla rule applied to the knock-out children. */
  function KnockOut(v: Valuation, b: Barrier, i: nat, j: nat): real
    requires j <= i <= v.n
    decreases v.n - i
  {
    if Trips(b, v.spot(i, j)) then 0.0
    else if i == v.n then Terminal(v, j)
    else Step(v, KnockOut(v, b, i + 1, j + 1), KnockOut(v, b, i + 1, j))
  }

  /** Knock-in value, the un-memoised form of _dfs: 0 beyond the last level,
      the vanilla value at an activated node, otherwise the one-step rule
      applied to the knock-in children. */
  function KnockIn(v: Valuation, b: Barrier, i: nat, j: nat): (r: real)
    requires j <= i <= v.n + 1
    decreases v.n + 1 - i
  {
    if i > v.n then 0.0
    else if Trips(b, v.spot(i, j)) then Vanilla(v, i, j)
    else Step(v, KnockIn(v, b, i + 1, j + 1), KnockIn(v, b, i + 1, j))
  }

  /** A knock-in none of whose nodes from level i on ever activates is
      worthless: its value is 0 at every such node. */
  lemma {:induction false} KnockInNeverActivated(v: Valuation, b: Barrier, i: nat, j: nat)
    requires j <= i <= v.n + 1
    requires forall p: nat, q: nat :: i <= p <= v.n && q <= p ==> !Trips(b, v.spot(p, q))
    ensures KnockIn(v, b, i, j) == 0.0
    decreases v.n + 1 - i
  {
    if i <= v.n {
      KnockInNeverActivated(v, b, i + 1, j + 1);
      KnockInNeverActivated(v, b, i + 1, j);
      assert Step(v, 0.0, 0.0) == 0.0;
    }
  }

  /** Parameters under which every value is non-negative: a non-negative
      share count, probabilities in [0, 1] that sum to 1, and df > 0. */
  predicate NonNegative(v: Valuation)
  {
    v.shares >= 0.0 && 0.0 <= v.pu <= 1.0 && v.pd == 1.0 - v.pu && v.df > 0.0
  }

  // ---------------------------------------------------------------------
  // Properties of the building blocks

  /** The spot function recombines: an up-move multiplies by `up`, a
      down-move by `down`, and the root is the initial spot. */
  lemma {:induction false} NodeSpotSteps(s0: real, up: real, down: real, i: nat, j: nat)
    requires j <= i
    ensures NodeSpot(s0, up, down, i + 1, j + 1) == NodeSpot(s0, up, down, i, j) * up
    ensures NodeSpot(s0, up, down, i + 1, j) == NodeSpot(s0, up, down, i, j) * down
    ensures NodeSpot(s0, up, down, 0, 0) == s0
  {
    var a, c := Pow(up, j), Pow(down, i - j);
    assert Pow(up, j + 1) == up * a;
    assert Pow(down, i + 1 - j) == down * c;
    calc {
      NodeSpot(s0, up, down, i + 1, j + 1);
      s0 * (up * a) * c;
      (s0 * a * c) * up;
    }
    calc {
      NodeSpot(s0, up, down, i + 1, j);
      s0 * a * (down * c);
      (s0 * a * c) * down;
    }
  }

  /** Positive step factors from a positive initial spot give a positive
      spot at every node. */
  lemma NodeSpotPositive(s0: real, up: real, down: real, i: nat, j: nat)
    requires s0 > 0.0 && up > 0.0 && down > 0.0
    ensures NodeSpot(s0, up, down, i, j) > 0.0
  {
    var a, c := Pow(up, j), Pow(down, if j <= i then i - j else 0);
    PowPositive(up, j);
    PowPositive(down, if j <= i then i - j else 0);
    var sa := s0 * a;
    assert sa > 0.0;
    assert NodeSpot(s0, up, down, i, j) == sa * c;
  }

  lemma {:induction false} PowPositive(x: real, k: nat)
    requires x > 0.0
    ensures Pow(x, k) > 0.0
  {
    if k > 0 {
      PowPositive(x, k - 1);
    }
  }

  /** A barrier with a move other than "up" or "down" never trips. */
  lemma UnknownMoveNeverTrips(b: Barrier, spot: real)
    requires b.move != "up" && b.move != "down"
    ensures !Trips(b, spot)
  {
  }

  /** An "up" barrier that trips at one spot trips at every higher spot,
      a "down" barrier at every lower one. */
  lemma TripsMonotone(b: Barrier, spot: real, other: real)
    requires Trips(b, spot)
    ensures b.move == "up" && other >= spot ==> Trips(b, other)
    ensures b.move == "down" && other <= spot ==> Trips(b, other)
  {
  }

  /** Under risk-neutral weights the one-step rule discounts a value that
      lies between its two children. */
  lemma StepBounded(v: Valuation, up: real, down: real)
    requires 0.0 <= v.pu <= 1.0 && v.pd == 1.0 - v.pu && v.df > 0.0
    ensures v.df * Min(up, down) <= Step(v, up, down) <= v.df * Max(up, down)
  {
    var e := v.pu * up + (1.0 - v.pu) * down;
    Between(v.pu, up, down);
    assert Step(v, up, down) == v.df * e;
    MulLe(v.df, Min(up, down), e);
    MulLe(v.df, e, Max(up, down));
  }

  /** A convex combination lies between its two points. */
  lemma Between(p: real, x: real, y: real)
    requires 0.0 <= p <= 1.0
    ensures Min(x, y) <= p * x + (1.0 - p) * y <= Max(x, y)
  {
    var e := p * x + (1.0 - p) * y;
    if x >= y {
      MulMonotone(p, 0.0, x - y);
      MulMonotone(1.0 - p, 0.0, x - y);
      assert e - y == p * (x - y);
      assert x - e == (1.0 - p) * (x - y);
    } else {
      MulMonotone(p, 0.0, y - x);
      MulMonotone(1.0 - p, 0.0, y - x);
      assert y - e == p * (y - x);
      assert e - x == (1.0 - p) * (y - x);
    }
  }

  lemma StepAdditive(v: Valuation, a: real, b: real, c: real, d: real)
    ensures Step(v, a + c, b + d) == Step(v, a, b) + Step(v, c, d)
  {
    calc {
      Step(v, a + c, b + d);
      v.df * (v.pu * (a + c) + v.pd * (b + d));
      v.df * ((v.pu * a + v.pd * b) + (v.pu * c + v.pd * d));
      v.df * (v.pu * a + v.pd * b) + v.df * (v.pu * c + v.pd * d);
    }
  }

  lemma StepScales(v: Valuation, w: Valuation, k: real, a: real, b: real)
    requires w.df == v.df && w.pu == v.pu && w.pd == v.pd
    ensures Step(w, k * a, k * b) == k * Step(v, a, b)
  {
    calc {
      Step(w, k * a, k * b);
      v.df * (v.pu * (k * a) + v.pd * (k * b));
      v.df * (k * (v.pu * a + v.pd * b));
      k * (v.df * (v.pu * a + v.pd * b));
    }
  }

  /** Under NonNegative the one-step rule is monotone and keeps values
      non-negative. */
  lemma StepMonotone(v: Valuation, a: real, b: real, c: real, d: real)
    requires NonNegative(v)
    requires 0.0 <= a <= c && 0.0 <= b <= d
    ensures 0.0 <= Step(v, a, b) <= Step(v, c, d)
  {
    var pa, pc, qb, qd := v.pu * a, v.pu * c, v.pd * b, v.pd * d;
    MulMonotone(v.pu, a, c);
    MulMonotone(v.pd, b, d);
    var x, y := pa + qb, pc + qd;
    assert 0.0 <= x <= y;
    MulMonotone(v.df, x, y);
  }

  lemma MulLe(k: real, x: real, y: real)
    requires k >= 0.0 && x <= y
    ensures k * x <= k * y
  {
    assert k * y - k * x == k * (y - x);
  }

  lemma MulMonotone(k: real, x: real, y: real)
    requires k >= 0.0 && 0.0 <= x <= y
    ensures 0.0 <= k * x <= k * y
  {
  }

  /** A payoff is never negative for a non-negative share count, is 0 out
      of the money, and in the money is the intrinsic gain times the shares. */
  lemma PayoffBounds(opt: string, strike: real, spot: real, shares: real)
    ensures shares >= 0.0 ==> Payoff(opt, strike, spot, shares) >= 0.0
    ensures opt == "call" && spot <= strike ==> Payoff(opt, strike, spot, shares) == 0.0
    ensures opt != "call" && spot >= strike ==> Payoff(opt, strike, spot, shares) == 0.0
    ensures opt == "call" && spot > strike ==> Payoff(opt, strike, spot, shares) == (spot - strike) * shares
    ensures opt != "call" && spot < strike ==> Payoff(opt, strike, spot, shares) == (strike - spot) * shares
  {
    var gain := if opt == "call" then Max(0.0, spot - strike) else Max(0.0, strike - spot);
    if shares >= 0.0 {
      MulMonotone(shares, 0.0, gain);
    }
  }

  lemma PayoffScales(opt: string, strike: real, spot: real, m: real, k: real)
    ensures Payoff(opt, strike, spot, k * m) == k * Payoff(opt, strike, spot, m)
  {
  }
}
