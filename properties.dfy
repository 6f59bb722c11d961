/**
 * Relations between the three lattice values: the in/out replication
 * identity, linearity in the share count, non-negativity under
 * risk-neutral parameters, and the barriers that never trip.
 */
module Properties {
  import opened Lattice
  import opened Calibration
  import VanillaPricing
  import KnockOutPricing
  import KnockInPricing

  /** Knock-in plus knock-out is vanilla at every node: on each path the
      option is either knocked out or knocked in, never both. */
  lemma {:induction false} Replication(v: Valuation, b: Barrier, i: nat, j: nat)
    requires j <= i <= v.n
    ensures KnockIn(v, b, i, j) + KnockOut(v, b, i, j) == Vanilla(v, i, j)
    decreases v.n - i
  {
    if Trips(b, v.spot(i, j)) {
    } else if i == v.n {
      assert KnockIn(v, b, i + 1, j + 1) == 0.0 && KnockIn(v, b, i + 1, j) == 0.0;
      assert Step(v, 0.0, 0.0) == 0.0;
    } else {
      Replication(v, b, i + 1, j + 1);
      Replication(v, b, i + 1, j);
      StepAdditive(v, KnockIn(v, b, i + 1, j + 1), KnockIn(v, b, i + 1, j),
                      KnockOut(v, b, i + 1, j + 1), KnockOut(v, b, i + 1, j));
    }
  }

  /** The three prices of one lattice contract on the same barrier: the
      memoised knock-in price plus the in-place knock-out price is the
      grid's vanilla price. */
  method PriceReplication(c: Contract, b: Barrier, s0: real, shares: real) returns (ki: real, ko: real, vanilla: real)
    requires c.model.LatticeModel?
    ensures ki + ko == vanilla
    ensures vanilla == Vanilla(ValuationOf(c.terms, c.model.p, s0, shares), 0, 0)
  {
    var v := ValuationOf(c.terms, c.model.p, s0, shares);
    ki := KnockInPricing.Price(c, b, s0, shares);
    ko := KnockOutPricing.SlowPrice(v, b);
    vanilla := VanillaPricing.Price(c, s0, shares);
    ValuationSpot(c.terms, c.model.p, s0, shares, 0, 0);
    Replication(v, b, 0, 0);
  }

  // ---------------------------------------------------------------------
  // Linearity in the share count

  /** The valuation with the share count multiplied by k. */
  function Scaled(v: Valuation, k: real): Valuation
  {
    v.(shares := k * v.shares)
  }

  lemma {:induction false} VanillaScales(v: Valuation, k: real, i: nat, j: nat)
    requires j <= i <= v.n
    ensures Vanilla(Scaled(v, k), i, j) == k * Vanilla(v, i, j)
    decreases v.n - i
  {
    var w := Scaled(v, k);
    if i == v.n {
      PayoffScales(v.opt, v.strike, v.spot(v.n, j), v.shares, k);
    } else {
      VanillaScales(v, k, i + 1, j + 1);
      VanillaScales(v, k, i + 1, j);
      StepScales(v, w, k, Vanilla(v, i + 1, j + 1), Vanilla(v, i + 1, j));
    }
  }

  lemma {:induction false} KnockOutScales(v: Valuation, b: Barrier, k: real, i: nat, j: nat)
    requires j <= i <= v.n
    ensures KnockOut(Scaled(v, k), b, i, j) == k * KnockOut(v, b, i, j)
    decreases v.n - i
  {
    if Trips(b, v.spot(i, j)) {
    } else if i == v.n {
      PayoffScales(v.opt, v.strike, v.spot(v.n, j), v.shares, k);
    } else {
      KnockOutScales(v, b, k, i + 1, j + 1);
      KnockOutScales(v, b, k, i + 1, j);
      KnockOutScalesStep(v, b, k, i, j);
    }
  }

  /** The inductive step of KnockOutScales, at an untripped interior node. */
  lemma KnockOutScalesStep(v: Valuation, b: Barrier, k: real, i: nat, j: nat)
    requires j <= i < v.n && !Trips(b, v.spot(i, j))
    requires KnockOut(Scaled(v, k), b, i + 1, j + 1) == k * KnockOut(v, b, i + 1, j + 1)
    requires KnockOut(Scaled(v, k), b, i + 1, j) == k * KnockOut(v, b, i + 1, j)
    ensures KnockOut(Scaled(v, k), b, i, j) == k * KnockOut(v, b, i, j)
  {
    var w := Scaled(v, k);
    var up, down := KnockOut(v, b, i + 1, j + 1), KnockOut(v, b, i + 1, j);
    StepScales(v, w, k, up, down);
  }

  /** Knock-in linearity follows from the other two by replication. */
  lemma KnockInScales(v: Valuation, b: Barrier, k: real, i: nat, j: nat)
    requires j <= i <= v.n + 1
    ensures KnockIn(Scaled(v, k), b, i, j) == k * KnockIn(v, b, i, j)
  {
    if i <= v.n {
      var w := Scaled(v, k);
      Replication(v, b, i, j);
      Replication(w, b, i, j);
      VanillaScales(v, k, i, j);
      KnockOutScales(v, b, k, i, j);
      var a, c := Vanilla(v, i, j), KnockOut(v, b, i, j);
      assert k * a - k * c == k * (a - c);
    }
  }

  /** price(S, k * m) == k * price(S, m) for the vanilla price of a
      lattice contract. */
  lemma VanillaPriceScales(c: Contract, s0: real, m: real, k: real)
    requires c.model.LatticeModel?
    ensures Vanilla(ValuationOf(c.terms, c.model.p, s0, k * m), 0, 0)
         == k * Vanilla(ValuationOf(c.terms, c.model.p, s0, m), 0, 0)
  {
    ValuationScales(c.terms, c.model.p, s0, m, k);
    VanillaScales(ValuationOf(c.terms, c.model.p, s0, m), k, 0, 0);
  }

  /** The same for the knock-out price. */
  lemma KnockOutPriceScales(c: Contract, b: Barrier, s0: real, m: real, k: real)
    requires c.model.LatticeModel?
    ensures KnockOut(ValuationOf(c.terms, c.model.p, s0, k * m), b, 0, 0)
         == k * KnockOut(ValuationOf(c.terms, c.model.p, s0, m), b, 0, 0)
  {
    ValuationScales(c.terms, c.model.p, s0, m, k);
    KnockOutScales(ValuationOf(c.terms, c.model.p, s0, m), b, k, 0, 0);
  }

  /** The same for the knock-in price. */
  lemma KnockInPriceScales(c: Contract, b: Barrier, s0: real, m: real, k: real)
    requires c.model.LatticeModel?
    ensures KnockIn(ValuationOf(c.terms, c.model.p, s0, k * m), b, 0, 0)
         == k * KnockIn(ValuationOf(c.terms, c.model.p, s0, m), b, 0, 0)
  {
    ValuationScales(c.terms, c.model.p, s0, m, k);
    KnockInScales(ValuationOf(c.terms, c.model.p, s0, m), b, k, 0, 0);
  }

  /** The share count enters the valuation only as its shares field. */
  lemma ValuationScales(terms: Terms, p: Params, s0: real, m: real, k: real)
    ensures ValuationOf(terms, p, s0, k * m) == Scaled(ValuationOf(terms, p, s0, m), k)
  {
  }

  // ---------------------------------------------------------------------
  // Bounds under risk-neutral parameters

  lemma {:induction false} VanillaNonNegative(v: Valuation, i: nat, j: nat)
    requires NonNegative(v) && j <= i <= v.n
    ensures Vanilla(v, i, j) >= 0.0
    decreases v.n - i
  {
    if i == v.n {
      MulMonotone(v.shares, 0.0, if v.opt == "call" then Max(0.0, v.spot(v.n, j) - v.strike)
                                 else Max(0.0, v.strike - v.spot(v.n, j)));
    } else {
      VanillaNonNegative(v, i + 1, j + 1);
      VanillaNonNegative(v, i + 1, j);
      StepMonotone(v, 0.0, 0.0, Vanilla(v, i + 1, j + 1), Vanilla(v, i + 1, j));
    }
  }

  /** Every entry of the grid _vanilla returns is non-negative, the zeros
      above the diagonal included. */
  lemma GridNonNegative(v: Valuation, pv: array2<real>)
    requires NonNegative(v) && VanillaPricing.IsVanillaGrid(v, pv)
    ensures forall i, j :: 0 <= i <= v.n && 0 <= j <= v.n ==> pv[i, j] >= 0.0
  {
    forall i, j | 0 <= j <= i <= v.n
      ensures Vanilla(v, i, j) >= 0.0
    {
      VanillaNonNegative(v, i, j);
    }
  }

  /** A knock-out is worth at least nothing and at most its vanilla. */
  lemma {:induction false} KnockOutBounded(v: Valuation, b: Barrier, i: nat, j: nat)
    requires NonNegative(v) && j <= i <= v.n
    ensures 0.0 <= KnockOut(v, b, i, j) <= Vanilla(v, i, j)
    decreases v.n - i
  {
    VanillaNonNegative(v, i, j);
    if Trips(b, v.spot(i, j)) {
    } else if i == v.n {
    } else {
      KnockOutBounded(v, b, i + 1, j + 1);
      KnockOutBounded(v, b, i + 1, j);
      StepMonotone(v, KnockOut(v, b, i + 1, j + 1), KnockOut(v, b, i + 1, j),
                      Vanilla(v, i + 1, j + 1), Vanilla(v, i + 1, j));
    }
  }

  /** A knock-in is worth at least nothing and at most its vanilla. */
  lemma KnockInBounded(v: Valuation, b: Barrier, i: nat, j: nat)
    requires NonNegative(v) && j <= i <= v.n
    ensures 0.0 <= KnockIn(v, b, i, j) <= Vanilla(v, i, j)
  {
    Replication(v, b, i, j);
    KnockOutBounded(v, b, i, j);
  }

  // ---------------------------------------------------------------------
  // Barriers that never trip

  /** With a move other than "up" or "down" the knock-out is the vanilla
      and the knock-in is worthless. */
  lemma {:induction false} UnknownMoveIsVanilla(v: Valuation, b: Barrier, i: nat, j: nat)
    requires b.move != "up" && b.move != "down" && j <= i <= v.n
    ensures KnockOut(v, b, i, j) == Vanilla(v, i, j)
    ensures KnockIn(v, b, i, j) == 0.0
    decreases v.n - i
  {
    UnknownMoveNeverTrips(b, v.spot(i, j));
    if i < v.n {
      UnknownMoveIsVanilla(v, b, i + 1, j + 1);
      UnknownMoveIsVanilla(v, b, i + 1, j);
    }
    Replication(v, b, i, j);
  }
}
