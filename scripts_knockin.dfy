/**
 * The abandoned knock-in prototype (scripts/european/barrier_knockin.py):
 * start from the full vanilla grid; unless the initial spot is activated,
 * zero every non-activated node top-down, then recompute bottom-up every
 * entry below the last level that holds 0.
 *
 * As written, the root is never zeroed (the statement meant to do it is a
 * comparison), so the bottom-up pass keeps the vanilla price at the root
 * whenever that price is not 0. PriceAsWritten models the code as it
 * stands; Price models the evident intent and is proved to compute the
 * knock-in value.
 */
module ScriptsKnockIn {
  import opened Lattice
  import opened Calibration
  import VanillaPricing
  import Properties
  import ScriptsVanilla

  /** Value of node (i, j) below the root after the top-down pass: an
      activated node keeps its vanilla value, any other node is 0. */
  function Cleared(v: Valuation, b: Barrier, i: nat, j: nat): real
    requires j <= i <= v.n
  {
    if Trips(b, v.spot(i, j)) then Vanilla(v, i, j) else 0.0
  }

  /** Value of node (i, j) when the bottom-up pass starts: the root is the
      vanilla price, or 0 when `zeroRoot` says the root was cleared; every
      other node as cleared. */
  function Zeroed(v: Valuation, b: Barrier, zeroRoot: bool, i: nat, j: nat): real
    requires j <= i <= v.n
  {
    if i == 0 then (if zeroRoot then 0.0 else Vanilla(v, 0, 0)) else Cleared(v, b, i, j)
  }

  /** Value of node (i, j) after the bottom-up pass: the last level as
      zeroed; below it, an entry that holds 0 is recomputed from the
      repriced level above, any other entry is kept. */
  function Repriced(v: Valuation, b: Barrier, zeroRoot: bool, i: nat, j: nat): real
    requires j <= i <= v.n
    decreases v.n - i
  {
    var z := Zeroed(v, b, zeroRoot, i, j);
    if i == v.n then z
    else if z == 0.0 then Step(v, Repriced(v, b, zeroRoot, i + 1, j + 1), Repriced(v, b, zeroRoot, i + 1, j))
    else z
  }

  /** The activation mark of node (i, j): 1 when activated, else 0. */
  function Mark(v: Valuation, b: Barrier, i: nat, j: nat): real
  {
    if Trips(b, v.spot(i, j)) then 1.0 else 0.0
  }

  ghost predicate Square(v: Valuation, pv: array2<real>)
  {
    pv.Length0 == v.n + 1 && pv.Length1 == v.n + 1
  }

  /** Levels 1 .. hi - 1 are cleared, and marked in `activation`. */
  ghost predicate ClearedBelow(v: Valuation, b: Barrier, pv: array2<real>, activation: array2<real>, hi: nat)
    requires Square(v, pv) && Square(v, activation)
    reads pv, activation
  {
    forall a, c :: 1 <= a < hi && a <= v.n && 0 <= c <= a ==>
      pv[a, c] == Cleared(v, b, a, c) && activation[a, c] == Mark(v, b, a, c)
  }

  /** Levels lo .. n are still vanilla, and unmarked. */
  ghost predicate UntouchedFrom(v: Valuation, pv: array2<real>, activation: array2<real>, lo: nat)
    requires Square(v, pv) && Square(v, activation)
    reads pv, activation
  {
    forall a, c :: lo <= a <= v.n && 0 <= c <= a ==> pv[a, c] == Vanilla(v, a, c) && activation[a, c] == 0.0
  }

  /** The top-down pass over levels 1 .. n: an activated node is marked 1
      in `activation` (which starts all 0) and keeps its vanilla value; any
      other node is set to 0. */
  method ClearInactive(v: Valuation, b: Barrier, pv: array2<real>, activation: array2<real>)
    requires Square(v, pv) && Square(v, activation) && activation != pv
    requires UntouchedFrom(v, pv, activation, 1)
    modifies pv, activation
    ensures pv[0, 0] == old(pv[0, 0])
    ensures ClearedBelow(v, b, pv, activation, v.n + 1)
  {
    for i := 1 to v.n + 1
      invariant pv[0, 0] == old(pv[0, 0])
      invariant ClearedBelow(v, b, pv, activation, i)
      invariant UntouchedFrom(v, pv, activation, i)
    {
      ClearLevel(v, b, pv, activation, i);
    }
  }

  /** The inner loop of the top-down pass: level i, j = 0 .. i. */
  method ClearLevel(v: Valuation, b: Barrier, pv: array2<real>, activation: array2<real>, i: nat)
    requires Square(v, pv) && Square(v, activation) && activation != pv
    requires 1 <= i <= v.n
    requires ClearedBelow(v, b, pv, activation, i) && UntouchedFrom(v, pv, activation, i)
    modifies pv, activation
    ensures pv[0, 0] == old(pv[0, 0])
    ensures ClearedBelow(v, b, pv, activation, i + 1) && UntouchedFrom(v, pv, activation, i + 1)
  {
    for j := 0 to i + 1
      invariant pv[0, 0] == old(pv[0, 0])
      invariant ClearedBelow(v, b, pv, activation, i) && UntouchedFrom(v, pv, activation, i + 1)
      invariant forall c :: 0 <= c < j ==> pv[i, c] == Cleared(v, b, i, c) && activation[i, c] == Mark(v, b, i, c)
      invariant forall c :: j <= c <= i ==> pv[i, c] == Vanilla(v, i, c) && activation[i, c] == 0.0
    {
      var spot := v.spot(i, j);
      if Trips(b, spot) {
        activation[i, j] := 1.0;
      } else {
        pv[i, j] := 0.0;
      }
    }
  }

  /** Levels 0 .. hi - 1 hold the values the bottom-up pass starts from. */
  ghost predicate ZeroedBelow(v: Valuation, b: Barrier, zeroRoot: bool, pv: array2<real>, hi: nat)
    requires Square(v, pv)
    reads pv
  {
    forall a, c :: a < hi && a <= v.n && 0 <= c <= a ==> pv[a, c] == Zeroed(v, b, zeroRoot, a, c)
  }

  /** Levels lo .. n hold their repriced values. */
  ghost predicate RepricedFrom(v: Valuation, b: Barrier, zeroRoot: bool, pv: array2<real>, lo: nat)
    requires Square(v, pv)
    reads pv
  {
    forall a, c :: lo <= a <= v.n && 0 <= c <= a ==> pv[a, c] == Repriced(v, b, zeroRoot, a, c)
  }

  /** The bottom-up pass: levels n-1 .. 0, recomputing each entry that
      holds 0 from the level above. */
  method Reprice(v: Valuation, b: Barrier, zeroRoot: bool, pv: array2<real>)
    requires Square(v, pv) && ZeroedBelow(v, b, zeroRoot, pv, v.n + 1)
    modifies pv
    ensures RepricedFrom(v, b, zeroRoot, pv, 0)
  {
    var i := v.n;
    while i > 0
      invariant 0 <= i <= v.n
      invariant ZeroedBelow(v, b, zeroRoot, pv, i) && RepricedFrom(v, b, zeroRoot, pv, i)
    {
      i := i - 1;
      RepriceLevel(v, b, zeroRoot, pv, i);
    }
  }

  /** The inner loop of the bottom-up pass: level i, j = 0 .. i. */
  method RepriceLevel(v: Valuation, b: Barrier, zeroRoot: bool, pv: array2<real>, i: nat)
    requires Square(v, pv) && i < v.n
    requires ZeroedBelow(v, b, zeroRoot, pv, i + 1) && RepricedFrom(v, b, zeroRoot, pv, i + 1)
    modifies pv
    ensures ZeroedBelow(v, b, zeroRoot, pv, i) && RepricedFrom(v, b, zeroRoot, pv, i)
  {
    for j := 0 to i + 1
      invariant ZeroedBelow(v, b, zeroRoot, pv, i)
      invariant RepricedFrom(v, b, zeroRoot, pv, i + 1)
      invariant forall c :: 0 <= c < j ==> pv[i, c] == Repriced(v, b, zeroRoot, i, c)
      invariant forall c :: j <= c <= i ==> pv[i, c] == Zeroed(v, b, zeroRoot, i, c)
    {
      if pv[i, j] == 0.0 {
        pv[i, j] := Step(v, pv[i + 1, j + 1], pv[i + 1, j]);
      }
    }
  }

  /** price as written: the vanilla grid; unless the initial spot is
      activated, the top-down pass over levels 1 .. n and the bottom-up
      pass; then pv[0][0]. The root is never cleared, so whenever the
      vanilla price is not 0 it is returned unchanged, and under
      risk-neutral weights the result is always the vanilla price. */
  method PriceAsWritten(v: Valuation, b: Barrier) returns (r: real)
    ensures Trips(b, v.s0) ==> r == Vanilla(v, 0, 0)
    ensures !Trips(b, v.s0) ==> r == Repriced(v, b, false, 0, 0)
    ensures Vanilla(v, 0, 0) != 0.0 ==> r == Vanilla(v, 0, 0)
    ensures NonNegative(v) ==> r == Vanilla(v, 0, 0)
  {
    var pv := VanillaPricing.Grid(v);
    var activation := new real[v.n + 1, v.n + 1]((_, _) => 0.0);
    if !Trips(b, v.s0) {
      // no statement clears the root before the two passes
      ClearInactive(v, b, pv, activation);
      Reprice(v, b, false, pv);
    }
    r := pv[0, 0];
    if NonNegative(v) && !Trips(b, v.s0) {
      AsWrittenIsVanilla(v, b);
    }
  }

  /** With the root left uncleared, the two passes return the vanilla
      price under risk-neutral weights: a non-zero vanilla root is kept,
      and a zero one is recomputed from knock-in children that lie
      between 0 and their vanilla values, which gives 0 again. */
  lemma AsWrittenIsVanilla(v: Valuation, b: Barrier)
    requires NonNegative(v)
    ensures Repriced(v, b, false, 0, 0) == Vanilla(v, 0, 0)
  {
    if v.n > 0 && Vanilla(v, 0, 0) == 0.0 {
      RepricedIsKnockIn(v, b, false, 1, 1);
      RepricedIsKnockIn(v, b, false, 1, 0);
      Properties.KnockInBounded(v, b, 1, 1);
      Properties.KnockInBounded(v, b, 1, 0);
      StepMonotone(v, KnockIn(v, b, 1, 1), KnockIn(v, b, 1, 0), Vanilla(v, 1, 1), Vanilla(v, 1, 0));
    }
  }

  /** price as evidently intended: the same passes, with the root cleared
      before the top-down pass. Under risk-neutral parameters, on a lattice
      whose root is the initial spot, it is the knock-in value. */
  method Price(v: Valuation, b: Barrier) returns (r: real)
    ensures Trips(b, v.s0) ==> r == Vanilla(v, 0, 0)
    ensures !Trips(b, v.s0) ==> r == Repriced(v, b, true, 0, 0)
    ensures NonNegative(v) && v.spot(0, 0) == v.s0 ==> r == KnockIn(v, b, 0, 0)
  {
    var pv := VanillaPricing.Grid(v);
    var activation := new real[v.n + 1, v.n + 1]((_, _) => 0.0);
    if !Trips(b, v.s0) {
      pv[0, 0] := 0.0;
      ClearInactive(v, b, pv, activation);
      Reprice(v, b, true, pv);
    }
    r := pv[0, 0];
    if NonNegative(v) && v.spot(0, 0) == v.s0 && !Trips(b, v.s0) {
      RepricedIsKnockIn(v, b, true, 0, 0);
    }
  }

  /** Below a cleared root, the two passes compute the knock-in value at
      every node: a cleared node is recomputed from its children, and an
      activated node whose vanilla value is 0 is recomputed too, which
      gives 0 again because its knock-in children lie between 0 and their
      vanilla values. */
  lemma {:induction false} RepricedIsKnockIn(v: Valuation, b: Barrier, zeroRoot: bool, i: nat, j: nat)
    requires NonNegative(v) && j <= i <= v.n
    requires i > 0 || (zeroRoot && !Trips(b, v.spot(0, 0)))
    ensures Repriced(v, b, zeroRoot, i, j) == KnockIn(v, b, i, j)
    decreases v.n - i
  {
    if i == v.n {
      assert KnockIn(v, b, i + 1, j + 1) == 0.0 && KnockIn(v, b, i + 1, j) == 0.0;
      assert Step(v, 0.0, 0.0) == 0.0;
    } else {
      RepricedIsKnockIn(v, b, zeroRoot, i + 1, j + 1);
      RepricedIsKnockIn(v, b, zeroRoot, i + 1, j);
      if i > 0 && Trips(b, v.spot(i, j)) && Vanilla(v, i, j) == 0.0 {
        Properties.KnockInBounded(v, b, i + 1, j + 1);
        Properties.KnockInBounded(v, b, i + 1, j);
        StepMonotone(v, KnockIn(v, b, i + 1, j + 1), KnockIn(v, b, i + 1, j),
                        Vanilla(v, i + 1, j + 1), Vanilla(v, i + 1, j));
      }
    }
  }

  /** One step, r = 0, u = 2 (so d = 1/2 and p = 1/3), a call struck at
      100 on one share of spot 100, and an up barrier at 300 that no node
      reaches: the knock-in is worthless, yet the root keeps the vanilla
      price 100/3 as written. The volatility (0.5 here) plays no part: the
      CRR up factor enters as the given value of exp(sqrt(h) std). */
  function CounterexampleTerms(): Terms
  {
    Terms(0.0, 0.5, 1.0, 1, 100.0, "call")
  }

  function CounterexampleValuation(): Valuation
  {
    ScriptsVanilla.ScriptValuation(CounterexampleTerms(), Crr(CounterexampleTerms(), CounterexampleTranscendentals()),
                                   (i: nat, j: nat) => NodeSpot(1.0, 2.0, 0.5, i, j), 100.0, 1.0)
  }

  /** exp(-h r) = 1, and the value 2 taken for exp(sqrt(h) std). */
  function CounterexampleTranscendentals(): Transcendentals
  {
    Transcendentals(1.0, 2.0, 1.0, 1.0, 1.0, 1.0)
  }

  /** The CRR parameters of the counterexample. */
  lemma CounterexampleParams()
    ensures Crr(CounterexampleTerms(), CounterexampleTranscendentals())
         == Params(1, 1.0, 1.0, 2.0, 0.5, 1.0 / 3.0, 2.0 / 3.0, 2.0, 0.5)
  {
  }

  lemma AsWrittenCounterexample()
    ensures var v, b := CounterexampleValuation(), Barrier(300.0, "up");
      && !Trips(b, v.s0)
      && Repriced(v, b, false, 0, 0) == Vanilla(v, 0, 0) == 100.0 / 3.0
      && KnockIn(v, b, 0, 0) == 0.0
      && Repriced(v, b, true, 0, 0) == 0.0
  {
    CounterexampleLattice();
    CounterexampleValues();
    Disagree(CounterexampleValuation(), Barrier(300.0, "up"));
  }

  /** On any risk-neutral lattice whose root does not activate, the
      as-written result is the vanilla price and the corrected one the
      knock-in value. */
  lemma Disagree(v: Valuation, b: Barrier)
    requires NonNegative(v) && !Trips(b, v.spot(0, 0))
    ensures Repriced(v, b, false, 0, 0) == Vanilla(v, 0, 0)
    ensures Repriced(v, b, true, 0, 0) == KnockIn(v, b, 0, 0)
  {
    AsWrittenIsVanilla(v, b);
    RepricedIsKnockIn(v, b, true, 0, 0);
  }

  /** The counterexample's lattice: risk-neutral weights 1/3 and 2/3, no
      discounting, and spots 100, 200 and 50. */
  lemma CounterexampleLattice()
    ensures var v := CounterexampleValuation();
      && v.pu == 1.0 / 3.0 && v.pd == 2.0 / 3.0 && v.df == 1.0 && v.n == 1 && v.shares == 1.0
      && v.s0 == 100.0 && v.strike == 100.0 && v.opt == "call"
      && v.spot(0, 0) == 100.0 && v.spot(1, 1) == 200.0 && v.spot(1, 0) == 50.0
      && NonNegative(v)
  {
    CounterexampleParams();
  }

  /** Its vanilla price is 100/3, and its knock-in value 0. */
  lemma CounterexampleValues()
    ensures var v, b := CounterexampleValuation(), Barrier(300.0, "up");
      Vanilla(v, 0, 0) == 100.0 / 3.0 && KnockIn(v, b, 0, 0) == 0.0
  {
    var v, b := CounterexampleValuation(), Barrier(300.0, "up");
    CounterexampleLattice();
    assert Vanilla(v, 1, 1) == 100.0 && Vanilla(v, 1, 0) == 0.0;
    assert Vanilla(v, 0, 0) == Step(v, 100.0, 0.0) == 100.0 / 3.0;
    assert KnockIn(v, b, 1, 1) == 0.0 && KnockIn(v, b, 1, 0) == 0.0;
    assert KnockIn(v, b, 0, 0) == Step(v, 0.0, 0.0) == 0.0;
  }
}
