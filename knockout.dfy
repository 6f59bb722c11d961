/**
 * Knock-out barrier pricing (src/model/european/barrier_knockout.py): a
 * vectorised strategy that keeps one shrinking array of level values, and
 * an in-place strategy that sweeps one array of n + 1 values, level by
 * level, in ascending j. Both zero every node whose spot trips the barrier.
 */
module KnockOutPricing {
  import opened Wrappers
  import opened Lattice
  import opened Calibration

  /** A constructed knock-out option: the vanilla contract it extends, its
      barrier and the strategy flag. */
  datatype KnockOutContract = KnockOutContract(contract: Contract, barrier: Barrier, fast: bool)

  /** The constructor as written passes `fast` into the parent's `model`
      slot, so the tag check rejects it whatever `fast` is. */
  function ConstructAsWritten(terms: Terms, barrier: Barrier, fast: bool, t: Transcendentals): (r: Result<KnockOutContract>)
    requires Admissible(t)
    ensures r == Failure(InvalidModel)
  {
    match Construct(terms, Flag(fast), t)
    case Failure(e) => Failure(e)
    case Success(c) => Success(KnockOutContract(c, barrier, fast))
  }

  /** The constructor as evidently intended: the parent's default CRR model,
      and `fast` recorded for price to read. */
  function ConstructCorrected(terms: Terms, barrier: Barrier, fast: bool, t: Transcendentals): (r: Result<KnockOutContract>)
    requires Admissible(t)
    ensures r.Failure? <==> terms.n == 0
    ensures r.Success? ==> Valid(r.value) && r.value.fast == fast && r.value.barrier == barrier
                           && r.value.contract.terms == terms
  {
    match Construct(terms, Tag("CRR"), t)
    case Failure(e) => Failure(e)
    case Success(c) => Success(KnockOutContract(c, barrier, fast))
  }

  /** A lattice contract whose spot function steps by u and d, as
      _fast_price relies on when it builds its spot array from u and d. */
  predicate Valid(k: KnockOutContract)
  {
    k.contract.model.LatticeModel? &&
    k.contract.model.p.upFactor == k.contract.model.p.u &&
    k.contract.model.p.downFactor == k.contract.model.p.d
  }

  /** Boolean-mask assignment PV[mask] = 0, the mask being the barrier test
      on the matching spot. */
  function Mask(pv: seq<real>, spots: seq<real>, b: Barrier): (r: seq<real>)
    requires |spots| == |pv|
    ensures |r| == |pv|
    ensures forall k :: 0 <= k < |r| ==> r[k] == if Trips(b, spots[k]) then 0.0 else pv[k]
  {
    seq(|pv|, k requires 0 <= k < |pv| => if Trips(b, spots[k]) then 0.0 else pv[k])
  }

  /** The knock-out valuation _fast_price works with: the spot of node
      (i, j) is s0 * u^j * d^(i-j). */
  function FastValuation(v: Valuation, u: real, d: real): Valuation
  {
    v.(spot := MultiplicativeSpot(v.s0, u, d))
  }

  /** _fast_price: the spot array is s0 * u^k * d^(i-k); an option kind
      other than call or put raises; the level array is recomputed from
      adjacent pairs, shrunk by one and masked at every level, level 0
      included. */
  method FastPrice(v: Valuation, b: Barrier, u: real, d: real) returns (r: Result<real>)
    ensures v.opt != "call" && v.opt != "put" ==> r == Failure(InvalidOptionKind)
    ensures v.opt == "call" || v.opt == "put" ==> r == Success(KnockOut(FastValuation(v, u, d), b, 0, 0))
  {
    var S := seq(v.n + 1, (k: nat) => NodeSpot(v.s0, u, d, v.n, k));
    var PV: seq<real>;
    if v.opt == "call" {
      PV := seq(v.n + 1, k requires 0 <= k < v.n + 1 => Max(S[k] - v.strike, 0.0) * v.shares);
    } else if v.opt == "put" {
      PV := seq(v.n + 1, k requires 0 <= k < v.n + 1 => Max(v.strike - S[k], 0.0) * v.shares);
    } else {
      return Failure(InvalidOptionKind);
    }
    ghost var w := FastValuation(v, u, d);
    LevelSpots(v.s0, u, d, w, v.n, S);
    assert forall k :: 0 <= k <= v.n ==> PV[k] == Terminal(w, k);
    PV := Mask(PV, S, b);
    var root := ShrinkingSweep(v, b, u, d, PV);
    r := Success(root);
  }

  /** The loop of _fast_price: from the masked terminal row down to the
      root, one shrink-and-mask per level. */
  method ShrinkingSweep(v: Valuation, b: Barrier, u: real, d: real, terminal: seq<real>) returns (root: real)
    requires |terminal| == v.n + 1
    requires LevelHolds(FastValuation(v, u, d), b, v.n, terminal)
    ensures root == KnockOut(FastValuation(v, u, d), b, 0, 0)
  {
    ghost var w := FastValuation(v, u, d);
    var PV := terminal;
    var i := v.n;
    while i > 0
      invariant 0 <= i <= v.n && LevelHolds(w, b, i, PV)
    {
      i := i - 1;
      ghost var above := PV;
      // one backward step over the i + 1 surviving entries, then drop the last
      var next := seq(i + 1, k requires 0 <= k < i + 1 => Step(v, PV[k + 1], PV[k]));
      PV := next + PV[i + 1..];
      assert PV[..i + 1] == next;
      PV := PV[..i + 1];
      var S := seq(i + 1, (k: nat) => NodeSpot(v.s0, u, d, i, k));
      LevelSpots(v.s0, u, d, w, i, S);
      MaskedLevel(v, w, b, i, above, next, S);
      PV := Mask(PV, S, b);
    }
    root := PV[0];
  }

  lemma LevelSpots(s0: real, u: real, d: real, w: Valuation, i: nat, S: seq<real>)
    requires w.spot == MultiplicativeSpot(s0, u, d)
    requires |S| == i + 1 && forall k :: 0 <= k <= i ==> S[k] == NodeSpot(s0, u, d, i, k)
    ensures forall k :: 0 <= k <= i ==> S[k] == w.spot(i, k)
  {
  }

  /** `pv` holds the knock-out values of level i. */
  ghost predicate LevelHolds(w: Valuation, b: Barrier, i: nat, pv: seq<real>)
    requires i <= w.n
  {
    |pv| == i + 1 && forall k :: 0 <= k <= i ==> pv[k] == KnockOut(w, b, i, k)
  }

  /** One level of the vectorised sweep: the pairwise step of the level
      above, masked by the barrier, is the knock-out value of the level. */
  lemma MaskedLevel(v: Valuation, w: Valuation, b: Barrier, i: nat, above: seq<real>, next: seq<real>, S: seq<real>)
    requires w == v.(spot := w.spot)
    requires i < w.n && LevelHolds(w, b, i + 1, above) && |next| == i + 1 && |S| == i + 1
    requires forall k :: 0 <= k <= i ==> next[k] == Step(v, above[k + 1], above[k])
    requires forall k :: 0 <= k <= i ==> S[k] == w.spot(i, k)
    ensures LevelHolds(w, b, i, Mask(next, S, b))
  {
    forall k | 0 <= k <= i
      ensures Mask(next, S, b)[k] == KnockOut(w, b, i, k)
    {
      assert above[k + 1] == KnockOut(w, b, i + 1, k + 1);
      assert above[k] == KnockOut(w, b, i + 1, k);
    }
  }

  /** _slow_price: 0 at once when the initial spot trips the barrier;
      otherwise the terminal row (0 at a tripped node, the payoff
      elsewhere), then the levels swept in place. */
  method SlowPrice(v: Valuation, b: Barrier) returns (r: real)
    ensures r == if Trips(b, v.s0) then 0.0 else KnockOut(v, b, 0, 0)
  {
    var pv := new real[v.n + 1](_ => 0.0);
    if Trips(b, v.s0) {
      return 0.0;
    }
    for j := 0 to v.n + 1
      invariant forall k :: 0 <= k < j ==> pv[k] == KnockOut(v, b, v.n, k)
    {
      var spot := v.spot(v.n, j);
      if !Trips(b, spot) {
        pv[j] := Payoff(v.opt, v.strike, spot, v.shares);
      } else {
        pv[j] := 0.0;
      }
    }
    r := SweepLevels(v, b, pv);
  }

  /** The nested loop shared by the in-place strategies: levels n-1 .. 0,
      each swept in ascending j, a tripped node set to 0 and any other
      node to the one-step rule on pv[j + 1] and pv[j]. Ascending j is
      sound because pv[j + 1] still holds the level above when pv[j] is
      overwritten. */
  method SweepLevels(v: Valuation, b: Barrier, pv: array<real>) returns (root: real)
    requires pv.Length == v.n + 1
    requires forall k :: 0 <= k <= v.n ==> pv[k] == KnockOut(v, b, v.n, k)
    modifies pv
    ensures root == KnockOut(v, b, 0, 0)
  {
    var i := v.n;
    while i > 0
      invariant 0 <= i <= v.n
      invariant forall k :: 0 <= k <= i ==> pv[k] == KnockOut(v, b, i, k)
    {
      i := i - 1;
      for j := 0 to i + 1
        invariant forall k :: 0 <= k < j ==> pv[k] == KnockOut(v, b, i, k)
        invariant forall k :: j <= k <= i + 1 ==> pv[k] == KnockOut(v, b, i + 1, k)
      {
        var spot := v.spot(i, j);
        if Trips(b, spot) {
          pv[j] := 0.0;
        } else {
          pv[j] := Step(v, pv[j + 1], pv[j]);
        }
      }
    }
    root := pv[0];
  }

  /** With a multiplicative spot the root is the initial spot, so the
      knock-out value is already 0 when the initial spot trips: the early
      return of _slow_price agrees with the masking of _fast_price. */
  lemma RootTripIsZero(v: Valuation, b: Barrier, u: real, d: real)
    ensures Trips(b, v.s0) ==> KnockOut(FastValuation(v, u, d), b, 0, 0) == 0.0
  {
    NodeSpotSteps(v.s0, u, d, 0, 0);
  }

  /** Both strategies on the same multiplicative lattice return the same
      price for a call or a put. */
  method CompareStrategies(v: Valuation, b: Barrier, u: real, d: real) returns (fast: Result<real>, slow: real)
    ensures v.opt == "call" || v.opt == "put" ==> fast == Success(slow)
    ensures v.opt != "call" && v.opt != "put" ==> fast == Failure(InvalidOptionKind)
  {
    fast := FastPrice(v, b, u, d);
    slow := SlowPrice(FastValuation(v, u, d), b);
    RootTripIsZero(v, b, u, d);
  }

  /** price: the vectorised strategy when `fast` is set, the in-place one
      otherwise; for a call or a put both give the knock-out value, and the
      vectorised one refuses every other option kind. */
  method Price(k: KnockOutContract, s0: real, shares: real) returns (r: Result<real>)
    requires Valid(k)
    ensures !k.fast ==> r.Success?
    ensures var v := ValuationOf(k.contract.terms, k.contract.model.p, s0, shares);
      k.contract.terms.opt == "call" || k.contract.terms.opt == "put" || !k.fast ==>
        r == Success(KnockOut(v, k.barrier, 0, 0))
    ensures k.fast && k.contract.terms.opt != "call" && k.contract.terms.opt != "put" ==>
      r == Failure(InvalidOptionKind)
  {
    var p := k.contract.model.p;
    var v := ValuationOf(k.contract.terms, p, s0, shares);
    RootTripIsZero(v, k.barrier, p.u, p.d);
    if k.fast {
      r := FastPrice(v, k.barrier, p.u, p.d);
    } else {
      var slow := SlowPrice(v, k.barrier);
      r := Success(slow);
    }
  }
}
