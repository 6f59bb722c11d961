/**
 * Tolerance-aware comparisons of the pricer base class
 * (src/model/european/derivatives.py). Each first refuses a tolerance that
 * is not small against the squared step size h^2, then compares.
 */
module Precision {
  import opened Wrappers
  import Lattice

  /** The default relative tolerance of math.isclose. */
  const IsCloseRelTol: real := 0.000000001

  /** The default relative tolerance of np.allclose. */
  const AllCloseRelTol: real := 0.00001

  function Abs(x: real): real
  {
    if x < 0.0 then -x else x
  }

  /** math.isclose(a, b, abs_tol=eps) for eps >= 0. */
  predicate IsClose(a: real, b: real, eps: real)
    ensures Abs(a - b) <= eps ==> IsClose(a, b, eps)
    ensures IsClose(a, b, eps) ==> Abs(a - b) <= eps || Abs(a - b) <= IsCloseRelTol * Abs(a) || Abs(a - b) <= IsCloseRelTol * Abs(b)
  {
    Abs(a - b) <= Lattice.Max(IsCloseRelTol * Lattice.Max(Abs(a), Abs(b)), eps)
  }

  /** np.allclose(a, b, atol=eps): every pair within eps + 1e-5 |b|. */
  predicate AllClose(a: seq<real>, b: seq<real>, eps: real)
    requires |a| == |b|
    ensures eps >= 0.0 && a == b ==> AllClose(a, b, eps)
  {
    forall k :: 0 <= k < |a| ==> Abs(a[k] - b[k]) <= eps + AllCloseRelTol * Abs(b[k])
  }

  /** The guard shared by the three comparisons. */
  predicate TooCoarse(h: real, eps: real)
  {
    h * h < eps
  }

  /** compare_float: PrecisionError when h^2 < eps; then the ValueError
      math.isclose raises for a negative tolerance; then 0 when close, 1
      when a is the greater, -1 when b is. */
  function CompareFloat(h: real, a: real, b: real, eps: real): (r: Result<int>)
    ensures r.Failure? <==> TooCoarse(h, eps) || eps < 0.0
    ensures TooCoarse(h, eps) ==> r == Failure(PrecisionError)
    ensures r.Success? ==> -1 <= r.value <= 1
    ensures !TooCoarse(h, eps) && eps >= 0.0 ==> (r == Success(0) <==> IsClose(a, b, eps))
    ensures r == Success(1) ==> a - b > eps
    ensures r == Success(-1) ==> b - a > eps
  {
    if TooCoarse(h, eps) then Failure(PrecisionError)
    else if eps < 0.0 then Failure(NegativeTolerance)
    else if IsClose(a, b, eps) then Success(0)
    else if a > b then Success(1)
    else Success(-1)
  }

  /** Every value compares equal to itself. */
  lemma CompareReflexive(h: real, a: real, eps: real)
    requires !TooCoarse(h, eps) && eps >= 0.0
    ensures CompareFloat(h, a, a, eps) == Success(0)
  {
    assert Abs(a - a) == 0.0;
    assert Lattice.Max(IsCloseRelTol * Lattice.Max(Abs(a), Abs(a)), eps) >= 0.0;
  }

  /** Swapping the arguments negates the result and keeps every error. */
  lemma CompareAntisymmetric(h: real, a: real, b: real, eps: real)
    ensures CompareFloat(h, a, b, eps).Failure? <==> CompareFloat(h, b, a, eps).Failure?
    ensures CompareFloat(h, a, b, eps).Success? ==>
      CompareFloat(h, b, a, eps).value == -CompareFloat(h, a, b, eps).value
  {
    assert Abs(a - b) == Abs(b - a);
    assert Lattice.Max(Abs(a), Abs(b)) == Lattice.Max(Abs(b), Abs(a));
  }

  /** Values further apart than both tolerances compare by their order. */
  lemma CompareSeparated(h: real, a: real, b: real, eps: real)
    requires !TooCoarse(h, eps) && eps >= 0.0
    requires a - b > Lattice.Max(IsCloseRelTol * Lattice.Max(Abs(a), Abs(b)), eps)
    ensures CompareFloat(h, a, b, eps) == Success(1)
    ensures CompareFloat(h, b, a, eps) == Success(-1)
  {
    CompareAntisymmetric(h, a, b, eps);
  }

  /** is_all_float_ge: PrecisionError when h^2 < eps; otherwise, element
      by element, allclose(a, b) or a[k] > b[k]. */
  function IsAllFloatGe(h: real, a: seq<real>, b: seq<real>, eps: real): (r: Result<seq<bool>>)
    requires |a| == |b|
    ensures r.Failure? <==> TooCoarse(h, eps)
    ensures r.Failure? ==> r.error == PrecisionError
    ensures r.Success? ==> |r.value| == |a|
    ensures r.Success? ==> forall k :: 0 <= k < |a| ==> (r.value[k] <==> AllClose(a, b, eps) || a[k] > b[k])
  {
    if TooCoarse(h, eps) then Failure(PrecisionError)
    else
      var close := AllClose(a, b, eps);
      Success(seq(|a|, k requires 0 <= k < |a| => close || a[k] > b[k]))
  }

  /** is_all_float_le: the mirror of is_all_float_ge, with a[k] < b[k]. */
  function IsAllFloatLe(h: real, a: seq<real>, b: seq<real>, eps: real): (r: Result<seq<bool>>)
    requires |a| == |b|
    ensures r.Failure? <==> TooCoarse(h, eps)
    ensures r.Failure? ==> r.error == PrecisionError
    ensures r.Success? ==> |r.value| == |a|
    ensures r.Success? ==> forall k :: 0 <= k < |a| ==> (r.value[k] <==> AllClose(a, b, eps) || a[k] < b[k])
  {
    if TooCoarse(h, eps) then Failure(PrecisionError)
    else
      var close := AllClose(a, b, eps);
      Success(seq(|a|, k requires 0 <= k < |a| => close || a[k] < b[k]))
  }

  /** An element is both >= and <= exactly when the whole arrays are close,
      and at least one of them exactly when the arrays are close or the
      element differs. */
  lemma GeAndLe(h: real, a: seq<real>, b: seq<real>, eps: real, k: nat)
    requires |a| == |b| && k < |a| && !TooCoarse(h, eps)
    ensures IsAllFloatGe(h, a, b, eps).value[k] && IsAllFloatLe(h, a, b, eps).value[k] <==> AllClose(a, b, eps)
    ensures IsAllFloatGe(h, a, b, eps).value[k] || IsAllFloatLe(h, a, b, eps).value[k] <==> AllClose(a, b, eps) || a[k] != b[k]
  {
  }
}
