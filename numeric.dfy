/*
 * Numeric helpers shared by the rain explainer modules: a model of a JavaScript
 * number (finite, NaN or an infinity), the clamp-to-[0,1] helper that every
 * source file repeats, Math.round, range clamping, the clamped linear
 * interpolation, and the lower-bound binary search over a cumulative
 * distribution that three samplers share.
 */
module Numeric {

  datatype Option<T> = None | Some(value: T)

  /** A JavaScript number value. */
  datatype Num = Finite(value: real) | NaN | Infinity(positive: bool)

  function Min(a: real, b: real): real { if a <= b then a else b }
  function Max(a: real, b: real): real { if a >= b then a else b }
  function Abs(x: real): real { if x < 0.0 then -x else x }

  predicate InUnit(x: real) { 0.0 <= x <= 1.0 }

  /** clamp01 on a finite number: values below 0 become 0, above 1 become 1. */
  function ClampUnit(x: real): (r: real)
    ensures InUnit(r)
    ensures InUnit(x) ==> r == x
    ensures x < 0.0 ==> r == 0.0
    ensures x > 1.0 ==> r == 1.0
  {
    if x < 0.0 then 0.0 else if x > 1.0 then 1.0 else x
  }

  /** clamp01 on any JavaScript number: NaN and the infinities become 0. */
  function Clamp01(n: Num): (r: real)
    ensures InUnit(r)
    ensures !n.Finite? ==> r == 0.0
    ensures n.Finite? && InUnit(n.value) ==> r == n.value
  {
    match n
    case Finite(x) => ClampUnit(x)
    case _ => 0.0
  }

  /** JavaScript truthiness of a number: 0 and NaN are falsy. */
  predicate Truthy(n: Num) {
    match n
    case Finite(x) => x != 0.0
    case NaN => false
    case Infinity(_) => true
  }

  /** `n || fallback` for a numeric `n`. */
  function OrDefault(n: Num, fallback: real): (r: Num)
    ensures Truthy(n) ==> r == n
    ensures !Truthy(n) ==> r == Finite(fallback)
  {
    if Truthy(n) then n else Finite(fallback)
  }

  /** Math.round on a finite number: the nearest integer, halves rounding up. */
  function Round(x: real): (r: int)
    ensures x - 0.5 < r as real <= x + 0.5
  {
    (x + 0.5).Floor
  }

  /** clampRange(value, min, max). */
  function ClampRange(v: real, lo: real, hi: real): (r: real)
    requires lo <= hi
    ensures lo <= r <= hi
    ensures lo <= v <= hi ==> r == v
    ensures v < lo ==> r == lo
    ensures v > hi ==> r == hi
  {
    if v < lo then lo else if v > hi then hi else v
  }

  lemma ScaleUnitBounds(d: real, t: real)
    requires InUnit(t)
    ensures d >= 0.0 ==> 0.0 <= d * t <= d
    ensures d < 0.0 ==> d <= d * t <= 0.0
  {
    if d >= 0.0 {
      assert d * t <= d * 1.0;
    } else {
      assert d * t >= d * 1.0;
    }
  }

  /** The sign fact that the probability proofs feed to the solver by hand. */
  lemma MulNonneg(a: real, b: real)
    requires a >= 0.0 && b >= 0.0
    ensures a * b >= 0.0
  {
  }

  /** lerp(a, b, t) = a + (b - a) * clamp01(t): always between a and b. */
  function Lerp(a: real, b: real, t: real): (r: real)
    ensures Min(a, b) <= r <= Max(a, b)
    ensures t <= 0.0 ==> r == a
    ensures t >= 1.0 ==> r == b
  {
    var c := ClampUnit(t);
    var d := b - a;
    ScaleUnitBounds(d, c);
    assert a + d == b;
    a + d * c
  }

  predicate Nondecreasing(s: seq<real>) {
    forall i, j :: 0 <= i <= j < |s| ==> s[i] <= s[j]
  }

  /**
   * `lo` is the lower bound of `target` in `cdf`: every earlier entry is below
   * the target and `lo` is either the first entry that reaches it or the last
   * index.
   */
  predicate IsLowerBound(cdf: seq<real>, target: real, lo: nat) {
    lo < |cdf|
    && (forall k :: 0 <= k < lo ==> cdf[k] < target)
    && (lo == |cdf| - 1 || target <= cdf[lo])
  }

  /**
   * The binary search shared by the samplers and the quantile inversion:
   * `lo = 0, hi = len - 1; while lo < hi { mid = (lo + hi) >> 1;
   * if cdf[mid] >= target then hi = mid else lo = mid + 1 }`.
   */
  method SearchCdf(cdf: seq<real>, target: real) returns (lo: nat)
    requires |cdf| > 0
    ensures lo < |cdf|
    ensures Nondecreasing(cdf) ==> IsLowerBound(cdf, target, lo)
  {
    lo := 0;
    var hi := |cdf| - 1;
    while lo < hi
      invariant 0 <= lo <= hi < |cdf|
      invariant Nondecreasing(cdf) ==> forall k :: 0 <= k < lo ==> cdf[k] < target
      invariant hi == |cdf| - 1 || target <= cdf[hi]
      decreases hi - lo
    {
      var mid := (lo + hi) / 2;
      if cdf[mid] >= target {
        hi := mid;
      } else {
        lo := mid + 1;
      }
    }
  }

  lemma LowerBoundUnique(cdf: seq<real>, target: real, a: nat, b: nat)
    requires IsLowerBound(cdf, target, a) && IsLowerBound(cdf, target, b)
    ensures a == b
  {
  }

  /** A lower bound never moves left when the target grows. */
  lemma LowerBoundMonotone(cdf: seq<real>, t1: real, t2: real, a: nat, b: nat)
    requires t1 <= t2
    requires IsLowerBound(cdf, t1, a) && IsLowerBound(cdf, t2, b)
    ensures a <= b
  {
  }

  /**
   * The lower bound computed by a left-to-right scan from `from`: the first
   * entry that reaches `target`, or the last index when none does.
   */
  function FirstReaching(cdf: seq<real>, target: real, from: nat): (lo: nat)
    requires from < |cdf|
    ensures from <= lo < |cdf|
    ensures forall k :: from <= k < lo ==> cdf[k] < target
    ensures lo == |cdf| - 1 || target <= cdf[lo]
    decreases |cdf| - from
  {
    if from == |cdf| - 1 || target <= cdf[from] then from
    else FirstReaching(cdf, target, from + 1)
  }

  /** Whatever the search strategy, a lower bound is the scan's answer. */
  lemma LowerBoundIsFirstReaching(cdf: seq<real>, target: real, lo: nat)
    requires IsLowerBound(cdf, target, lo)
    ensures lo == FirstReaching(cdf, target, 0)
  {
    var f := FirstReaching(cdf, target, 0);
    assert IsLowerBound(cdf, target, f);
    LowerBoundUnique(cdf, target, lo, f);
  }

  /**
   * The inverse-CDF sample both samplers return once the search has found
   * `lo`: 0 when `lo` is the first bin, otherwise the position inside bin
   * `lo - 1 .. lo` found by linear interpolation of the cumulative mass
   * (interpolation is skipped, giving the bin's left edge, when the bin's mass
   * is not above `minSpan`), divided by the number of bins and clamped.
   */
  function CdfPoint(cdf: seq<real>, target: real, lo: nat, minSpan: real): (x: real)
    requires lo < |cdf| && minSpan >= 0.0
    ensures InUnit(x)
    ensures lo == 0 ==> x == 0.0
  {
    if lo == 0 then 0.0
    else
      var span := cdf[lo] - cdf[lo - 1];
      var frac := if span > minSpan then (target - cdf[lo - 1]) / span else 0.0;
      ClampUnit(((lo - 1) as real + frac) / (|cdf| - 1) as real)
  }

  lemma DivideMonotone(a: real, b: real, d: real)
    requires a <= b && d > 0.0
    ensures a / d <= b / d
  {
    assert b / d - a / d == (b - a) / d;
  }

  /**
   * When the target falls inside bin `lo - 1 .. lo`, the sample lies in that
   * bin's slice [(lo - 1) / bins, lo / bins] of the unit interval.
   */
  lemma CdfPointInBin(cdf: seq<real>, target: real, lo: nat, minSpan: real)
    requires 0 < lo < |cdf| && minSpan >= 0.0
    requires cdf[lo - 1] < target <= cdf[lo]
    ensures ((lo - 1) as real) / ((|cdf| - 1) as real) <= CdfPoint(cdf, target, lo, minSpan)
    ensures CdfPoint(cdf, target, lo, minSpan) <= (lo as real) / ((|cdf| - 1) as real)
  {
    var bins := (|cdf| - 1) as real;
    var span := cdf[lo] - cdf[lo - 1];
    var frac := if span > minSpan then (target - cdf[lo - 1]) / span else 0.0;
    if span > minSpan {
      assert 0.0 <= target - cdf[lo - 1] <= span;
      assert 0.0 <= frac <= 1.0;
    }
    DivideMonotone((lo - 1) as real, (lo - 1) as real + frac, bins);
    DivideMonotone((lo - 1) as real + frac, lo as real, bins);
    DivideMonotone(lo as real, bins, bins);
  }
}
