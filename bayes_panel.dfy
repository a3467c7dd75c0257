/*
 * The numeric core of the prior/likelihood/posterior panel: Beta curve shapes,
 * a density sampled on a grid of [0, 1] and turned into a cumulative
 * distribution by the trapezoid rule, quantiles and the two credible
 * intervals read off that distribution, the inverse-CDF sampler, and the
 * particle pool that the sampler refills.
 *
 * The Beta density itself (log, exp) is a parameter: every property below
 * holds whatever non-negative numbers it produces. Random draws are a
 * caller-supplied function from draw number to value.
 */
module BayesPanel {
  import opened Numeric

  /** EPS and SHAPE_EPS. */
  const Eps: real := 0.000001
  const ShapeEps: real := 0.001

  /** DEFAULTS. */
  const DefaultConcentrationPrior: real := 18.0
  const DefaultSampleCount: real := 320.0
  const DefaultParticleCount: nat := 320

  /** The smallest grid buildCurve accepts. */
  const MinCurveSize: nat := 16

  // ------------------------------------------------------------------ shapes

  datatype Shape = Shape(alpha: Num, beta: Num)

  /** A shape parameter is a finite number no smaller than SHAPE_EPS, or +Infinity. */
  predicate ShapeParameter(n: Num) {
    (n.Finite? && n.value >= ShapeEps) || n == Infinity(true)
  }

  /** Math.max(lo, v) for a number that is not NaN. */
  function AtLeast(lo: real, v: Num): (r: Num)
    requires !v.NaN?
    ensures r.Finite? ==> r.value >= lo
    ensures r.Finite? || r == Infinity(true)
    ensures v.Finite? ==> r == Finite(Max(lo, v.value))
  {
    match v
    case Finite(x) => Finite(Max(lo, x))
    case Infinity(positive) => if positive then v else Finite(lo)
  }

  /** The mean held away from 0 and 1: min(1 - EPS, max(EPS, clamp01(mean))). */
  function ClampedMean(mean: Num): (m: real)
    ensures Eps <= m <= 1.0 - Eps
    ensures mean.Finite? && Eps <= mean.value <= 1.0 - Eps ==> m == mean.value
  {
    Min(1.0 - Eps, Max(Eps, Clamp01(mean)))
  }

  /** max(SHAPE_EPS, Number(concentration) || 1). */
  function Concentration(concentration: Num): (c: Num)
    ensures ShapeParameter(c)
    ensures !Truthy(concentration) ==> c == Finite(1.0)
  {
    AtLeast(ShapeEps, OrDefault(concentration, 1.0))
  }

  /** A positive weight times a shape parameter, as a JavaScript number. */
  function Weighted(w: real, c: Num): (r: Num)
    requires w > 0.0 && ShapeParameter(c)
    ensures !r.NaN?
    ensures c.Finite? ==> r == Finite(w * c.value)
  {
    if c.Finite? then Finite(w * c.value) else Infinity(true)
  }

  /**
   * betaShape: alpha = max(SHAPE_EPS, m c), beta = max(SHAPE_EPS, (1 - m) c)
   * for the clamped mean m and concentration c.
   */
  function BetaShape(mean: Num, concentration: Num): (s: Shape)
    ensures ShapeParameter(s.alpha) && ShapeParameter(s.beta)
  {
    var m := ClampedMean(mean);
    var c := Concentration(concentration);
    Shape(AtLeast(ShapeEps, Weighted(m, c)), AtLeast(ShapeEps, Weighted(1.0 - m, c)))
  }

  /**
   * When neither floor bites, the shape's mean alpha / (alpha + beta) is the
   * clamped mean the shape was built from.
   */
  lemma BetaShapeKeepsMean(mean: Num, concentration: real)
    requires concentration >= ShapeEps
    requires ClampedMean(mean) * concentration >= ShapeEps
    requires (1.0 - ClampedMean(mean)) * concentration >= ShapeEps
    ensures var s := BetaShape(mean, Finite(concentration));
      s.alpha.Finite? && s.beta.Finite?
      && s.alpha.value / (s.alpha.value + s.beta.value) == ClampedMean(mean)
  {
    SplitKeepsShare(ClampedMean(mean), concentration);
  }

  /** Splitting c into m c and (1 - m) c keeps the share m. */
  lemma SplitKeepsShare(m: real, c: real)
    requires c > 0.0
    ensures (m * c) / (m * c + (1.0 - m) * c) == m
  {
    assert m * c + (1.0 - m) * c == c;
  }

  // ------------------------------------------------------------------- curves

  /**
   * rawBetaDensity: the density at x (held inside [EPS, 1 - EPS]), with a
   * non-finite or negative value replaced by 0.
   */
  function RawBetaDensity(x: real, shape: Shape, density: (real, Shape) -> Num): (y: real)
    ensures y >= 0.0
    ensures var d := density(Min(1.0 - Eps, Max(Eps, x)), shape);
      (d.Finite? && d.value >= 0.0 ==> y == d.value) && (!d.Finite? || d.value < 0.0 ==> y == 0.0)
  {
    var d := density(Min(1.0 - Eps, Max(Eps, x)), shape);
    if d.Finite? && d.value >= 0.0 then d.value else 0.0
  }

  /**
   * `Math.max(16, Number(sampleCount) || 320)` as an array length; `None`
   * when `new Array` rejects it (a fraction or +Infinity).
   */
  function CurveSize(sampleCount: Num): (n: Option<nat>)
    ensures n.Some? ==> n.value >= MinCurveSize
    ensures !Truthy(sampleCount) ==> n == Some(320)
  {
    match AtLeast(MinCurveSize as real, OrDefault(sampleCount, DefaultSampleCount))
    case Finite(v) => if v == v.Floor as real then Some(v.Floor as nat) else None
    case _ => None
  }

  /** The grid step 1 / (count - 1). */
  function Step(count: nat): real
    requires count >= 2
  {
    1.0 / (count - 1) as real
  }

  /** Grid point i, i * dx. */
  function GridPoint(count: nat, i: nat): real
    requires count >= 2
  {
    i as real * Step(count)
  }

  /** The grid points i * dx. */
  function Grid(count: nat): (xs: seq<real>)
    requires count >= 2
    ensures |xs| == count
  {
    seq(count, i requires 0 <= i => GridPoint(count, i))
  }

  /** Grid point i is i / (count - 1): the grid runs from 0 to 1 in equal steps. */
  lemma GridPoints(count: nat)
    requires count >= 2
    ensures forall i :: 0 <= i < count ==> Grid(count)[i] == i as real / (count - 1) as real
    ensures Grid(count)[0] == 0.0 && Grid(count)[count - 1] == 1.0
    ensures forall i, j :: 0 <= i < j < count ==> Grid(count)[i] < Grid(count)[j]
  {
    var d := (count - 1) as real;
    forall i | 0 <= i < count
      ensures Grid(count)[i] == i as real / d
    {
      GridPointIs(count, i);
    }
    forall i, j | 0 <= i < j < count
      ensures Grid(count)[i] < Grid(count)[j]
    {
      GridPointIs(count, i);
      GridPointIs(count, j);
      DivideIncreasing(i as real, j as real, d);
    }
    GridPointIs(count, 0);
    GridPointIs(count, count - 1);
    DivideSelf(d);
  }

  lemma GridPointIs(count: nat, i: nat)
    requires count >= 2 && i < count
    ensures Grid(count)[i] == i as real / (count - 1) as real
  {
    TimesReciprocal(i as real, (count - 1) as real);
  }

  lemma TimesReciprocal(x: real, d: real)
    requires d > 0.0
    ensures x * (1.0 / d) == x / d
  {
  }

  lemma DivideIncreasing(a: real, b: real, d: real)
    requires a < b && d > 0.0
    ensures a / d < b / d
  {
    DividePositive(b - a, d);
    assert b / d - a / d == (b - a) / d;
  }

  lemma DivideSelf(d: real)
    requires d > 0.0
    ensures d / d == 1.0
  {
  }

  /** The area of one trapezoid of width dx between two density values. */
  function Trapezoid(left: real, right: real, dx: real): real {
    (left + right) * 0.5 * dx
  }

  /** The trapezoid-rule running total up to grid point k. */
  function Running(pdf: seq<real>, dx: real, k: nat): real
    requires k < |pdf|
  {
    if k == 0 then 0.0 else Running(pdf, dx, k - 1) + Trapezoid(pdf[k - 1], pdf[k], dx)
  }

  predicate AllNonNegative(s: seq<real>) {
    forall i :: 0 <= i < |s| ==> s[i] >= 0.0
  }

  /** A trapezoid over non-negative values and a non-negative step has non-negative area. */
  lemma TrapezoidNonNegative(left: real, right: real, dx: real)
    requires left >= 0.0 && right >= 0.0 && dx >= 0.0
    ensures Trapezoid(left, right, dx) >= 0.0
  {
    MulNonneg(left + right, 0.5 * dx);
    assert (left + right) * 0.5 * dx == (left + right) * (0.5 * dx);
  }

  lemma RunningStep(pdf: seq<real>, dx: real, k: nat)
    requires AllNonNegative(pdf) && dx >= 0.0 && 0 < k < |pdf|
    ensures Running(pdf, dx, k - 1) <= Running(pdf, dx, k)
  {
    TrapezoidNonNegative(pdf[k - 1], pdf[k], dx);
  }

  /** With a non-negative density and step the running total never decreases. */
  lemma {:induction false} RunningMonotone(pdf: seq<real>, dx: real, a: nat, b: nat)
    requires AllNonNegative(pdf) && dx >= 0.0
    requires a <= b < |pdf|
    ensures Running(pdf, dx, a) <= Running(pdf, dx, b)
    decreases b - a
  {
    if b > a {
      RunningMonotone(pdf, dx, a, b - 1);
      RunningStep(pdf, dx, b);
    }
  }

  /** The running totals at grid points 0 .. n - 1. */
  function Runnings(pdf: seq<real>, dx: real, n: nat): (r: seq<real>)
    requires n <= |pdf|
    ensures |r| == n
  {
    if n == 0 then [] else Runnings(pdf, dx, n - 1) + [Running(pdf, dx, n - 1)]
  }

  lemma {:induction false} RunningsAt(pdf: seq<real>, dx: real, n: nat)
    requires n <= |pdf|
    ensures forall k :: 0 <= k < n ==> Runnings(pdf, dx, n)[k] == Running(pdf, dx, k)
  {
    if n > 0 {
      RunningsAt(pdf, dx, n - 1);
    }
  }

  /**
   * The cumulative distribution of buildCurve and buildCdfFromCurve: the
   * running totals, with the last entry forced to 1.
   */
  function CdfOf(pdf: seq<real>, dx: real): (cdf: seq<real>)
    ensures |cdf| == |pdf|
    ensures |pdf| > 0 ==> cdf[|pdf| - 1] == 1.0
    ensures forall i :: 0 <= i < |pdf| - 1 ==> cdf[i] == Running(pdf, dx, i)
  {
    RunningsAt(pdf, dx, |pdf|);
    var r := Runnings(pdf, dx, |pdf|);
    if |pdf| == 0 then [] else r[|pdf| - 1 := 1.0]
  }

  /**
   * The distribution starts at 0, ends at 1, and is nondecreasing when the
   * density is non-negative and its total mass does not exceed 1 (otherwise
   * forcing the last entry to 1 would step down).
   */
  lemma CdfOfShape(pdf: seq<real>, dx: real)
    requires |pdf| >= 2 && AllNonNegative(pdf) && dx >= 0.0
    requires Running(pdf, dx, |pdf| - 1) <= 1.0
    ensures CdfOf(pdf, dx)[0] == 0.0 && CdfOf(pdf, dx)[|pdf| - 1] == 1.0
    ensures Nondecreasing(CdfOf(pdf, dx))
  {
    var cdf := CdfOf(pdf, dx);
    forall i, j | 0 <= i <= j < |cdf|
      ensures cdf[i] <= cdf[j]
    {
      if j < |pdf| - 1 {
        RunningMonotone(pdf, dx, i, j);
      } else if i < |pdf| - 1 {
        RunningMonotone(pdf, dx, i, |pdf| - 1);
      }
    }
  }

  /** Dividing every density value by `a` divides every running total by `a`. */
  lemma {:induction false} RunningScaled(raw: seq<real>, pdf: seq<real>, a: real, dx: real, k: nat)
    requires |raw| == |pdf| && a > 0.0 && k < |pdf|
    requires forall i :: 0 <= i < |pdf| ==> pdf[i] == raw[i] / a
    ensures Running(pdf, dx, k) == Running(raw, dx, k) / a
  {
    if k > 0 {
      RunningScaled(raw, pdf, a, dx, k - 1);
      TrapezoidScaled(raw[k - 1], raw[k], a, dx);
      DivideSum(Running(raw, dx, k - 1), Trapezoid(raw[k - 1], raw[k], dx), a);
    }
  }

  /** Scaling both sides of a trapezoid by 1 / a scales its area by 1 / a. */
  lemma TrapezoidScaled(left: real, right: real, a: real, dx: real)
    requires a > 0.0
    ensures Trapezoid(left / a, right / a, dx) == Trapezoid(left, right, dx) / a
  {
    assert left / a + right / a == (left + right) / a;
  }

  lemma DivideSum(x: real, y: real, a: real)
    requires a > 0.0
    ensures x / a + y / a == (x + y) / a
  {
  }

  /** The largest of the first n values, starting from 0 (maxY after n steps). */
  function PeakUpTo(s: seq<real>, n: nat): (m: real)
    requires n <= |s|
    ensures m >= 0.0
  {
    if n == 0 then 0.0 else Max(PeakUpTo(s, n - 1), s[n - 1])
  }

  function PeakOf(s: seq<real>): (m: real)
    ensures m >= 0.0
  {
    PeakUpTo(s, |s|)
  }

  /** The peak of the first n values bounds each of them and is one of them, unless it is the starting 0. */
  lemma {:induction false} PeakUpToIsMaximum(s: seq<real>, n: nat)
    requires n <= |s|
    ensures forall i :: 0 <= i < n ==> s[i] <= PeakUpTo(s, n)
    ensures PeakUpTo(s, n) == 0.0 || exists i :: 0 <= i < n && s[i] == PeakUpTo(s, n)
  {
    if n > 0 {
      PeakUpToIsMaximum(s, n - 1);
    }
  }

  /** maxY bounds every density value and is one of them, unless it is the starting 0. */
  lemma PeakIsMaximum(s: seq<real>)
    ensures forall i :: 0 <= i < |s| ==> s[i] <= PeakOf(s)
    ensures PeakOf(s) == 0.0 || exists i :: 0 <= i < |s| && s[i] == PeakOf(s)
  {
    PeakUpToIsMaximum(s, |s|);
  }

  datatype Curve = Curve(xs: seq<real>, pdf: seq<real>, cdf: seq<real>, maxY: real)

  /** The density's unnormalised values on the grid. */
  function RawValues(count: nat, shape: Shape, density: (real, Shape) -> Num): (raw: seq<real>)
    requires count >= 2
    ensures |raw| == count && AllNonNegative(raw)
  {
    seq(count, i requires 0 <= i < count => RawBetaDensity(Grid(count)[i], shape, density))
  }

  /** The divisor buildCurve uses: the trapezoid area, or 1 when that is not above EPS. */
  function AreaDivisor(area: real): (a: real)
    ensures a > 0.0
    ensures area > Eps ==> a == area
    ensures area <= Eps ==> a == 1.0
  {
    if area > Eps then area else 1.0
  }

  /** A density value divided by the area. */
  function Share(y: real, a: real): real
    requires a > 0.0
  {
    y / a
  }

  function Normalized(raw: seq<real>, a: real): (pdf: seq<real>)
    requires a > 0.0
    ensures |pdf| == |raw|
    ensures forall i :: 0 <= i < |raw| ==> pdf[i] == Share(raw[i], a)
  {
    seq(|raw|, i requires 0 <= i < |raw| => Share(raw[i], a))
  }

  /** The curve buildCurve returns for a grid of `count` points. */
  function CurveOf(count: nat, shape: Shape, density: (real, Shape) -> Num): (c: Curve)
    requires count >= 2
  {
    var raw := RawValues(count, shape, density);
    var dx := Step(count);
    var pdf := Normalized(raw, AreaDivisor(Running(raw, dx, count - 1)));
    Curve(Grid(count), pdf, CdfOf(pdf, dx), PeakOf(pdf))
  }

  /**
   * Dividing non-negative values by their trapezoid area (or by 1 when that
   * area is negligible) gives a density whose total mass is at most 1 and
   * whose cumulative distribution runs nondecreasingly from 0 to 1.
   */
  lemma NormalizedIsDistribution(raw: seq<real>, dx: real)
    requires |raw| >= 2 && AllNonNegative(raw) && dx >= 0.0
    ensures var pdf := Normalized(raw, AreaDivisor(Running(raw, dx, |raw| - 1)));
      AllNonNegative(pdf) && Running(pdf, dx, |raw| - 1) <= 1.0
      && CdfOf(pdf, dx)[0] == 0.0 && CdfOf(pdf, dx)[|raw| - 1] == 1.0 && Nondecreasing(CdfOf(pdf, dx))
  {
    var area := Running(raw, dx, |raw| - 1);
    var a := AreaDivisor(area);
    var pdf := Normalized(raw, a);
    NormalizedNonNegative(raw, a);
    RunningScaled(raw, pdf, a, dx, |raw| - 1);
    RunningMonotone(raw, dx, 0, |raw| - 1);
    ShareOfArea(area);
    CdfOfShape(pdf, dx);
  }

  lemma NormalizedNonNegative(raw: seq<real>, a: real)
    requires AllNonNegative(raw) && a > 0.0
    ensures AllNonNegative(Normalized(raw, a))
  {
    var pdf := Normalized(raw, a);
    forall i | 0 <= i < |raw|
      ensures pdf[i] >= 0.0
    {
      assert raw[i] >= 0.0;
    }
  }

  /** A non-negative area divided by its divisor is at most 1. */
  lemma ShareOfArea(area: real)
    requires area >= 0.0
    ensures 0.0 <= Share(area, AreaDivisor(area)) <= 1.0
  {
    if area > Eps {
      assert area / area == 1.0;
    }
  }

  /**
   * A built curve is a distribution on the grid: the density is non-negative,
   * integrates to 1 (or to less, when the raw area was negligible), and its
   * cumulative distribution runs nondecreasingly from 0 to 1.
   */
  lemma CurveIsDistribution(count: nat, shape: Shape, density: (real, Shape) -> Num)
    requires count >= 2
    ensures var c := CurveOf(count, shape, density);
      |c.xs| == |c.pdf| == |c.cdf| == count
      && AllNonNegative(c.pdf)
      && Running(c.pdf, Step(count), count - 1) <= 1.0
      && c.cdf[0] == 0.0 && c.cdf[count - 1] == 1.0 && Nondecreasing(c.cdf)
  {
    NormalizedIsDistribution(RawValues(count, shape, density), Step(count));
  }

  /**
   * buildCurve: sample the density on the grid while summing the trapezoid
   * area, then divide by that area, keeping the running total and the peak,
   * and force the last cumulative entry to 1. `None` is the RangeError
   * `new Array` throws for an unusable sample count.
   */
  method BuildCurve(mean: Num, concentration: Num, sampleCount: Num, density: (real, Shape) -> Num)
    returns (curve: Option<Curve>)
    ensures curve.None? <==> CurveSize(sampleCount).None?
    ensures curve.Some? ==> curve.value == CurveOf(CurveSize(sampleCount).value, BetaShape(mean, concentration), density)
  {
    var shape := BetaShape(mean, concentration);
    var size := CurveSize(sampleCount);
    if size.None? {
      return None;
    }
    var count := size.value;
    var xs, raw, area := SampleDensity(count, shape, density);
    var pdf, cdf, maxY := NormalizeDensity(raw, area);
    curve := Some(Curve(xs, pdf, cdf, maxY));
  }

  /** buildCurve's first loop: the grid, the density on it, and the trapezoid area. */
  method SampleDensity(count: nat, shape: Shape, density: (real, Shape) -> Num)
    returns (xs: seq<real>, pdf: seq<real>, area: real)
    requires count >= 2
    ensures xs == Grid(count) && pdf == RawValues(count, shape, density)
    ensures area == Running(pdf, Step(count), count - 1)
  {
    ghost var grid, raw := Grid(count), RawValues(count, shape, density);
    xs, pdf := [], [];
    var dx := Step(count);
    area := 0.0;
    var i := 0;
    while i < count
      invariant 0 <= i <= count
      invariant xs == grid[..i] && pdf == raw[..i]
      invariant area == if i == 0 then 0.0 else Running(raw, dx, i - 1)
    {
      var x := GridPoint(count, i);
      var y := RawBetaDensity(x, shape, density);
      if i > 0 {
        area := area + Trapezoid(pdf[i - 1], y, dx);
      }
      xs, pdf := xs + [x], pdf + [y];
      i := i + 1;
    }
    assert grid[..count] == grid && raw[..count] == raw;
  }

  /**
   * buildCurve's second loop: divide by the area (1 when it is not above
   * EPS), accumulate the running total and the peak, and force the last
   * cumulative entry to 1.
   */
  method NormalizeDensity(raw: seq<real>, area: real) returns (pdf: seq<real>, cdf: seq<real>, maxY: real)
    requires |raw| >= 2
    ensures pdf == Normalized(raw, AreaDivisor(area))
    ensures cdf == CdfOf(pdf, Step(|raw|)) && maxY == PeakOf(pdf)
  {
    var count := |raw|;
    var dx := Step(count);
    var a := if !(area > Eps) then 1.0 else area;
    ghost var norm := Normalized(raw, a);
    pdf := raw;
    cdf := [];
    var running := 0.0;
    maxY := 0.0;
    var i := 0;
    while i < count
      invariant 0 <= i <= count && |pdf| == count
      invariant forall k :: 0 <= k < i ==> pdf[k] == norm[k]
      invariant forall k :: i <= k < count ==> pdf[k] == raw[k]
      invariant cdf == Runnings(norm, dx, i)
      invariant running == if i == 0 then 0.0 else Running(norm, dx, i - 1)
      invariant maxY == PeakUpTo(norm, i)
    {
      var v := Share(pdf[i], a);
      assert v == norm[i];
      pdf := pdf[i := v];
      maxY := Max(maxY, v);
      if i > 0 {
        running := running + Trapezoid(pdf[i - 1], v, dx);
      }
      cdf := cdf + [running];
      i := i + 1;
    }
    cdf := cdf[count - 1 := 1.0];
    assert pdf == norm;
  }

  /**
   * buildCdfFromCurve: the same running trapezoid totals over the curve's
   * density, the last entry forced to 1 (nothing is forced for an empty
   * curve, whose `cdf[-1] = 1` does not add an entry).
   */
  method BuildCdfFromCurve(pdf: seq<real>) returns (cdf: seq<real>)
    ensures |pdf| >= 2 ==> cdf == CdfOf(pdf, Step(|pdf|))
    ensures |pdf| == 1 ==> cdf == [1.0]
    ensures |pdf| == 0 ==> cdf == []
  {
    var n := |pdf|;
    cdf := [];
    var running := 0.0;
    // With fewer than two points the step is never used.
    var dx := if n >= 2 then Step(n) else 0.0;
    var i := 0;
    while i < n
      invariant 0 <= i <= n
      invariant cdf == Runnings(pdf, dx, i)
      invariant running == if i == 0 then 0.0 else Running(pdf, dx, i - 1)
    {
      if i > 0 {
        running := running + Trapezoid(pdf[i - 1], pdf[i], dx);
      }
      cdf := cdf + [running];
      i := i + 1;
    }
    if n > 0 {
      cdf := cdf[n - 1 := 1.0];
    }
  }

  /** The panel's second pass over a built curve reproduces the curve's own distribution. */
  lemma CdfFromCurveAgrees(count: nat, shape: Shape, density: (real, Shape) -> Num)
    requires count >= 2
    ensures CdfOf(CurveOf(count, shape, density).pdf, Step(count)) == CurveOf(count, shape, density).cdf
  {
  }

  // ---------------------------------------------------------------- quantiles

  /**
   * The share of the bin c0 .. c1 that lies below the target, or 0 when the
   * bin holds no mass.
   */
  function BinShare(target: real, c0: real, c1: real): real {
    if c1 > c0 then (target - c0) / (c1 - c0) else 0.0
  }

  /** The point a share t of the way from x0 to x1. */
  function Interpolate(x0: real, x1: real, t: real): real {
    x0 + (x1 - x0) * t
  }

  /**
   * The value invertQuantile returns once the search has found `lo`: the
   * first grid point when `lo` is 0, otherwise linear interpolation between
   * grid points lo - 1 and lo by the share of the bin's mass below the target.
   */
  function QuantileAt(xs: seq<real>, cdf: seq<real>, target: real, lo: nat): real
    requires |xs| == |cdf| && lo < |cdf|
  {
    if lo == 0 then xs[0]
    else Interpolate(xs[lo - 1], xs[lo], BinShare(target, cdf[lo - 1], cdf[lo]))
  }

  /** invertQuantile: the lower-bound search on the clamped level, then the interpolation. */
  method InvertQuantile(xs: seq<real>, cdf: seq<real>, q: Num) returns (x: real)
    requires |xs| == |cdf| > 0
    ensures Nondecreasing(cdf) ==> x == QuantileAt(xs, cdf, Clamp01(q), FirstReaching(cdf, Clamp01(q), 0))
    ensures Nondecreasing(cdf) && cdf[0] >= Clamp01(q) ==> x == xs[0]
  {
    var target := Clamp01(q);
    var lo := SearchCdf(cdf, target);
    if Nondecreasing(cdf) {
      LowerBoundIsFirstReaching(cdf, target, lo);
    }
    if lo <= 0 {
      return xs[0];
    }
    var i0, i1 := lo - 1, lo;
    var t := BinShare(target, cdf[i0], cdf[i1]);
    x := Interpolate(xs[i0], xs[i1], t);
  }

  /**
   * For a nondecreasing distribution and an increasing grid, a level the
   * distribution reaches only at index lo > 0 is read as a point in
   * (xs[lo - 1], xs[lo]].
   */
  lemma QuantileInBin(xs: seq<real>, cdf: seq<real>, target: real)
    requires |xs| == |cdf| > 0 && Nondecreasing(cdf)
    requires forall i, j :: 0 <= i < j < |xs| ==> xs[i] < xs[j]
    requires target <= cdf[|cdf| - 1]
    ensures var lo := FirstReaching(cdf, target, 0);
      lo > 0 ==> xs[lo - 1] < QuantileAt(xs, cdf, target, lo) <= xs[lo]
  {
    var lo := FirstReaching(cdf, target, 0);
    if lo > 0 {
      BinFraction(target, cdf[lo - 1], cdf[lo]);
      InterpolateInside(xs[lo - 1], xs[lo], BinShare(target, cdf[lo - 1], cdf[lo]));
    }
  }

  /** A level above the bin's lower mass and within its upper mass is a share in (0, 1] of the bin. */
  lemma BinFraction(target: real, c0: real, c1: real)
    requires c0 < target <= c1
    ensures 0.0 < BinShare(target, c0, c1) <= 1.0
  {
    DivideMonotone(target - c0, c1 - c0, c1 - c0);
    DividePositive(target - c0, c1 - c0);
  }

  lemma DividePositive(n: real, d: real)
    requires n > 0.0 && d > 0.0
    ensures n / d > 0.0
  {
  }

  /** Interpolating by a share in (0, 1] lands in the half-open interval (x0, x1]. */
  lemma InterpolateInside(x0: real, x1: real, t: real)
    requires x0 < x1 && 0.0 < t <= 1.0
    ensures x0 < Interpolate(x0, x1, t) <= x1
  {
    MulPositive(x1 - x0, t);
    MulNonneg(x1 - x0, 1.0 - t);
  }

  lemma MulPositive(a: real, b: real)
    requires a > 0.0 && b > 0.0
    ensures a * b > 0.0
  {
  }

  /** Interpolation grows with the share, between points in order. */
  lemma InterpolateMonotone(x0: real, x1: real, t1: real, t2: real)
    requires x0 <= x1 && t1 <= t2
    ensures Interpolate(x0, x1, t1) <= Interpolate(x0, x1, t2)
  {
    MulNonneg(x1 - x0, t2 - t1);
  }

  /** Reading a higher level never gives a lower point. */
  lemma QuantileMonotone(xs: seq<real>, cdf: seq<real>, t1: real, t2: real)
    requires |xs| == |cdf| > 0 && Nondecreasing(cdf) && Nondecreasing(xs) && t1 <= t2
    ensures QuantileAt(xs, cdf, t1, FirstReaching(cdf, t1, 0)) <= QuantileAt(xs, cdf, t2, FirstReaching(cdf, t2, 0))
  {
    var a := FirstReaching(cdf, t1, 0);
    var b := FirstReaching(cdf, t2, 0);
    LowerBoundMonotone(cdf, t1, t2, a, b);
    if a == b {
      if a > 0 {
        BinShareMonotone(t1, t2, cdf[a - 1], cdf[a]);
        InterpolateMonotone(xs[a - 1], xs[a], BinShare(t1, cdf[a - 1], cdf[a]), BinShare(t2, cdf[a - 1], cdf[a]));
      }
    } else {
      QuantileAtMost(xs, cdf, t1, a);
      QuantileAtLeast(xs, cdf, t2, b);
      assert xs[a] <= xs[b - 1];
    }
  }

  lemma BinShareMonotone(t1: real, t2: real, c0: real, c1: real)
    requires t1 <= t2
    ensures BinShare(t1, c0, c1) <= BinShare(t2, c0, c1)
  {
    if c1 > c0 {
      DivideMonotone(t1 - c0, t2 - c0, c1 - c0);
    }
  }

  /** Below the next grid point when the level is reached at `lo`. */
  lemma QuantileAtMost(xs: seq<real>, cdf: seq<real>, t: real, lo: nat)
    requires |xs| == |cdf| && lo < |cdf| - 1 && Nondecreasing(xs) && t <= cdf[lo]
    ensures QuantileAt(xs, cdf, t, lo) <= xs[lo]
  {
    if lo > 0 {
      var f := BinShare(t, cdf[lo - 1], cdf[lo]);
      if cdf[lo] > cdf[lo - 1] {
        DivideMonotone(t - cdf[lo - 1], cdf[lo] - cdf[lo - 1], cdf[lo] - cdf[lo - 1]);
      }
      InterpolateMonotone(xs[lo - 1], xs[lo], f, 1.0);
    }
  }

  /** Above the previous grid point when the level is above the mass before `lo`. */
  lemma QuantileAtLeast(xs: seq<real>, cdf: seq<real>, t: real, lo: nat)
    requires |xs| == |cdf| && 0 < lo < |cdf| && Nondecreasing(xs) && cdf[lo - 1] < t
    ensures xs[lo - 1] <= QuantileAt(xs, cdf, t, lo)
  {
    var f := BinShare(t, cdf[lo - 1], cdf[lo]);
    if cdf[lo] > cdf[lo - 1] {
      DividePositive(t - cdf[lo - 1], cdf[lo] - cdf[lo - 1]);
    }
    InterpolateMonotone(xs[lo - 1], xs[lo], 0.0, f);
  }

  datatype Interval = Interval(low: real, high: real)

  /** computeEti: the 2.5% and 97.5% quantiles. */
  method ComputeEti(xs: seq<real>, cdf: seq<real>) returns (eti: Interval)
    requires |xs| == |cdf| > 0
    ensures Nondecreasing(cdf) ==>
      eti.low == QuantileAt(xs, cdf, 0.025, FirstReaching(cdf, 0.025, 0))
      && eti.high == QuantileAt(xs, cdf, 0.975, FirstReaching(cdf, 0.975, 0))
    ensures Nondecreasing(cdf) && Nondecreasing(xs) ==> eti.low <= eti.high
  {
    var low := InvertQuantile(xs, cdf, Finite(0.025));
    var high := InvertQuantile(xs, cdf, Finite(0.975));
    if Nondecreasing(cdf) && Nondecreasing(xs) {
      QuantileMonotone(xs, cdf, 0.025, 0.975);
    }
    eti := Interval(low, high);
  }

  /** The mass of grid window i..j: cdf[j] minus the mass left of i. */
  function WindowMass(cdf: seq<real>, i: nat, j: nat): real
    requires i < |cdf| && j < |cdf|
  {
    cdf[j] - (if i > 0 then cdf[i - 1] else 0.0)
  }

  /**
   * computeHdi: slide a window i..j over the grid, widening it (j + 1) while
   * it holds less than the target mass and narrowing it (i + 1) once it holds
   * enough, remembering the narrowest window narrower than 1. The scan takes
   * at most 2 len steps; the answer is the whole grid unless a window was
   * recorded, and a recorded window holds the target mass and, for a
   * positive target on a nondecreasing distribution, is not reversed.
   */
  method ComputeHdi(xs: seq<real>, cdf: seq<real>, mass: Num) returns (hdi: Interval)
    requires |xs| == |cdf| > 0
    ensures hdi == Interval(xs[0], xs[|xs| - 1])
      || exists i, j :: 0 <= i < |xs| && 0 <= j < |xs| && hdi == Interval(xs[i], xs[j])
           && WindowMass(cdf, i, j) >= Clamp01(mass) && xs[j] - xs[i] < 1.0
           && (Nondecreasing(cdf) && Clamp01(mass) > 0.0 ==> i <= j)
  {
    var targetMass := Clamp01(mass);
    var n := |xs|;
    var bestLow, bestHigh := 0, n - 1;
    var bestWidth := 1.0;
    ghost var recorded := false;
    var i, j := 0, 0;
    while i < n && j < n
      invariant 0 <= i <= n && 0 <= j <= n
      invariant 0 <= bestLow < n && 0 <= bestHigh < n
      invariant !recorded ==> bestLow == 0 && bestHigh == n - 1
      invariant recorded ==>
        (WindowMass(cdf, bestLow, bestHigh) >= targetMass
         && bestWidth == xs[bestHigh] - xs[bestLow] && bestWidth < 1.0
         && (Nondecreasing(cdf) && targetMass > 0.0 ==> bestLow <= bestHigh))
      invariant !recorded ==> bestWidth == 1.0
      decreases 2 * n - i - j
    {
      var leftMass := if i > 0 then cdf[i - 1] else 0.0;
      var currentMass := cdf[j] - leftMass;
      if currentMass >= targetMass {
        var width := xs[j] - xs[i];
        if width < bestWidth {
          if Nondecreasing(cdf) && targetMass > 0.0 && i > j {
            assert cdf[j] <= cdf[i - 1];
          }
          bestWidth := width;
          bestLow := i;
          bestHigh := j;
          recorded := true;
        }
        i := i + 1;
      } else {
        j := j + 1;
      }
    }
    hdi := Interval(xs[bestLow], xs[bestHigh]);
  }

  // ----------------------------------------------------------------- sampling

  /**
   * sampleFromCdf: the lower-bound search on the clamped draw, then the
   * position inside the found bin scaled to [0, 1]; 0 for an empty
   * distribution.
   */
  method SampleFromCdf(cdf: seq<real>, u: Num) returns (x: real)
    ensures InUnit(x)
    ensures |cdf| == 0 ==> x == 0.0
    ensures |cdf| > 0 && Nondecreasing(cdf) ==> x == SampleOf(cdf, u)
  {
    if |cdf| == 0 {
      return 0.0;
    }
    var target := Clamp01(u);
    var lo := SearchCdf(cdf, target);
    if Nondecreasing(cdf) {
      LowerBoundIsFirstReaching(cdf, target, lo);
    }
    x := CdfPoint(cdf, target, lo, 0.0);
  }

  /**
   * The sample a draw gives from a nondecreasing distribution: 0 when the
   * first entry already reaches the clamped draw, otherwise a point of the
   * bin where the distribution first reaches it.
   */
  function SampleOf(cdf: seq<real>, u: Num): (x: real)
    requires |cdf| > 0
    ensures InUnit(x)
    ensures Clamp01(u) <= cdf[0] ==> x == 0.0
  {
    var target := Clamp01(u);
    CdfPoint(cdf, target, FirstReaching(cdf, target, 0), 0.0)
  }

  /**
   * A draw the distribution reaches only at grid point lo > 0 is sampled
   * inside that bin's slice [(lo - 1) / (n - 1), lo / (n - 1)] of [0, 1].
   */
  lemma SampleInBin(cdf: seq<real>, u: Num)
    requires |cdf| >= 2 && Clamp01(u) <= cdf[|cdf| - 1]
    ensures var lo := FirstReaching(cdf, Clamp01(u), 0);
      lo > 0 ==>
        (lo - 1) as real / (|cdf| - 1) as real <= SampleOf(cdf, u) <= lo as real / (|cdf| - 1) as real
  {
    var target := Clamp01(u);
    var lo := FirstReaching(cdf, target, 0);
    if lo > 0 {
      CdfPointInBin(cdf, target, lo, 0.0);
    }
  }

  // ---------------------------------------------------------------- particles

  /** A particle of the pool: its current position, where it is heading, and its vertical jitter. */
  datatype Particle = Particle(id: nat, p: real, target: real, yJitter: real)

  /** Every particle sits where it is heading, somewhere in [0, 1]. */
  predicate AtRest(pool: seq<Particle>) {
    forall k :: 0 <= k < |pool| ==> pool[k].p == pool[k].target && InUnit(pool[k].p)
  }

  /**
   * The first n particles initializeParticles creates: particle k has id k
   * and sits at the sample of draw 2k, with draw 2k + 1 as its jitter.
   */
  function FreshPool(cdf: seq<real>, random: nat -> real, n: nat): (pool: seq<Particle>)
    requires |cdf| > 0
    ensures |pool| == n
  {
    if n == 0 then []
    else
      var x := SampleOf(cdf, Finite(random(2 * (n - 1))));
      FreshPool(cdf, random, n - 1) + [Particle(n - 1, x, x, random(2 * (n - 1) + 1))]
  }

  /** A fresh pool is at rest, and particle k has id k. */
  lemma {:induction false} FreshPoolAtRest(cdf: seq<real>, random: nat -> real, n: nat)
    requires |cdf| > 0
    ensures AtRest(FreshPool(cdf, random, n))
    ensures forall k :: 0 <= k < n ==> FreshPool(cdf, random, n)[k].id == k
  {
    if n > 0 {
      FreshPoolAtRest(cdf, random, n - 1);
    }
  }

  /**
   * The first n particles of `pool` after resetParticlesToPrior's loop:
   * particle k keeps its id, moves to the sample of draw 2k, heads there,
   * and takes draw 2k + 1 as its jitter.
   */
  function Resampled(pool: seq<Particle>, cdf: seq<real>, random: nat -> real, n: nat): (r: seq<Particle>)
    requires n <= |pool| && |cdf| > 0
    ensures |r| == n
  {
    if n == 0 then []
    else
      var x := SampleOf(cdf, Finite(random(2 * (n - 1))));
      Resampled(pool, cdf, random, n - 1) + [pool[n - 1].(p := x, target := x, yJitter := random(2 * (n - 1) + 1))]
  }

  /** After the reset every particle is at rest, and each keeps its id. */
  lemma {:induction false} ResampledAtRest(pool: seq<Particle>, cdf: seq<real>, random: nat -> real, n: nat)
    requires n <= |pool| && |cdf| > 0
    ensures AtRest(Resampled(pool, cdf, random, n))
    ensures forall k :: 0 <= k < n ==> Resampled(pool, cdf, random, n)[k].id == pool[k].id
  {
    if n > 0 {
      ResampledAtRest(pool, cdf, random, n - 1);
    }
  }

  /**
   * The first n particles of `pool` after playDriftToPosterior's loop:
   * particle k keeps its position, heads for the sample of draw 2k and takes
   * draw 2k + 1 as its jitter.
   */
  function Retargeted(pool: seq<Particle>, cdf: seq<real>, random: nat -> real, n: nat): (r: seq<Particle>)
    requires n <= |pool| && |cdf| > 0
    ensures |r| == n
  {
    if n == 0 then []
    else
      Retargeted(pool, cdf, random, n - 1)
        + [pool[n - 1].(target := SampleOf(cdf, Finite(random(2 * (n - 1)))), yJitter := random(2 * (n - 1) + 1))]
  }

  /** Retargeting moves no particle and heads particle k for the sample of draw 2k. */
  lemma {:induction false} RetargetedKeepsPositions(pool: seq<Particle>, cdf: seq<real>, random: nat -> real, n: nat)
    requires n <= |pool| && |cdf| > 0
    ensures forall k :: 0 <= k < n ==>
      Retargeted(pool, cdf, random, n)[k].p == pool[k].p
      && Retargeted(pool, cdf, random, n)[k].id == pool[k].id
      && Retargeted(pool, cdf, random, n)[k].target == SampleOf(cdf, Finite(random(2 * k)))
  {
    if n > 0 {
      RetargetedKeepsPositions(pool, cdf, random, n - 1);
    }
  }

  /** The first n particles moved onto their targets (`d.p = d.target`). */
  function Settled(pool: seq<Particle>, n: nat): (r: seq<Particle>)
    requires n <= |pool|
    ensures |r| == n
  {
    if n == 0 then [] else Settled(pool, n - 1) + [pool[n - 1].(p := pool[n - 1].target)]
  }

  /** Settling a pool whose targets lie in [0, 1] puts it at rest without changing the targets. */
  lemma {:induction false} SettledAtRest(pool: seq<Particle>, n: nat)
    requires n <= |pool|
    requires forall k :: 0 <= k < |pool| ==> InUnit(pool[k].target)
    ensures AtRest(Settled(pool, n))
    ensures forall k :: 0 <= k < n ==> Settled(pool, n)[k].target == pool[k].target
  {
    if n > 0 {
      SettledAtRest(pool, n - 1);
    }
  }

  /**
   * A drift shown without animation leaves every particle at rest on its
   * posterior sample, with its id unchanged.
   */
  lemma InstantDriftAtRest(pool: seq<Particle>, cdf: seq<real>, random: nat -> real)
    requires |cdf| > 0
    ensures var settled := Settled(Retargeted(pool, cdf, random, |pool|), |pool|);
      AtRest(settled)
      && forall k :: 0 <= k < |pool| ==>
           settled[k].p == SampleOf(cdf, Finite(random(2 * k))) && settled[k].id == pool[k].id
  {
    var moved := Retargeted(pool, cdf, random, |pool|);
    RetargetedKeepsPositions(pool, cdf, random, |pool|);
    SettledAtRest(moved, |pool|);
    SettledKeepsIds(moved, |pool|);
  }

  lemma {:induction false} SettledKeepsIds(pool: seq<Particle>, n: nat)
    requires n <= |pool|
    ensures forall k :: 0 <= k < n ==> Settled(pool, n)[k].id == pool[k].id
  {
    if n > 0 {
      SettledKeepsIds(pool, n - 1);
    }
  }

  /** initializeParticles' loop: particleCount particles, each drawn from the distribution. */
  method DrawPool(cdf: seq<real>, random: nat -> real, count: nat) returns (pool: seq<Particle>)
    requires |cdf| > 0 && Nondecreasing(cdf)
    ensures pool == FreshPool(cdf, random, count)
  {
    pool := [];
    var i := 0;
    while i < count
      invariant 0 <= i <= count
      invariant pool == FreshPool(cdf, random, i)
    {
      var p := SampleFromCdf(cdf, Finite(random(2 * i)));
      pool := pool + [Particle(i, p, p, random(2 * i + 1))];
      i := i + 1;
    }
  }

  /** The particle pool of the panel closure. */
  class ParticlePool {
    const particleCount: nat
    const concentrationPrior: Num
    const concentrationPosterior: Num
    const sampleCount: Num
    var particles: seq<Particle>

    constructor (particleCount: nat, concentrationPrior: Num, concentrationPosterior: Num, sampleCount: Num)
      ensures this.particleCount == particleCount && this.sampleCount == sampleCount
      ensures this.concentrationPrior == concentrationPrior && this.concentrationPosterior == concentrationPosterior
      ensures particles == []
    {
      this.particleCount := particleCount;
      this.concentrationPrior := concentrationPrior;
      this.concentrationPosterior := concentrationPosterior;
      this.sampleCount := sampleCount;
      particles := [];
    }

    /** The distribution buildCurve / buildCdfFromCurve give for a mean and concentration. */
    ghost function CdfFor(mean: Num, concentration: Num, density: (real, Shape) -> Num): (cdf: seq<real>)
      requires CurveSize(sampleCount).Some?
      ensures |cdf| >= MinCurveSize && Nondecreasing(cdf)
    {
      var count := CurveSize(sampleCount).value;
      CurveIsDistribution(count, BetaShape(mean, concentration), density);
      CurveOf(count, BetaShape(mean, concentration), density).cdf
    }

    /**
     * The `buildCurve` / `buildCdfFromCurve` pair the particle methods start
     * with; `None` when the sample count makes `new Array` throw.
     */
    method Distribution(mean: Num, concentration: Num, density: (real, Shape) -> Num) returns (cdf: Option<seq<real>>)
      ensures cdf.None? <==> CurveSize(sampleCount).None?
      ensures cdf.Some? ==> cdf.value == CdfFor(mean, concentration, density)
    {
      var c := BuildCurve(mean, concentration, sampleCount, density);
      if c.None? {
        return None;
      }
      var built := BuildCdfFromCurve(c.value.pdf);
      CdfFromCurveAgrees(CurveSize(sampleCount).value, BetaShape(mean, concentration), density);
      cdf := Some(built);
    }

    /**
     * initializeParticles: a fresh pool of particleCount particles drawn from
     * the prior. A sample count the array constructor rejects aborts before
     * the pool changes.
     */
    method InitializeParticles(mean: Num, density: (real, Shape) -> Num, random: nat -> real)
      modifies this
      ensures CurveSize(sampleCount).None? ==> particles == old(particles)
      ensures CurveSize(sampleCount).Some? ==>
        particles == FreshPool(CdfFor(mean, concentrationPrior, density), random, particleCount)
    {
      var cdf := Distribution(mean, concentrationPrior, density);
      if cdf.None? {
        return;
      }
      particles := DrawPool(cdf.value, random, particleCount);
    }

    /**
     * resetParticlesToPrior: create the pool if it is empty (with its own
     * draws), then move every particle to a fresh prior sample (draw 2k),
     * head it there, and give it a fresh jitter (draw 2k + 1).
     */
    method ResetParticlesToPrior(mean: Num, density: (real, Shape) -> Num, initRandom: nat -> real, random: nat -> real)
      modifies this
      ensures CurveSize(sampleCount).None? ==> particles == old(particles)
      ensures CurveSize(sampleCount).Some? ==>
        var cdf := CdfFor(mean, concentrationPrior, density);
        var pool := if |old(particles)| == 0 then FreshPool(cdf, initRandom, particleCount) else old(particles);
        particles == Resampled(pool, cdf, random, |pool|)
    {
      var cdf := Distribution(mean, concentrationPrior, density);
      if cdf.None? {
        return;
      }
      if |particles| == 0 {
        InitializeParticles(mean, density, initRandom);
      }
      Resample(cdf.value, random);
    }

    /**
     * playDriftToPosterior: create the pool from the prior if it is empty,
     * head every particle for a fresh posterior sample (draw 2k) with a fresh
     * jitter (draw 2k + 1), and, when the drift is not animated or motion is
     * reduced, move every particle onto its target at once. An animated drift
     * leaves the positions to the transition's end (Settle).
     */
    method PlayDriftToPosterior(priorMean: Num, posteriorMean: Num, animate: bool, reducedMotion: bool,
                                density: (real, Shape) -> Num, initRandom: nat -> real, random: nat -> real)
      modifies this
      ensures CurveSize(sampleCount).None? ==> particles == old(particles)
      ensures CurveSize(sampleCount).Some? ==>
        var pool := if |old(particles)| == 0
          then FreshPool(CdfFor(priorMean, concentrationPrior, density), initRandom, particleCount)
          else old(particles);
        var moved := Retargeted(pool, CdfFor(posteriorMean, concentrationPosterior, density), random, |pool|);
        particles == if !animate || reducedMotion then Settled(moved, |moved|) else moved
    {
      if |particles| == 0 {
        InitializeParticles(priorMean, density, initRandom);
      }
      var cdf := Distribution(posteriorMean, concentrationPosterior, density);
      if cdf.None? {
        return;
      }
      Retarget(cdf.value, random);
      if !animate || reducedMotion {
        Settle();
      }
    }

    /** playDriftToPosterior's loop over the pool, in place. */
    method Retarget(cdf: seq<real>, random: nat -> real)
      requires |cdf| > 0 && Nondecreasing(cdf)
      modifies this
      ensures particles == Retargeted(old(particles), cdf, random, |old(particles)|)
    {
      ghost var before := particles;
      var i := 0;
      while i < |particles|
        invariant 0 <= i <= |particles| == |before|
        invariant particles[..i] == Retargeted(before, cdf, random, i)
        invariant particles[i..] == before[i..]
      {
        var target := SampleFromCdf(cdf, Finite(random(2 * i)));
        particles := particles[i := particles[i].(target := target, yJitter := random(2 * i + 1))];
        i := i + 1;
      }
    }

    /** `d.p = d.target` for every particle: the end of a drift. */
    method Settle()
      modifies this
      ensures particles == Settled(old(particles), |old(particles)|)
    {
      ghost var before := particles;
      var i := 0;
      while i < |particles|
        invariant 0 <= i <= |particles| == |before|
        invariant particles[..i] == Settled(before, i)
        invariant particles[i..] == before[i..]
      {
        particles := particles[i := particles[i].(p := particles[i].target)];
        i := i + 1;
      }
    }

    /** resetParticlesToPrior's loop over the pool, in place. */
    method Resample(cdf: seq<real>, random: nat -> real)
      requires |cdf| > 0 && Nondecreasing(cdf)
      modifies this
      ensures particles == Resampled(old(particles), cdf, random, |old(particles)|)
    {
      ghost var before := particles;
      var i := 0;
      while i < |particles|
        invariant 0 <= i <= |particles| == |before|
        invariant particles[..i] == Resampled(before, cdf, random, i)
        invariant particles[i..] == before[i..]
      {
        var p := SampleFromCdf(cdf, Finite(random(2 * i)));
        particles := particles[i := particles[i].(p := p, target := p, yJitter := random(2 * i + 1))];
        i := i + 1;
      }
    }
  }
}
