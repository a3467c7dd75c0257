/*
 * The geometry of the conditional-probability panel: the unit interval is the
 * universe, rain occupies [0, prior], not-rain [prior, 1], and the testimony
 * event is an interval straddling the boundary whose overlap with rain is
 * P(T|R) P(R). Conditioning on an event zooms the display onto that event's
 * interval; each conditional probability is an overlap width divided by the
 * width of the conditioning interval.
 */
module ConditionalGeometry {
  import opened Numeric
  import RainModel

  /** Tolerance of the panel's own comparisons (1e-9). */
  const Eps: real := 0.000000001
  /** The narrowest display domain the zoom may show (1e-4). */
  const MinDomainSpan: real := 0.0001

  datatype EventKey = Rain | Testimony | NotRain
  datatype Perspective = Universe | GivenRain | GivenTestimony | GivenNotRain
  datatype Stage = UniverseStage | Subset | Renormalized

  /** An interval of the unit line; the source's { start, end } objects. */
  datatype Interval = Interval(start: real, end: real)

  predicate WellFormed(i: Interval) { i.start <= i.end }
  predicate InsideUnit(i: Interval) { 0.0 <= i.start <= i.end <= 1.0 }

  /** Unknown perspective keys fall back to the universe. */
  function ParsePerspective(key: string): (p: Perspective)
    ensures p == GivenRain <==> key == "rain"
    ensures p == GivenTestimony <==> key == "testimony"
    ensures p == GivenNotRain <==> key == "not_rain"
  {
    if key == "rain" then GivenRain
    else if key == "testimony" then GivenTestimony
    else if key == "not_rain" then GivenNotRain
    else Universe
  }

  /** Only "rain", "testimony" and "not_rain" name an event; anything else names none. */
  function ParseEventKey(key: string): (e: Option<EventKey>)
    ensures e == Some(Rain) <==> key == "rain"
    ensures e == Some(Testimony) <==> key == "testimony"
    ensures e == Some(NotRain) <==> key == "not_rain"
  {
    if key == "rain" then Some(Rain)
    else if key == "testimony" then Some(Testimony)
    else if key == "not_rain" then Some(NotRain)
    else None
  }

  /** Only the three stage names are accepted. */
  function ParseStage(key: string): (s: Option<Stage>)
    ensures s == Some(UniverseStage) <==> key == "universe"
    ensures s == Some(Subset) <==> key == "subset"
    ensures s == Some(Renormalized) <==> key == "renormalized"
  {
    if key == "universe" then Some(UniverseStage)
    else if key == "subset" then Some(Subset)
    else if key == "renormalized" then Some(Renormalized)
    else None
  }

  /** The length of the intersection of two intervals, 0 when they are disjoint. */
  function OverlapWidth(a: Interval, b: Interval): (w: real)
    ensures w >= 0.0
    ensures WellFormed(a) ==> w <= a.end - a.start
    ensures WellFormed(b) ==> w <= b.end - b.start
  {
    Max(0.0, Min(a.end, b.end) - Max(a.start, b.start))
  }

  lemma OverlapSymmetric(a: Interval, b: Interval)
    ensures OverlapWidth(a, b) == OverlapWidth(b, a)
  {
  }

  datatype Intervals = Intervals(
    prior: real, tGivenR: real, tGivenNotR: real, posterior: real, pTestimony: real,
    rain: Interval, testimony: Interval, notRain: Interval)

  function EventInterval(iv: Intervals, e: EventKey): Interval {
    match e
    case Rain => iv.rain
    case Testimony => iv.testimony
    case NotRain => iv.notRain
  }

  /**
   * The arithmetic behind the testimony interval for probabilities p, t and f:
   * it runs from p (1 - t) to p + (1 - p) f, straddles p, is as wide as
   * t p + f (1 - p), and its part left of p is exactly t p wide.
   */
  lemma TestimonyArithmetic(p: real, t: real, f: real)
    requires 0.0 <= p <= 1.0 && 0.0 <= t <= 1.0 && 0.0 <= f <= 1.0
    ensures 0.0 <= p * (1.0 - t) <= p <= p + (1.0 - p) * f <= 1.0
    ensures (p + (1.0 - p) * f) - p * (1.0 - t) == t * p + f * (1.0 - p)
    ensures p - p * (1.0 - t) == t * p
  {
    MulNonneg(p, 1.0 - t);
    MulNonneg(p, t);
    MulNonneg(1.0 - p, f);
    MulNonneg(1.0 - p, 1.0 - f);
  }

  /**
   * The testimony interval [p (1 - t), p + (1 - p) f] of getIntervals (each end
   * clamped into [0, 1]) for probabilities p, t and f.
   */
  function TestimonyInterval(p: real, t: real, f: real): (i: Interval)
    requires 0.0 <= p <= 1.0 && 0.0 <= t <= 1.0 && 0.0 <= f <= 1.0
    ensures 0.0 <= i.start <= p <= i.end <= 1.0
    ensures i.end - i.start == t * p + f * (1.0 - p)
    ensures p - i.start == t * p
  {
    TestimonyArithmetic(p, t, f);
    Interval(ClampUnit(p * (1.0 - t)), ClampUnit(p + (1.0 - p) * f))
  }

  /**
   * getIntervals: rain = [0, prior], not-rain = [prior, 1], and testimony =
   * [prior (1 - P(T|R)), prior + (1 - prior) P(T|not R)], all inside the unit
   * line. The testimony interval is exactly as wide as the evidence P(T), and
   * its overlap with rain is exactly P(T|R) P(R).
   */
  function GetIntervals(prior: real, tGivenR: real, tGivenNotR: real, posterior: real): (iv: Intervals)
    ensures iv.rain == Interval(0.0, ClampUnit(prior)) && iv.notRain == Interval(ClampUnit(prior), 1.0)
    ensures InsideUnit(iv.rain) && InsideUnit(iv.testimony) && InsideUnit(iv.notRain)
    ensures iv.testimony.start <= ClampUnit(prior) <= iv.testimony.end
    ensures iv.posterior == ClampUnit(posterior)
    ensures iv.prior == ClampUnit(prior) && iv.tGivenR == ClampUnit(tGivenR) && iv.tGivenNotR == ClampUnit(tGivenNotR)
  {
    var p := ClampUnit(prior);
    var t := ClampUnit(tGivenR);
    var f := ClampUnit(tGivenNotR);
    Intervals(
      p, t, f, ClampUnit(posterior), ClampUnit(p * t + (1.0 - p) * f),
      Interval(0.0, p),
      TestimonyInterval(p, t, f),
      Interval(p, 1.0))
  }

  /** The testimony interval is exactly as wide as the evidence P(T), which is also the reported pTestimony. */
  lemma TestimonyWidthIsEvidence(prior: real, tGivenR: real, tGivenNotR: real, posterior: real)
    ensures var iv := GetIntervals(prior, tGivenR, tGivenNotR, posterior);
      iv.testimony.end - iv.testimony.start == RainModel.Evidence(prior, tGivenR, tGivenNotR)
  {
  }

  /** The pTestimony that getIntervals reports is the belief model's evidence. */
  lemma ReportedEvidence(prior: real, tGivenR: real, tGivenNotR: real, posterior: real)
    ensures GetIntervals(prior, tGivenR, tGivenNotR, posterior).pTestimony == RainModel.Evidence(prior, tGivenR, tGivenNotR)
  {
    var p := ClampUnit(prior);
    var t := ClampUnit(tGivenR);
    var f := ClampUnit(tGivenNotR);
    assert p * t + (1.0 - p) * f == RainModel.Evidence(prior, tGivenR, tGivenNotR);
  }

  /** Rain and testimony overlap in exactly P(T|R) P(R): the numerator of Bayes' rule. */
  lemma TestimonyOverlapIsNumerator(prior: real, tGivenR: real, tGivenNotR: real, posterior: real)
    ensures var iv := GetIntervals(prior, tGivenR, tGivenNotR, posterior);
      OverlapWidth(iv.rain, iv.testimony) == ClampUnit(tGivenR) * ClampUnit(prior)
  {
  }

  /** getRawPerspectiveDomain: the interval of the conditioning event, or [0, 1] for the universe. */
  function RawPerspectiveDomain(p: Perspective, iv: Intervals): Interval {
    match p
    case Universe => Interval(0.0, 1.0)
    case GivenRain => iv.rain
    case GivenTestimony => iv.testimony
    case GivenNotRain => iv.notRain
  }

  /**
   * One readout of updateReadouts: P(event | given) is undefined (None, shown
   * as "undefined" rather than 0) when the conditioning interval is at most
   * 1e-9 wide, and otherwise the clamped fraction of it that the event covers.
   */
  function ConditionalProbability(event: Interval, given: Interval): (v: Option<real>)
    ensures v.None? <==> given.end - given.start <= Eps
    ensures v.Some? ==> InUnit(v.value)
    ensures v.Some? && WellFormed(given) ==> v.value == OverlapWidth(event, given) / (given.end - given.start)
  {
    var denom := Max(0.0, given.end - given.start);
    if denom > Eps then
      var o := OverlapWidth(event, given);
      RainModel.QuotientInUnit(o, denom);
      Some(ClampUnit(o / denom))
    else None
  }

  /** The three readouts and the formula line of updateReadouts. */
  datatype Readouts = Readouts(
    rain: Option<real>, testimony: Option<real>, notRain: Option<real>,
    rainNumerator: real, denom: real)

  function ComputeReadouts(p: Perspective, iv: Intervals): (r: Readouts)
    ensures r.denom == Max(0.0, RawPerspectiveDomain(p, iv).end - RawPerspectiveDomain(p, iv).start)
    ensures r.rain == ConditionalProbability(iv.rain, RawPerspectiveDomain(p, iv))
    ensures r.testimony == ConditionalProbability(iv.testimony, RawPerspectiveDomain(p, iv))
    ensures r.notRain == ConditionalProbability(iv.notRain, RawPerspectiveDomain(p, iv))
    ensures r.rainNumerator == OverlapWidth(iv.rain, RawPerspectiveDomain(p, iv))
  {
    var given := RawPerspectiveDomain(p, iv);
    Readouts(
      ConditionalProbability(iv.rain, given),
      ConditionalProbability(iv.testimony, given),
      ConditionalProbability(iv.notRain, given),
      OverlapWidth(iv.rain, given),
      Max(0.0, given.end - given.start))
  }

  /**
   * Geometry agrees with Bayes' rule: conditioning on the testimony interval
   * gives P(R|T) equal to the belief model's posterior whenever P(T) > 1e-9.
   */
  lemma GeometryMatchesBayes(prior: real, tGivenR: real, tGivenNotR: real, posterior: real)
    requires RainModel.Evidence(prior, tGivenR, tGivenNotR) > Eps
    ensures var iv := GetIntervals(prior, tGivenR, tGivenNotR, posterior);
      ComputeReadouts(GivenTestimony, iv).rain == Some(RainModel.Posterior(prior, tGivenR, tGivenNotR))
  {
    TestimonyWidthIsEvidence(prior, tGivenR, tGivenNotR, posterior);
    TestimonyOverlapIsNumerator(prior, tGivenR, tGivenNotR, posterior);
  }

  lemma SplitOverlap(p: real, g: Interval)
    requires 0.0 <= p <= 1.0 && InsideUnit(g)
    ensures OverlapWidth(Interval(0.0, p), g) + OverlapWidth(Interval(p, 1.0), g) == g.end - g.start
  {
  }

  lemma SharesOfWhole(x: real, y: real, w: real)
    requires w > 0.0 && x + y == w
    ensures x / w + y / w == 1.0
  {
    assert x / w + y / w == (x + y) / w;
  }

  /**
   * Rain and not-rain split every conditioning interval: whenever the readouts
   * are defined, P(R | given) + P(not R | given) = 1.
   */
  lemma RainAndNotRainSumToOne(p: Perspective, iv: Intervals)
    requires iv == GetIntervals(iv.prior, iv.tGivenR, iv.tGivenNotR, iv.posterior)
    requires ComputeReadouts(p, iv).rain.Some?
    ensures ComputeReadouts(p, iv).rain.value + ComputeReadouts(p, iv).notRain.value == 1.0
  {
    var g := RawPerspectiveDomain(p, iv);
    assert InsideUnit(g);
    SplitOverlap(iv.prior, g);
    SharesOfWhole(OverlapWidth(iv.rain, g), OverlapWidth(iv.notRain, g), g.end - g.start);
  }

  lemma SelfQuotient(w: real)
    requires w != 0.0
    ensures w / w == 1.0
  {
  }

  /** Conditioning an event on itself: P(X|X) = 1 whenever it is defined. */
  lemma ConditioningOnItself(g: Interval)
    requires WellFormed(g)
    requires ConditionalProbability(g, g).Some?
    ensures ConditionalProbability(g, g) == Some(1.0)
  {
    assert OverlapWidth(g, g) == g.end - g.start;
    SelfQuotient(g.end - g.start);
  }

  /** The display domain of the zoom, with the width of the raw domain it came from. */
  datatype DisplayDomain = DisplayDomain(start: real, end: real, widthRaw: real)

  /**
   * normalizeDomain: clamp both ends into [0, 1], put them in order, and widen
   * a domain narrower than 1e-4 - leftwards from 1 when it touches 1,
   * otherwise rightwards (stopping at 1).
   */
  function NormalizeDomain(raw: Interval): (d: DisplayDomain)
    ensures 0.0 <= d.start < d.end <= 1.0
    ensures d.widthRaw == Max(0.0, raw.end - raw.start)
    ensures var s := Min(ClampUnit(raw.start), ClampUnit(raw.end));
      var e := Max(ClampUnit(raw.start), ClampUnit(raw.end));
      d.start <= s && e <= d.end
      && (e - s >= MinDomainSpan ==> d.start == s && d.end == e)
      && (e - s < MinDomainSpan && e >= 1.0 ==> d.start == 1.0 - MinDomainSpan && d.end == 1.0)
      && (e - s < MinDomainSpan && e < 1.0 && s + MinDomainSpan <= 1.0 ==> d.start == s && d.end - d.start == MinDomainSpan)
      && (e - s < MinDomainSpan && e < 1.0 && s + MinDomainSpan > 1.0 ==> d.start == s && d.end == 1.0)
  {
    var a := ClampUnit(raw.start);
    var b := ClampUnit(raw.end);
    var s := if b < a then b else a;
    var e := if b < a then a else b;
    var start := if e - s < MinDomainSpan && e >= 1.0 then Max(0.0, e - MinDomainSpan) else s;
    var end := if e - s < MinDomainSpan && e < 1.0 then Min(1.0, s + MinDomainSpan) else e;
    DisplayDomain(start, end, Max(0.0, raw.end - raw.start))
  }

  lemma NormalizeIdentityOnWideDomains(raw: Interval)
    requires InsideUnit(raw) && raw.end - raw.start >= MinDomainSpan
    ensures NormalizeDomain(raw) == DisplayDomain(raw.start, raw.end, raw.end - raw.start)
  {
  }

  /**
   * The domain renderAll shows: the whole line for the universe and during the
   * subset stage of a conditioned view, otherwise the normalised raw domain.
   */
  function DisplayDomainFor(p: Perspective, stage: Stage, raw: Interval): (d: DisplayDomain)
    ensures 0.0 <= d.start < d.end <= 1.0
    ensures p == Universe || stage == Subset ==> d == DisplayDomain(0.0, 1.0, 1.0)
  {
    if p != Universe && stage == Subset then DisplayDomain(0.0, 1.0, 1.0)
    else if p == Universe then DisplayDomain(0.0, 1.0, 1.0)
    else NormalizeDomain(raw)
  }

  /** isInInterval: membership with a 1e-9 tolerance on both ends. */
  predicate IsInInterval(x: real, i: Interval) {
    x >= i.start - Eps && x <= i.end + Eps
  }

  datatype SamplingDomain = SamplingDomain(start: real, end: real, width: real)

  /**
   * getPerspectiveSamplingDomain: drops fall across the whole line during the
   * subset stage of a conditioned view, and across the raw domain otherwise.
   */
  function SamplingDomainFor(p: Perspective, stage: Stage, raw: Interval): (d: SamplingDomain)
    ensures d.width >= 0.0
    ensures p != Universe && stage == Subset ==> d == SamplingDomain(0.0, 1.0, 1.0)
    ensures !(p != Universe && stage == Subset) ==> d.start == raw.start && d.end == raw.end
    ensures WellFormed(raw) ==> d.start + d.width == d.end
  {
    if p != Universe && stage == Subset then SamplingDomain(0.0, 1.0, 1.0)
    else SamplingDomain(raw.start, raw.end, Max(0.0, raw.end - raw.start))
  }

  /** The pixel layout updateLayout derives from the measured mount width. */
  datatype Dims = Dims(
    width: real, height: real, innerWidth: real, innerHeight: real,
    rowTopRain: real, rowTopTestimony: real, rowTopNotRain: real)

  /** The top of each event's shelf, in pixels below the top of the plot. */
  function RowTop(d: Dims, e: EventKey): real {
    match e
    case Rain => d.rowTopRain
    case Testimony => d.rowTopTestimony
    case NotRain => d.rowTopNotRain
  }

  /**
   * updateLayout: width = max(320, round(rect width, else client width, else
   * 640)), height = max(270, round(0.56 width)), margins 12/12 horizontally and
   * 28/30 vertically, and the three shelves start at 16%, 42% and 68% of the
   * inner height. The shelves are therefore in order and far more than a
   * pixel apart.
   */
  function Layout(rectWidth: real, clientWidth: real): (d: Dims)
    ensures d.width >= 320.0 && d.height >= 270.0
    ensures d.innerWidth == d.width - 24.0 && d.innerHeight == d.height - 58.0
    ensures 0.0 < d.rowTopRain && d.rowTopNotRain < d.innerHeight
    ensures d.rowTopRain + 50.0 < d.rowTopTestimony && d.rowTopTestimony + 50.0 < d.rowTopNotRain
  {
    var measured := if rectWidth != 0.0 then rectWidth else if clientWidth != 0.0 then clientWidth else 640.0;
    var w := Max(320.0, Round(measured) as real);
    var h := Max(270.0, Round(w * 0.56) as real);
    var innerHeight := Max(1.0, h - 28.0 - 30.0);
    Dims(w, h, Max(1.0, w - 12.0 - 12.0), innerHeight,
         innerHeight * 0.16, innerHeight * 0.42, innerHeight * 0.68)
  }

  /** The keys the perspective tabs react to. */
  datatype TabKey = NextTab | PreviousTab | FirstTab | LastTab

  function ParseTabKey(key: string): (k: Option<TabKey>)
    ensures k == Some(NextTab) <==> key == "ArrowRight" || key == "ArrowDown"
    ensures k == Some(PreviousTab) <==> key == "ArrowLeft" || key == "ArrowUp"
    ensures k == Some(FirstTab) <==> key == "Home"
    ensures k == Some(LastTab) <==> key == "End"
  {
    if key == "ArrowRight" || key == "ArrowDown" then Some(NextTab)
    else if key == "ArrowLeft" || key == "ArrowUp" then Some(PreviousTab)
    else if key == "Home" then Some(FirstTab)
    else if key == "End" then Some(LastTab)
    else None
  }

  lemma WrapForward(ix: int, count: int)
    requires 0 <= ix < count
    ensures (ix + 1) % count == (if ix == count - 1 then 0 else ix + 1)
  {
    if ix == count - 1 {
      assert ix + 1 == count;
    }
  }

  lemma WrapBackward(ix: int, count: int)
    requires 0 <= ix < count
    ensures (ix - 1 + count) % count == (if ix == 0 then count - 1 else ix - 1)
  {
    if ix > 0 {
      assert ix - 1 + count == (ix - 1) + 1 * count;
    }
  }

  /**
   * onTabKeydown: the index of the tab that receives focus, or None when the
   * key is not a tab key or there are no tabs. `current` is the indexOf of the
   * focused tab (-1 when absent, then treated as 0); the arrows wrap around.
   */
  function NextTabIndex(key: string, current: int, count: nat): (r: Option<nat>)
    requires -1 <= current && (current < count || current == -1)
    ensures r.Some? <==> count > 0 && ParseTabKey(key).Some?
    ensures r.Some? ==> r.value < count
    ensures var ix := if current < 0 then 0 else current;
      r.Some? && ParseTabKey(key) == Some(NextTab) ==> r.value == (if ix == count - 1 then 0 else ix + 1)
    ensures var ix := if current < 0 then 0 else current;
      r.Some? && ParseTabKey(key) == Some(PreviousTab) ==> r.value == (if ix == 0 then count - 1 else ix - 1)
    ensures r.Some? && ParseTabKey(key) == Some(FirstTab) ==> r.value == 0
    ensures r.Some? && ParseTabKey(key) == Some(LastTab) ==> r.value == count - 1
  {
    var k := ParseTabKey(key);
    if k.None? || count == 0 then None
    else
      var ix := if current < 0 then 0 else current;
      match k.value
      case NextTab => WrapForward(ix, count); Some((ix + 1) % count)
      case PreviousTab => WrapBackward(ix, count); Some((ix - 1 + count) % count)
      case FirstTab => Some(0)
      case LastTab => Some(count - 1)
  }
}
