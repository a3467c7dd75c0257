/*
 * The value-level rules of the rain engine page (public/js/rain/rain_engine.js):
 * the cubic easing and the inverse-CDF sampler, the posterior-shift
 * classification used by the prediction prompt, recognition of the named
 * presets, the aria-describedby token edit, the monotone unlock progression,
 * the decision rule with its cost-derived threshold, the merge of a state
 * read from the URL hash, and the replay step arithmetic.
 */
module EngineRules {
  import opened Numeric
  import RainModel

  const PredictionSameDelta: real := 0.03
  const PresetTolerance: real := 0.005
  const SamplerMinSpan: real := 0.000001
  const DefaultDecisionThreshold: real := 0.60
  const DefaultCost: real := 1.0
  const MinCost: real := 0.1
  /** The help-text id the unlock pass toggles on locked controls: empty. */
  const LockedHelpId: string := ""

  // ---------------------------------------------------------------- easing

  function Cube(x: real): real { x * x * x }

  lemma CubeBounds(a: real, b: real)
    requires 0.0 <= a <= b
    ensures 0.0 <= Cube(a) <= Cube(b)
  {
    MulNonneg(a, a);
    MulNonneg(a * a, a);
    assert a * a <= b * b by { assert a * a <= a * b <= b * b; }
    MulNonneg(b, b);
    assert a * a * a <= b * b * a <= b * b * b;
  }

  /**
   * cubicInOut: the symmetric cubic ease on the clamped argument, 4p^3 below
   * one half and 1 - (2 - 2p)^3 / 2 from one half on.
   */
  function CubicInOut(t: Num): (r: real)
    ensures InUnit(r)
    ensures t == Finite(0.0) ==> r == 0.0
    ensures t == Finite(0.5) ==> r == 0.5
    ensures t == Finite(1.0) ==> r == 1.0
    ensures Clamp01(t) < 0.5 ==> r < 0.5
    ensures Clamp01(t) >= 0.5 ==> r >= 0.5
  {
    var p := Clamp01(t);
    if p < 0.5 then
      CubeBounds(p, 0.5);
      4.0 * Cube(p)
    else
      var q := -2.0 * p + 2.0;
      CubeBounds(q, 1.0);
      1.0 - Cube(q) / 2.0
  }

  /** The ease is point-symmetric about (1/2, 1/2): the second half mirrors the first. */
  lemma CubicInOutSymmetric(p: real)
    requires InUnit(p)
    ensures CubicInOut(Finite(1.0 - p)) == 1.0 - CubicInOut(Finite(p))
  {
    var q := 1.0 - p;
    if p < 0.5 {
      assert -2.0 * q + 2.0 == 2.0 * p;
      assert Cube(2.0 * p) == 8.0 * Cube(p);
    } else if p > 0.5 {
      assert -2.0 * p + 2.0 == 2.0 * q;
      assert Cube(2.0 * q) == 8.0 * Cube(q);
    }
  }

  // --------------------------------------------------------------- sampler

  /**
   * sampleFromCdf: an empty table yields the caller's uniform draw (the source
   * calls Math.random); otherwise a binary search finds the first entry that
   * reaches the clamped draw `u` and the sample is interpolated inside that bin.
   */
  method SampleFromCdf(cdf: seq<real>, u: Num, randomDraw: real) returns (x: real)
    ensures |cdf| == 0 ==> x == randomDraw
    ensures |cdf| > 0 ==> InUnit(x)
    ensures |cdf| > 0 && Nondecreasing(cdf) ==>
      x == CdfPoint(cdf, Clamp01(u), FirstReaching(cdf, Clamp01(u), 0), SamplerMinSpan)
  {
    if |cdf| == 0 {
      return randomDraw;
    }
    var target := Clamp01(u);
    var lo := SearchCdf(cdf, target);
    if Nondecreasing(cdf) {
      LowerBoundIsFirstReaching(cdf, target, lo);
    }
    x := CdfPoint(cdf, target, lo, SamplerMinSpan);
  }

  // ------------------------------------------------------ prediction prompt

  datatype Shift = Higher | Lower | Same

  /** classifyPosteriorShift: moves of at most 0.03 either way count as "about the same". */
  function ClassifyPosteriorShift(prior: real, posterior: real): (k: Shift)
    ensures k == Same <==> Abs(posterior - prior) <= PredictionSameDelta
    ensures k == Higher <==> posterior - prior > PredictionSameDelta
    ensures k == Lower <==> prior - posterior > PredictionSameDelta
  {
    var delta := posterior - prior;
    if delta > PredictionSameDelta then Higher
    else if delta < -PredictionSameDelta then Lower
    else Same
  }

  /** Swapping prior and posterior swaps "higher" and "lower". */
  lemma ClassifyAntisymmetric(a: real, b: real)
    ensures ClassifyPosteriorShift(a, b) == Higher <==> ClassifyPosteriorShift(b, a) == Lower
    ensures ClassifyPosteriorShift(a, b) == Same <==> ClassifyPosteriorShift(b, a) == Same
  {
  }

  // --------------------------------------------------------------- presets

  /** The three slider values the engine keeps in its `state` object. */
  datatype Beliefs = Beliefs(prior: real, tGivenR: real, tGivenNotR: real)

  function BeliefsOf(p: RainModel.Preset): Beliefs {
    Beliefs(p.prior, p.tGivenR, p.tGivenNotR)
  }

  predicate ApproximatelyEqual(a: real, b: real) {
    Abs(a - b) <= PresetTolerance
  }

  /** statesMatchPreset: all three values within 0.005 of the preset's. */
  predicate MatchesPreset(s: Beliefs, p: RainModel.Preset) {
    ApproximatelyEqual(s.prior, p.prior)
    && ApproximatelyEqual(s.tGivenR, p.tGivenR)
    && ApproximatelyEqual(s.tGivenNotR, p.tGivenNotR)
  }

  /** The key of the first preset in `ps` that `s` matches, if any. */
  function FirstMatchingPreset(s: Beliefs, ps: seq<RainModel.Preset>): (k: Option<string>)
    ensures k.None? <==> forall i :: 0 <= i < |ps| ==> !MatchesPreset(s, ps[i])
    ensures k.Some? ==> exists i :: 0 <= i < |ps| && ps[i].key == k.value && MatchesPreset(s, ps[i])
  {
    if |ps| == 0 then None
    else if MatchesPreset(s, ps[0]) then Some(ps[0].key)
    else
      var rest := FirstMatchingPreset(s, ps[1..]);
      assert forall i :: 1 <= i < |ps| ==> ps[i] == ps[1..][i - 1];
      rest
  }

  /**
   * getMatchingPresetKey: scans the presets in declaration order and returns
   * the first one the state matches.
   */
  method GetMatchingPresetKey(s: Beliefs) returns (key: Option<string>)
    ensures key == FirstMatchingPreset(s, RainModel.Presets)
  {
    var ps := RainModel.Presets;
    var i := 0;
    while i < |ps|
      invariant 0 <= i <= |ps|
      invariant FirstMatchingPreset(s, ps) == FirstMatchingPreset(s, ps[i..])
    {
      if MatchesPreset(s, ps[i]) {
        return Some(ps[i].key);
      }
      assert ps[i..][1..] == ps[i + 1..];
      i := i + 1;
    }
    return None;
  }

  /** Each preset is recognised as itself: the presets are pairwise far apart. */
  lemma PresetsRecogniseThemselves()
    ensures FirstMatchingPreset(BeliefsOf(RainModel.Canonical), RainModel.Presets) == Some(RainModel.Canonical.key)
    ensures FirstMatchingPreset(BeliefsOf(RainModel.VeryReliable), RainModel.Presets) == Some(RainModel.VeryReliable.key)
    ensures FirstMatchingPreset(BeliefsOf(RainModel.Unreliable), RainModel.Presets) == Some(RainModel.Unreliable.key)
  {
    var ps := RainModel.Presets;
    var tail := [RainModel.VeryReliable, RainModel.Unreliable];
    assert ps[1..] == tail;
    assert tail[1..] == [RainModel.Unreliable];
    SkipsPreset(BeliefsOf(RainModel.VeryReliable), ps);
    SkipsPreset(BeliefsOf(RainModel.Unreliable), ps);
    SkipsPreset(BeliefsOf(RainModel.Unreliable), tail);
  }

  /** A preset the state does not match is passed over. */
  lemma SkipsPreset(s: Beliefs, ps: seq<RainModel.Preset>)
    requires |ps| > 0 && !MatchesPreset(s, ps[0])
    ensures FirstMatchingPreset(s, ps) == FirstMatchingPreset(s, ps[1..])
  {
  }

  /** The preset stored under a key of RainModel.PRESETS. */
  function PresetByKey(key: string): (p: Option<RainModel.Preset>)
    ensures p.Some? ==> p.value in RainModel.Presets && p.value.key == key
    ensures p.None? ==> forall i :: 0 <= i < |RainModel.Presets| ==> RainModel.Presets[i].key != key
  {
    if key == RainModel.Canonical.key then Some(RainModel.Canonical)
    else if key == RainModel.VeryReliable.key then Some(RainModel.VeryReliable)
    else if key == RainModel.Unreliable.key then Some(RainModel.Unreliable)
    else None
  }

  /**
   * updateActivePresetFromManualInput: the highlighted preset is dropped as
   * soon as the state no longer matches it. The source dereferences the preset
   * for the stored key, so the key must name a preset.
   */
  function ActivePresetAfterInput(active: Option<string>, s: Beliefs): (r: Option<string>)
    requires active.Some? ==> PresetByKey(active.value).Some?
    ensures r == active || r == None
    ensures r.Some? ==> MatchesPreset(s, PresetByKey(r.value).value)
    ensures active.Some? && MatchesPreset(s, PresetByKey(active.value).value) ==> r == active
  {
    if active.Some? && !MatchesPreset(s, PresetByKey(active.value).value) then None else active
  }

  // -------------------------------------------------------- aria-describedby

  /**
   * What toggleDescribedBy leaves on the element: nothing touched, the
   * attribute set to the space-joined token list, or the attribute removed.
   */
  datatype DescribedBy = Untouched | Tokens(list: seq<string>) | Removed

  /** Array.prototype.indexOf on a token list. */
  function IndexOf(ts: seq<string>, t: string): (ix: int)
    ensures -1 <= ix < |ts|
    ensures ix == -1 <==> t !in ts
    ensures ix >= 0 ==> ts[ix] == t && t !in ts[..ix]
  {
    if |ts| == 0 then -1
    else if ts[0] == t then 0
    else
      var rest := IndexOf(ts[1..], t);
      assert ts[1..] == ts[1..];
      if rest == -1 then -1
      else
        assert ts[..rest + 1] == [ts[0]] + ts[1..][..rest];
        rest + 1
  }

  /** The tokens other than `t`, in order. */
  function Without(ts: seq<string>, t: string): (r: seq<string>)
    ensures t !in r
    ensures forall x :: x in r <==> x in ts && x != t
  {
    if |ts| == 0 then []
    else if ts[0] == t then Without(ts[1..], t)
    else [ts[0]] + Without(ts[1..], t)
  }

  /** How many times `t` occurs in the list. */
  function Occurrences(ts: seq<string>, t: string): nat {
    if |ts| == 0 then 0 else (if ts[0] == t then 1 else 0) + Occurrences(ts[1..], t)
  }

  /**
   * toggleDescribedBy on the element's current token list: with no target or
   * an empty token nothing happens; otherwise the token is appended when it
   * should be present and is absent, its first occurrence is spliced out when
   * it should be absent, and the attribute is rewritten, or removed when the
   * list has become empty.
   */
  function ToggleDescribedBy(hasTarget: bool, tokens: seq<string>, token: string, shouldInclude: bool): (r: DescribedBy)
  {
    if !hasTarget || token == "" then Untouched
    else
      var ix := IndexOf(tokens, token);
      var next :=
        if shouldInclude && ix == -1 then tokens + [token]
        else if !shouldInclude && ix != -1 then tokens[..ix] + tokens[ix + 1..]
        else tokens;
      if |next| > 0 then Tokens(next) else Removed
  }

  /** The token list an edit leaves on the element, given the list it started from. */
  function TokensAfter(before: seq<string>, r: DescribedBy): seq<string> {
    match r
    case Untouched => before
    case Tokens(list) => list
    case Removed => []
  }

  lemma AppendWithout(a: seq<string>, b: seq<string>, t: string)
    ensures Without(a + b, t) == Without(a, t) + Without(b, t)
    decreases |a|
  {
    if |a| > 0 {
      assert (a + b)[1..] == a[1..] + b;
      AppendWithout(a[1..], b, t);
    } else {
      assert a + b == b;
    }
  }

  lemma {:induction false} SplitOccurrences(a: seq<string>, b: seq<string>, t: string)
    ensures Occurrences(a + b, t) == Occurrences(a, t) + Occurrences(b, t)
    decreases |a|
  {
    if |a| > 0 {
      assert (a + b)[1..] == a[1..] + b;
      SplitOccurrences(a[1..], b, t);
    } else {
      assert a + b == b;
    }
  }

  lemma {:induction false} AbsentHasNoOccurrences(ts: seq<string>, t: string)
    requires t !in ts
    ensures Occurrences(ts, t) == 0
    decreases |ts|
  {
    if |ts| > 0 {
      assert t !in ts[1..] by { assert forall x :: x in ts[1..] ==> x in ts; }
      AbsentHasNoOccurrences(ts[1..], t);
    }
  }

  lemma {:induction false} NoOccurrencesMeansAbsent(ts: seq<string>, t: string)
    requires Occurrences(ts, t) == 0
    ensures t !in ts
  {
    if t in ts {
      var j :| 0 <= j < |ts| && ts[j] == t;
      OccurrenceCounted(ts, j);
    }
  }

  lemma {:induction false} OccurrenceCounted(ts: seq<string>, j: nat)
    requires j < |ts|
    ensures Occurrences(ts, ts[j]) >= 1
    decreases j
  {
    if j > 0 {
      OccurrenceCounted(ts[1..], j - 1);
    }
  }

  /** Splicing out entry `ix` (a copy of `t`) removes one occurrence and keeps the other tokens. */
  lemma SpliceFacts(ts: seq<string>, ix: nat, t: string)
    requires ix < |ts| && ts[ix] == t
    ensures Without(ts[..ix] + ts[ix + 1..], t) == Without(ts, t)
    ensures Occurrences(ts, t) == Occurrences(ts[..ix], t) + 1 + Occurrences(ts[ix + 1..], t)
  {
    assert ts == ts[..ix] + [t] + ts[ix + 1..];
    AppendWithout(ts[..ix] + [t], ts[ix + 1..], t);
    AppendWithout(ts[..ix], [t], t);
    AppendWithout(ts[..ix], ts[ix + 1..], t);
    SplitOccurrences(ts[..ix] + [t], ts[ix + 1..], t);
    SplitOccurrences(ts[..ix], [t], t);
  }

  /** Excluding a token splices its first copy; with at most one copy, none is left. */
  lemma ToggleExcludes(tokens: seq<string>, token: string)
    requires token != ""
    ensures var after := TokensAfter(tokens, ToggleDescribedBy(true, tokens, token, false));
      && (Occurrences(tokens, token) <= 1 ==> token !in after)
      && Without(after, token) == Without(tokens, token)
  {
    var ix := IndexOf(tokens, token);
    if ix != -1 {
      var before, after := tokens[..ix], tokens[ix + 1..];
      assert TokensAfter(tokens, ToggleDescribedBy(true, tokens, token, false)) == before + after;
      SpliceFacts(tokens, ix, token);
      if Occurrences(tokens, token) <= 1 {
        AbsentHasNoOccurrences(before, token);
        NoOccurrencesMeansAbsent(after, token);
        SplitOccurrences(before, after, token);
        NoOccurrencesMeansAbsent(before + after, token);
      }
    }
  }

  /** Including a token leaves it present and the other tokens as they were. */
  lemma ToggleIncludes(tokens: seq<string>, token: string)
    requires token != ""
    ensures var after := TokensAfter(tokens, ToggleDescribedBy(true, tokens, token, true));
      token in after && Without(after, token) == Without(tokens, token)
  {
    if token !in tokens {
      AppendWithout(tokens, [token], token);
    }
  }

  /**
   * The edit does what the attribute's name promises: an included token ends
   * up present, an excluded token ends up absent unless the attribute listed
   * it more than once (only the first copy is spliced), every other token
   * stays in its order, and the attribute is removed exactly when the list
   * is empty.
   */
  lemma ToggleDescribedByMeaning(tokens: seq<string>, token: string, shouldInclude: bool)
    requires token != ""
    ensures var after := TokensAfter(tokens, ToggleDescribedBy(true, tokens, token, shouldInclude));
      && (shouldInclude ==> token in after)
      && (!shouldInclude && Occurrences(tokens, token) <= 1 ==> token !in after)
      && Without(after, token) == Without(tokens, token)
      && (ToggleDescribedBy(true, tokens, token, shouldInclude) == Removed <==> after == [])
  {
    if shouldInclude {
      ToggleIncludes(tokens, token);
    } else {
      ToggleExcludes(tokens, token);
    }
  }

  /** Adding an absent token and then taking it out again restores the list. */
  lemma ToggleRoundTrip(tokens: seq<string>, token: string)
    requires token != "" && token !in tokens
    ensures var added := TokensAfter(tokens, ToggleDescribedBy(true, tokens, token, true));
      TokensAfter(added, ToggleDescribedBy(true, added, token, false)) == tokens
  {
    var added := tokens + [token];
    assert added[|tokens|] == token;
    assert forall i :: 0 <= i < |tokens| ==> added[i] == tokens[i];
    assert added[..|tokens|] == tokens;
  }

  /**
   * The unlock pass toggles the empty help id, so it never edits any
   * control's aria-describedby.
   */
  lemma LockedHelpNeverEdits(hasTarget: bool, tokens: seq<string>, locked: bool)
    ensures ToggleDescribedBy(hasTarget, tokens, LockedHelpId, locked) == Untouched
  {
  }

  // ---------------------------------------------------------------- unlock

  /**
   * A control or story section whose data-step attribute reads as `step` is
   * unlocked when `step <= unlockStep`; a step that is not a number never is.
   */
  predicate Unlocked(step: Num, unlockStep: real) {
    match step
    case Finite(v) => v <= unlockStep
    case NaN => false
    case Infinity(positive) => !positive
  }

  /**
   * setUnlockStep: `max(unlockStep, Number(next) || 1)`. Both callers pass a
   * finite number, so the only falsy argument is 0, which reads as 1.
   */
  function NextUnlockStep(current: real, next: real): (r: real)
    ensures r >= current
    ensures r >= (if next == 0.0 then 1.0 else next)
    ensures r == current || r == next || (next == 0.0 && r == 1.0)
  {
    Max(current, if next == 0.0 then 1.0 else next)
  }

  /** Unlocking is one-way: a step unlocked before a call stays unlocked after it. */
  lemma UnlockNeverRelocks(step: Num, current: real, next: real)
    requires Unlocked(step, current)
    ensures Unlocked(step, NextUnlockStep(current, next))
  {
  }

  // -------------------------------------------------------------- decision

  datatype Decision = Decision(
    threshold: real,
    useCostThreshold: bool,
    falsePositiveCost: real,
    falseNegativeCost: real)

  const DefaultDecision: Decision := Decision(DefaultDecisionThreshold, false, DefaultCost, DefaultCost)

  /** Costs are floored at 0.1 wherever the page reads them from input. */
  function FloorCost(c: real): (r: real)
    ensures r >= MinCost
    ensures c >= MinCost ==> r == c
  {
    Max(MinCost, c)
  }

  /**
   * The break-even threshold of the cost mode: cfp / (cfp + cfn) with both
   * costs floored at 0.1, clamped to [0, 1] (which it already is).
   */
  function CostThreshold(falsePositiveCost: real, falseNegativeCost: real): (t: real)
    ensures 0.0 < t < 1.0
    ensures t == FloorCost(falsePositiveCost) / (FloorCost(falsePositiveCost) + FloorCost(falseNegativeCost))
  {
    var cfp := FloorCost(falsePositiveCost);
    var cfn := FloorCost(falseNegativeCost);
    var q := cfp / (cfp + cfn);
    assert 0.0 < q < 1.0 by {
      assert q * (cfp + cfn) == cfp;
    }
    ClampUnit(q)
  }

  /**
   * A decision state is consistent when its threshold is a probability, its
   * costs respect the 0.1 floor and, in cost mode, the threshold is the one
   * the costs imply.
   */
  predicate DecisionValid(d: Decision) {
    InUnit(d.threshold)
    && d.falsePositiveCost >= MinCost && d.falseNegativeCost >= MinCost
    && (d.useCostThreshold ==> d.threshold == CostThreshold(d.falsePositiveCost, d.falseNegativeCost))
  }

  /** refreshThresholdFromCosts: in cost mode the threshold follows the costs. */
  function RefreshThresholdFromCosts(d: Decision): (r: Decision)
    ensures !d.useCostThreshold ==> r == d
    ensures r == d.(threshold := r.threshold)
    ensures InUnit(d.threshold) && d.falsePositiveCost >= MinCost && d.falseNegativeCost >= MinCost
      ==> DecisionValid(r)
  {
    if !d.useCostThreshold then d
    else d.(threshold := CostThreshold(d.falsePositiveCost, d.falseNegativeCost))
  }

  /** DecisionViz.setDecisionState: take the umbrella when the posterior reaches the threshold. */
  predicate TakeUmbrella(posterior: real, threshold: real) {
    posterior >= threshold
  }

  datatype Losses = Losses(umbrella: real, noUmbrella: real)

  /**
   * updateLossReadout: the expected loss of taking the umbrella is
   * cfp * (1 - p) (it stays dry), of leaving it cfn * p (it rains).
   */
  function ExpectedLosses(posterior: real, d: Decision): (l: Losses)
    ensures d.falsePositiveCost >= 0.0 && d.falseNegativeCost >= 0.0 ==>
      0.0 <= l.umbrella <= d.falsePositiveCost && 0.0 <= l.noUmbrella <= d.falseNegativeCost
  {
    var p := ClampUnit(posterior);
    Losses(WeightedCost(d.falsePositiveCost, 1.0 - p), WeightedCost(d.falseNegativeCost, p))
  }

  /** A cost weighted by a probability lies between nothing and the whole cost. */
  function WeightedCost(cost: real, w: real): (r: real)
    requires InUnit(w)
    ensures cost >= 0.0 ==> 0.0 <= r <= cost
  {
    ScaleUnitBounds(cost, w);
    cost * w
  }

  /**
   * In cost mode the decision rule minimises expected loss: the umbrella is
   * taken exactly when its expected loss is no greater than leaving it.
   */
  lemma CostThresholdMinimisesLoss(posterior: real, d: Decision)
    requires InUnit(posterior) && DecisionValid(d) && d.useCostThreshold
    ensures TakeUmbrella(posterior, d.threshold) <==>
      ExpectedLosses(posterior, d).umbrella <= ExpectedLosses(posterior, d).noUmbrella
  {
    var cfp := d.falsePositiveCost;
    var cfn := d.falseNegativeCost;
    BreakEvenProduct(cfp, cfn);
    BreakEvenCrossing(posterior, d.threshold, cfp, cfn);
  }

  lemma BreakEvenProduct(cfp: real, cfn: real)
    requires cfp >= MinCost && cfn >= MinCost
    ensures CostThreshold(cfp, cfn) * (cfp + cfn) == cfp
  {
    var t := CostThreshold(cfp, cfn);
    assert t == cfp / (cfp + cfn);
  }

  /** With t (a + b) = a and a + b > 0: p >= t exactly when b p >= a (1 - p). */
  lemma BreakEvenCrossing(p: real, t: real, a: real, b: real)
    requires a > 0.0 && b > 0.0 && t * (a + b) == a
    ensures p >= t <==> a * (1.0 - p) <= b * p
  {
    assert a * (1.0 - p) <= b * p <==> a <= p * (a + b);
    if p >= t {
      assert p * (a + b) >= t * (a + b);
    } else {
      assert p * (a + b) < t * (a + b);
    }
  }

  /** The decision-threshold slider leaves cost mode and takes the clamped slider value. */
  function ThresholdSet(d: Decision, value: Num): (r: Decision)
    ensures !r.useCostThreshold && InUnit(r.threshold)
    ensures DecisionValid(d) ==> DecisionValid(r)
  {
    d.(useCostThreshold := false, threshold := Clamp01(value))
  }

  /** The "use costs" checkbox: switching it on recomputes the threshold from the costs. */
  function CostModeSet(d: Decision, checked: bool): (r: Decision)
    ensures r.useCostThreshold == checked
    ensures checked ==> r.threshold == CostThreshold(d.falsePositiveCost, d.falseNegativeCost)
    ensures !checked ==> r.threshold == d.threshold
    ensures DecisionValid(d) ==> DecisionValid(r)
  {
    RefreshThresholdFromCosts(d.(useCostThreshold := checked))
  }

  /**
   * The false-positive cost slider: the cost is floored at 0.1 and, in cost
   * mode, the threshold follows. The slider's value is always a finite number.
   */
  function FalsePositiveCostSet(d: Decision, value: real): (r: Decision)
    ensures r.falsePositiveCost == FloorCost(value)
    ensures r.useCostThreshold == d.useCostThreshold && r.falseNegativeCost == d.falseNegativeCost
    ensures !d.useCostThreshold ==> r.threshold == d.threshold
    ensures DecisionValid(d) ==> DecisionValid(r)
  {
    RefreshThresholdFromCosts(d.(falsePositiveCost := FloorCost(value)))
  }

  /** The false-negative cost slider, symmetric to the false-positive one. */
  function FalseNegativeCostSet(d: Decision, value: real): (r: Decision)
    ensures r.falseNegativeCost == FloorCost(value)
    ensures r.useCostThreshold == d.useCostThreshold && r.falsePositiveCost == d.falsePositiveCost
    ensures !d.useCostThreshold ==> r.threshold == d.threshold
    ensures DecisionValid(d) ==> DecisionValid(r)
  {
    RefreshThresholdFromCosts(d.(falseNegativeCost := FloorCost(value)))
  }

  // ------------------------------------------------------------ hash merge

  /**
   * The fields getInputFromHash found: numbers that parsed as finite, and the
   * cost-mode flag when it read "1" or "0".
   */
  datatype HashPartial = HashPartial(
    prior: Option<real>,
    tGivenR: Option<real>,
    tGivenNotR: Option<real>,
    decisionThreshold: Option<real>,
    falsePositiveCost: Option<real>,
    falseNegativeCost: Option<real>,
    useCostThreshold: Option<bool>)

  function Pick(v: Option<real>, current: real): real {
    if v.Some? then v.value else current
  }

  /**
   * The start-up merge of a hash state over the defaults: each field falls
   * back to its default independently; probabilities and the threshold are
   * clamped to [0, 1] and costs floored at 0.1. No hash keeps the defaults.
   */
  function MergeHash(s: Beliefs, d: Decision, hash: Option<HashPartial>): (r: (Beliefs, Decision))
    ensures hash.None? ==> r == (s, d)
    ensures hash.Some? ==>
      var h := hash.value;
      && r.0 == Beliefs(ClampUnit(Pick(h.prior, s.prior)), ClampUnit(Pick(h.tGivenR, s.tGivenR)),
                        ClampUnit(Pick(h.tGivenNotR, s.tGivenNotR)))
      && r.1.threshold == ClampUnit(Pick(h.decisionThreshold, d.threshold))
      && r.1.falsePositiveCost == FloorCost(Pick(h.falsePositiveCost, d.falsePositiveCost))
      && r.1.falseNegativeCost == FloorCost(Pick(h.falseNegativeCost, d.falseNegativeCost))
      && r.1.useCostThreshold == (if h.useCostThreshold.Some? then h.useCostThreshold.value else d.useCostThreshold)
  {
    match hash
    case None => (s, d)
    case Some(h) =>
      (Beliefs(ClampUnit(Pick(h.prior, s.prior)), ClampUnit(Pick(h.tGivenR, s.tGivenR)),
               ClampUnit(Pick(h.tGivenNotR, s.tGivenNotR))),
       Decision(
         ClampUnit(Pick(h.decisionThreshold, d.threshold)),
         if h.useCostThreshold.Some? then h.useCostThreshold.value else d.useCostThreshold,
         FloorCost(Pick(h.falsePositiveCost, d.falsePositiveCost)),
         FloorCost(Pick(h.falseNegativeCost, d.falseNegativeCost))))
  }

  predicate BeliefsInUnit(s: Beliefs) {
    InUnit(s.prior) && InUnit(s.tGivenR) && InUnit(s.tGivenNotR)
  }

  /** The start-up state: the canonical preset and default decision, merged with the hash and refreshed. */
  function InitialInputs(hash: Option<HashPartial>): (r: (Beliefs, Decision))
  {
    var m := MergeHash(BeliefsOf(RainModel.Canonical), DefaultDecision, hash);
    (m.0, RefreshThresholdFromCosts(m.1))
  }

  /**
   * Whatever the hash holds, the page starts from probabilities in [0, 1] and
   * a consistent decision state; a field the hash leaves out keeps its default.
   */
  lemma InitialInputsValid(hash: Option<HashPartial>)
    ensures BeliefsInUnit(InitialInputs(hash).0) && DecisionValid(InitialInputs(hash).1)
    ensures hash.Some? && hash.value.prior.None? ==> InitialInputs(hash).0.prior == RainModel.Canonical.prior
    ensures hash.Some? && hash.value.falsePositiveCost.None? ==> InitialInputs(hash).1.falsePositiveCost == DefaultCost
    ensures hash.None? ==> InitialInputs(hash) == (BeliefsOf(RainModel.Canonical), DefaultDecision)
  {
  }

  // ---------------------------------------------------------- replay steps

  /** `Math.max(1, Math.min(4, Number(step) || 1))`. */
  function ClampStep(n: Num): (r: real)
    ensures 1.0 <= r <= 4.0
    ensures n.Finite? && 1.0 <= n.value <= 4.0 ==> r == n.value
    ensures !Truthy(n) ==> r == 1.0
    ensures n == Infinity(true) ==> r == 4.0
  {
    match n
    case Finite(v) => if v == 0.0 then 1.0 else Max(1.0, Min(4.0, v))
    case NaN => 1.0
    case Infinity(positive) => if positive then 4.0 else 1.0
  }

  /** setActiveReplayStepButton: "previous" is disabled with no step or at step 1 or below. */
  predicate PrevDisabled(step: Option<real>) {
    step.None? || step.value <= 1.0
  }

  /** "next" is disabled with no step or at step 4 or above. */
  predicate NextDisabled(step: Option<real>) {
    step.None? || step.value >= 4.0
  }

  /** The step the prev/next buttons start from: the current one, or 1 when none is shown. */
  function CurrentStep(step: Option<real>): real {
    if step.Some? then step.value else 1.0
  }

  /**
   * From a whole step in 1..4, a prev or next click that the buttons allow
   * always moves to the neighbouring step.
   */
  lemma EnabledButtonsStayInRange(step: Option<real>)
    requires step.Some? && 1.0 <= step.value <= 4.0 && step.value == step.value.Floor as real
    ensures !PrevDisabled(step) ==> ClampStep(Finite(CurrentStep(step) - 1.0)) == step.value - 1.0
    ensures !NextDisabled(step) ==> ClampStep(Finite(CurrentStep(step) + 1.0)) == step.value + 1.0
  {
  }

  /** REPLAY_STEP_HOLD_MS (or its reduced-motion variant) for step `k` in 1..4. */
  function StepHold(reduced: bool, k: nat): (ms: real)
    requires 1 <= k <= 4
    ensures ms > 0.0
  {
    if reduced then 450.0 else if k == 4 then 900.0 else 1000.0
  }

  /** When step `k` is applied, counted from the start of a cycle: the holds of the earlier steps. */
  function StepOffset(reduced: bool, k: nat): (ms: real)
    requires 1 <= k <= 4
    decreases k
  {
    if k == 1 then 0.0 else StepOffset(reduced, k - 1) + StepHold(reduced, k - 1)
  }

  /** getReplayTotalDuration: the four holds added up. */
  function ReplayTotalDuration(reduced: bool): (ms: real)
    ensures ms == StepOffset(reduced, 4) + StepHold(reduced, 4)
    ensures ms == (if reduced then 1800.0 else 3900.0)
  {
    StepHold(reduced, 1) + StepHold(reduced, 2) + StepHold(reduced, 3) + StepHold(reduced, 4)
  }

  /** Within a cycle the steps come in order, and the last one before the cycle ends. */
  lemma {:induction false} StepOffsetsIncrease(reduced: bool, j: nat, k: nat)
    requires 1 <= j < k <= 4
    ensures StepOffset(reduced, j) < StepOffset(reduced, k) < ReplayTotalDuration(reduced)
    decreases 4 - j, k
  {
    if j < k - 1 {
      StepOffsetsIncrease(reduced, j, k - 1);
    }
    if k < 4 {
      StepOffsetsIncrease(reduced, k, 4);
    }
  }

  /** jumpToReplayStep's progress bar: (step - 1) / 3, so step 1 shows empty and step 4 full. */
  function JumpProgress(step: real): (p: real)
    requires 1.0 <= step <= 4.0
    ensures InUnit(p)
    ensures step == 1.0 ==> p == 0.0
    ensures step == 4.0 ==> p == 1.0
  {
    (step - 1.0) / 3.0
  }
}
