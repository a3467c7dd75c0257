/*
 * The state of the conditional-probability panel: the probabilities it
 * shows, the perspective and narrative stage of the staged zoom, the
 * running/paused bookkeeping of the drop simulation, and the population of
 * falling drops.
 *
 * Browser timers are fields: `stageTimer` is the one pending stage callback
 * (FireStageTimer is that callback running), `runningActual` stands for the
 * animation-frame timer and `cycleRunning` for the perspective-cycle
 * interval. Frame times, Math.random samples, the easing curve and the
 * mount's measured size are inputs.
 */
module ConditionalPanel {
  import opened Numeric
  import opened ConditionalGeometry
  import opened ConditionalDrops
  import RainModel

  const DefaultMaxDrops: real := 180.0
  const DefaultSpawnMs: real := 70.0
  const StageSubsetMs: real := 260.0
  const StageRenormalizeMs: real := 360.0
  const PerspectiveCycleMs: real := 1800.0
  /** The longest frame a single simulation step accounts for. */
  const MaxFrameMs: real := 64.0

  /** The perspective names in the order the automatic cycle visits them. */
  const PerspectiveCycleOrder: seq<string> := ["universe", "rain", "testimony", "not_rain"]

  function CycleIndexOf(p: Perspective): (i: nat)
    ensures i < |PerspectiveCycleOrder| && ParsePerspective(PerspectiveCycleOrder[i]) == p
  {
    match p
    case Universe => 0
    case GivenRain => 1
    case GivenTestimony => 2
    case GivenNotRain => 3
  }

  /** `Math.max(lo, Number(option) || fallback)`: never NaN, +Infinity stays unbounded. */
  function OptionAtLeast(option: Num, lo: real, fallback: real): (r: Num)
    ensures r.Finite? ==> r.value >= lo
    ensures r.Infinity? ==> r.positive
    ensures !r.NaN?
    ensures option.Finite? && option.value != 0.0 ==> r == Finite(Max(lo, option.value))
    ensures !Truthy(option) ==> r == Finite(Max(lo, fallback))
  {
    match OrDefault(option, fallback)
    case Finite(v) => Finite(Max(lo, v))
    case NaN => NaN
    case Infinity(positive) => if positive then Infinity(true) else Finite(lo)
  }

  /** `x < n` for a JavaScript number n. */
  predicate Below(x: real, n: Num) {
    match n
    case Finite(v) => x < v
    case NaN => false
    case Infinity(positive) => positive
  }

  /** `x >= n` for a JavaScript number n. */
  predicate AtLeast(x: real, n: Num) {
    match n
    case Finite(v) => x >= v
    case NaN => false
    case Infinity(positive) => !positive
  }

  /** A numeric option that is at least `lo`, or +Infinity. */
  predicate LimitValid(n: Num, lo: real) {
    (n.Finite? && n.value >= lo) || n == Infinity(true)
  }

  /** `mode || (source is "user" or "replay" ? "staged" : "direct")` names the direct mode. */
  predicate IsDirectMode(mode: string, source: string) {
    var effective := if mode != "" then mode else if source == "user" || source == "replay" then "staged" else "direct";
    effective == "direct"
  }

  /** setPerspective starts a staged transition exactly when none of its direct-change conditions hold. */
  predicate IsStagedChange(key: Perspective, animate: bool, reducedMotion: bool, mode: string, source: string) {
    key != Universe && animate && !reducedMotion && !IsDirectMode(mode, source)
  }

  /** The frame delta stepDrops uses: the time since the last frame, clamped to [0, 64] ms. */
  function FrameDelta(now: real, lastTs: Option<real>): (dt: real)
    ensures 0.0 <= dt <= MaxFrameMs
    ensures lastTs.None? ==> dt == 0.0
    ensures lastTs.Some? && 0.0 <= now - lastTs.value <= MaxFrameMs ==> dt == now - lastTs.value
  {
    var last := if lastTs.Some? then lastTs.value else now;
    Min(MaxFrameMs, Max(0.0, now - last))
  }

  /**
   * update's posterior when none is supplied: Bayes' rule over the stored
   * (clamped) fields with the panel's own 1e-9 guard, falling back to the prior.
   */
  function FallbackPosterior(prior: real, tGivenR: real, tGivenNotR: real): (r: real)
    requires InUnit(prior) && InUnit(tGivenR) && InUnit(tGivenNotR)
    ensures InUnit(r)
  {
    var modelPT := prior * tGivenR + (1.0 - prior) * tGivenNotR;
    if modelPT > Eps then ClampUnit((prior * tGivenR) / modelPT) else prior
  }

  /** The panel's evidence expression is the belief model's evidence on clamped inputs. */
  lemma PanelEvidenceIsEvidence(prior: real, tGivenR: real, tGivenNotR: real)
    requires InUnit(prior) && InUnit(tGivenR) && InUnit(tGivenNotR)
    ensures prior * tGivenR + (1.0 - prior) * tGivenNotR == RainModel.Evidence(prior, tGivenR, tGivenNotR)
  {
    assert ClampUnit(prior) == prior && ClampUnit(tGivenR) == tGivenR && ClampUnit(tGivenNotR) == tGivenNotR;
  }

  /** Above the panel's guard the fallback posterior is the belief model's posterior. */
  lemma FallbackPosteriorIsBayes(prior: real, tGivenR: real, tGivenNotR: real)
    requires InUnit(prior) && InUnit(tGivenR) && InUnit(tGivenNotR)
    requires RainModel.Evidence(prior, tGivenR, tGivenNotR) > Eps
    ensures FallbackPosterior(prior, tGivenR, tGivenNotR) == RainModel.Posterior(prior, tGivenR, tGivenNotR)
  {
    var e := RainModel.Evidence(prior, tGivenR, tGivenNotR);
    PanelEvidenceIsEvidence(prior, tGivenR, tGivenNotR);
    var q := (prior * tGivenR) / e;
    assert q == (tGivenR * prior) / e;
    assert RainModel.Posterior(prior, tGivenR, tGivenNotR) == q by {
      assert ClampUnit(prior) == prior && ClampUnit(tGivenR) == tGivenR;
    }
    assert InUnit(q) by {
      RainModel.NumeratorBelowEvidence(prior, tGivenR, tGivenNotR);
      RainModel.QuotientInUnit(tGivenR * prior, e);
    }
  }

  /** Drops in the live population: each on a valid path, none finished, ids increasing and below the next id. */
  predicate LiveDrops(ds: seq<Drop>, nextId: nat) {
    (forall i :: 0 <= i < |ds| ==> DropInvariant(ds[i]) && !ds[i].done && ds[i].id < nextId)
    && (forall i, j :: 0 <= i < j < |ds| ==> ds[i].id < ds[j].id)
  }

  /** The population after one frame: every drop stepped once, finished ones removed, order kept. */
  function StepAll(ds: seq<Drop>, dt: real, ease: real -> real): (r: seq<Drop>)
    ensures |r| <= |ds|
    decreases |ds|
  {
    if |ds| == 0 then []
    else
      var stepped := StepOneDrop(ds[|ds| - 1], dt, ease);
      StepAll(ds[..|ds| - 1], dt, ease) + (if stepped.done then [] else [stepped])
  }

  /** Stepping keeps the population live: survivors are unfinished, valid and still in id order. */
  lemma {:induction false} StepAllKeepsLive(ds: seq<Drop>, nextId: nat, dt: real, ease: real -> real)
    requires LiveDrops(ds, nextId)
    ensures LiveDrops(StepAll(ds, dt, ease), nextId)
    ensures |ds| > 0 ==> forall i :: 0 <= i < |StepAll(ds, dt, ease)| ==> StepAll(ds, dt, ease)[i].id <= ds[|ds| - 1].id
    decreases |ds|
  {
    if |ds| > 0 {
      var p := ds[..|ds| - 1];
      assert LiveDrops(p, nextId);
      StepAllKeepsLive(p, nextId, dt, ease);
      if |p| > 0 {
        assert p[|p| - 1].id < ds[|ds| - 1].id;
      }
    }
  }

  /** Every drop that survives a frame is the step of a drop that was there. */
  lemma {:induction false} StepAllSurvivors(ds: seq<Drop>, dt: real, ease: real -> real)
    ensures forall y :: y in StepAll(ds, dt, ease) ==> exists x :: x in ds && y == StepOneDrop(x, dt, ease)
    ensures forall x :: x in ds && !StepOneDrop(x, dt, ease).done ==> StepOneDrop(x, dt, ease) in StepAll(ds, dt, ease)
    decreases |ds|
  {
    if |ds| > 0 {
      var p := ds[..|ds| - 1];
      StepAllSurvivors(p, dt, ease);
      assert ds == p + [ds[|ds| - 1]];
    }
  }


  /** The population never passes the cap by a whole drop: spawning stops as soon as the count reaches it. */
  predicate WithinCap(count: nat, cap: Num) {
    count == 0 || Below((count - 1) as real, cap)
  }

  /** Removing drops never breaks the cap. */
  lemma WithinCapDown(smaller: nat, count: nat, cap: Num)
    requires smaller <= count && WithinCap(count, cap)
    ensures WithinCap(smaller, cap)
  {
  }

  /** The from/to domains and the start time of the transition record only drive the drawing. */
  datatype Transition = Transition(active: bool, phase: Option<Stage>)

  /**
   * The panel's `state` object. The layout, intervals and perspective
   * domains that renderAll stores in it are functions of these fields (see
   * Panel.Dimensions, IntervalsOf and SamplingDomainOf).
   */
  datatype PanelState = PanelState(
    prior: real, tGivenR: real, tGivenNotR: real, posterior: real,
    perspective: Perspective, userPerspective: Perspective, narrativeStage: Stage, highlight: Option<EventKey>,
    reducedMotion: bool, runningRequested: bool, runningBeforeReduced: bool, runningActual: bool,
    inView: bool, pageVisible: bool, transitionPaused: bool,
    maxDrops: Num, spawnMs: Num, drops: seq<Drop>, dropId: nat, spawnAccumulator: real, lastTs: Option<real>,
    transition: Transition)

  /** refreshRunningState's condition; whether the panel is in view plays no part. */
  predicate ShouldRun(s: PanelState) {
    !s.reducedMotion && s.runningRequested && s.pageVisible && !s.transitionPaused
  }

  /**
   * What holds of the state object between events: option floors, clamped
   * probabilities, a stopped frame timer that keeps no clock and no
   * accumulated time, and a live population within the cap that is empty,
   * with the timer stopped, in reduced motion.
   */
  predicate StateValid(s: PanelState) {
    LimitValid(s.maxDrops, 40.0) && LimitValid(s.spawnMs, 20.0)
    && InUnit(s.prior) && InUnit(s.tGivenR) && InUnit(s.tGivenNotR) && InUnit(s.posterior)
    && s.spawnAccumulator >= 0.0
    && (!s.runningActual ==> s.lastTs.None? && s.spawnAccumulator == 0.0)
    && (s.reducedMotion ==> s.drops == [] && !s.runningActual)
    && WithinCap(|s.drops|, s.maxDrops)
    && LiveDrops(s.drops, s.dropId)
  }

  datatype StagePhase = ToRenormalized | Unpause

  /** A pending scheduleStage callback, with the token and perspective it was scheduled under. */
  datatype PendingStage = PendingStage(phase: StagePhase, delayMs: real, token: nat, perspective: Perspective)

  /**
   * A call into the host: the event a tab or a simulation button hands to
   * onUserInteraction, or the change setPerspective reports to onPerspectiveChange.
   */
  datatype HostEvent =
    | PerspectiveInteraction(perspective: string)
    | SimStartInteraction
    | SimStopInteraction
    | PerspectiveChanged(changedTo: Perspective, source: string)

  /** The source a perspective change is reported under: the caller's, or "engine" when it gave none. */
  function ReportedSource(source: string): (r: string)
    ensures r != ""
    ensures source != "" ==> r == source
  {
    if source == "" then "engine" else source
  }

  /** What setPerspective reports to onPerspectiveChange: the new key and source, and only on a real change. */
  function ChangeReport(from: Perspective, to: Perspective, source: string): (r: seq<HostEvent>)
    ensures |r| <= 1
    ensures r == [] <==> from == to
    ensures r != [] ==> r[0] == PerspectiveChanged(to, ReportedSource(source))
  {
    if from != to then [PerspectiveChanged(to, ReportedSource(source))] else []
  }

  /** A tab's data-cp-perspective attribute, with "universe" standing in for a missing one. */
  function TabPerspective(attr: string): (name: string)
    ensures name != ""
    ensures ParsePerspective(name) == ParsePerspective(attr)
  {
    if attr == "" then "universe" else attr
  }

  /**
   * The staged transition: a stage callback is pending exactly while the
   * transition is active and the simulation is paused for it, and the
   * pending callback always carries the current token and perspective.
   */
  predicate StageValid(s: PanelState, token: nat, timer: Option<PendingStage>) {
    (timer.Some? <==> s.transitionPaused)
    && (timer.Some? <==> s.transition.active)
    && match timer
       case None => s.transition.phase.None?
       case Some(t) =>
         t.token == token && t.perspective == s.perspective && s.perspective != Universe && !s.reducedMotion
         && (t.phase == ToRenormalized ==>
               s.narrativeStage == Subset && s.transition.phase == Some(Subset) && t.delayMs == StageSubsetMs)
         && (t.phase == Unpause ==>
               s.narrativeStage == Renormalized && s.transition.phase == Some(Renormalized)
               && t.delayMs == StageRenormalizeMs)
  }

  /** The inputs and the drop population, which perspective and stage changes leave alone. */
  predicate SameContent(a: PanelState, b: PanelState) {
    a.prior == b.prior && a.tGivenR == b.tGivenR && a.tGivenNotR == b.tGivenNotR && a.posterior == b.posterior
    && a.highlight == b.highlight && a.reducedMotion == b.reducedMotion && a.runningRequested == b.runningRequested
    && a.runningBeforeReduced == b.runningBeforeReduced && a.inView == b.inView && a.pageVisible == b.pageVisible
    && a.maxDrops == b.maxDrops && a.spawnMs == b.spawnMs && a.drops == b.drops && a.dropId == b.dropId
  }

  /** The state object as init seeds it, before the first refreshRunningState and renderAll. */
  function InitialState(reduced: bool, maxDropsOption: Num, spawnMsOption: Num, pageHidden: bool): (s: PanelState)
    ensures StateValid(s) && StageValid(s, 0, None) && !ShouldRun(s)
    ensures s.maxDrops == OptionAtLeast(maxDropsOption, 40.0, DefaultMaxDrops)
    ensures s.spawnMs == OptionAtLeast(spawnMsOption, 20.0, DefaultSpawnMs)
  {
    PanelState(0.3, 0.85, 0.1, 0.785, Universe, Universe, UniverseStage, None,
      reduced, false, false, false, true, !pageHidden, false,
      OptionAtLeast(maxDropsOption, 40.0, DefaultMaxDrops), OptionAtLeast(spawnMsOption, 20.0, DefaultSpawnMs),
      [], 1, 0.0, None, Transition(false, None))
  }

  /** The seeded probabilities are the canonical preset, and the seeded posterior is its Bayes posterior to three places. */
  lemma InitialStateIsCanonical(reduced: bool, maxDropsOption: Num, spawnMsOption: Num, pageHidden: bool)
    ensures var s := InitialState(reduced, maxDropsOption, spawnMsOption, pageHidden);
      RainModel.Evidence(s.prior, s.tGivenR, s.tGivenNotR) == 0.325
      && RainModel.Posterior(s.prior, s.tGivenR, s.tGivenNotR) == 0.255 / 0.325
      && 0.7845 <= s.posterior < 0.7855
      && 0.7845 <= RainModel.Posterior(s.prior, s.tGivenR, s.tGivenNotR) < 0.7855
  {
    RainModel.CanonicalEvidence();
  }

  // The state-object effect of each closure helper and of each step the
  // public operations take between helper calls.

  /** refreshRunningState: the frame timer runs exactly when ShouldRun holds; starting forgets the clock, stopping forgets the accumulated time too. */
  function Refreshed(s: PanelState): (r: PanelState)
    ensures r.runningActual == ShouldRun(s) && ShouldRun(r) == ShouldRun(s)
    ensures r.(runningActual := s.runningActual, lastTs := s.lastTs, spawnAccumulator := s.spawnAccumulator) == s
    ensures !ShouldRun(s) ==> r.lastTs.None? && r.spawnAccumulator == 0.0
    ensures ShouldRun(s) ==> r.spawnAccumulator == s.spawnAccumulator
  {
    if !ShouldRun(s) then s.(runningActual := false, lastTs := None, spawnAccumulator := 0.0)
    else if s.runningActual || s.reducedMotion then s
    else s.(runningActual := true, lastTs := None)
  }

  /** renderAll: in reduced motion the frame timer stops and every drop goes. */
  function Rendered(s: PanelState): (r: PanelState)
    ensures !s.reducedMotion ==> r == s
    ensures s.reducedMotion ==> r.drops == [] && !r.runningActual && ShouldRun(r) == ShouldRun(s)
  {
    if s.reducedMotion then s.(runningActual := false, lastTs := None, spawnAccumulator := 0.0, drops := [])
    else s
  }

  /** Between events refreshRunningState and renderAll change nothing: the state already agrees with both. */
  lemma RefreshAndRenderSettled(s: PanelState)
    requires StateValid(s) && s.runningActual == ShouldRun(s)
    ensures Refreshed(s) == s && Rendered(s) == s
  {
  }

  /** clearNarrativeTransition (the unpause step resets the same three fields). */
  function Cleared(s: PanelState): PanelState {
    s.(transition := Transition(false, None), transitionPaused := false)
  }

  /** The stage a perspective lands in without a staged transition. */
  function LandingStage(p: Perspective): Stage {
    if p == Universe then UniverseStage else Renormalized
  }

  /** setPerspective's first step: the new perspective, also the user's when the user chose it. */
  function Retargeted(s: PanelState, key: Perspective, source: string): PanelState {
    s.(perspective := key, userPerspective := if source == "user" then key else s.userPerspective)
  }

  /** The stage lands where the current perspective puts it. */
  function Landed(s: PanelState): PanelState {
    s.(narrativeStage := LandingStage(s.perspective))
  }

  /** A perspective change that lands at once: cancel, land the stage, render, refresh. */
  function DirectChange(s: PanelState, key: Perspective, source: string): (r: PanelState)
    ensures r.perspective == key && r.userPerspective == (if source == "user" then key else s.userPerspective)
    ensures r.narrativeStage == LandingStage(key) && r.transition == Transition(false, None) && !r.transitionPaused
    ensures r.runningActual == ShouldRun(r)
  {
    Refreshed(Rendered(Landed(Cleared(Retargeted(s, key, source)))))
  }

  /**
   * After a direct change the panel should run, and so runs its frame timer
   * and perspective cycle, exactly when running is requested, the page is
   * visible and motion is not reduced: the change itself never pauses it.
   */
  lemma DirectChangeRunsWhenRequested(s: PanelState, key: Perspective, source: string)
    ensures ShouldRun(DirectChange(s, key, source)) <==> !s.reducedMotion && s.runningRequested && s.pageVisible
  {
  }

  /** beginStagedPerspectiveTransition's state step: the subset stage, active and paused. */
  function EnteredSubset(s: PanelState): PanelState {
    s.(transition := Transition(true, Some(Subset)), narrativeStage := Subset, transitionPaused := true)
  }

  /** A staged perspective change: cancel, enter the subset stage paused, refresh (which stops the timer), render. */
  function StagedChange(s: PanelState, key: Perspective, source: string): (r: PanelState)
    ensures r.perspective == key && r.userPerspective == (if source == "user" then key else s.userPerspective)
    ensures r.narrativeStage == Subset && r.transition == Transition(true, Some(Subset)) && r.transitionPaused
    ensures !r.runningActual && !ShouldRun(r)
  {
    Rendered(Refreshed(EnteredSubset(Cleared(Retargeted(s, key, source)))))
  }

  /** A direct change keeps the state valid with nothing pending, and touches neither inputs nor drops. */
  lemma DirectChangeValid(s: PanelState, key: Perspective, source: string, r: PanelState, token: nat)
    requires StateValid(s) && r == DirectChange(s, key, source)
    ensures StateValid(r) && StageValid(r, token, None) && SameContent(r, s)
  {
  }

  /** A staged change keeps the state valid with the renormalize step pending under the given token. */
  lemma StagedChangeValid(s: PanelState, key: Perspective, source: string, r: PanelState, token: nat)
    requires StateValid(s) && key != Universe && !s.reducedMotion && r == StagedChange(s, key, source)
    ensures StateValid(r) && SameContent(r, s)
    ensures StageValid(r, token, Some(PendingStage(ToRenormalized, StageSubsetMs, token, key)))
  {
  }

  /** The first stage callback's state step: the renormalized stage, still active and paused. */
  function Renormalizing(s: PanelState): PanelState {
    s.(narrativeStage := Renormalized, transition := Transition(true, Some(Renormalized)))
  }

  /** The renormalize step keeps the state valid and hands over to the unpause step. */
  lemma RenormalizingValid(s: PanelState, token: nat, key: Perspective, r: PanelState)
    requires StateValid(s) && StageValid(s, token, Some(PendingStage(ToRenormalized, StageSubsetMs, token, key)))
    requires r == Rendered(Renormalizing(s))
    ensures StateValid(r) && StageValid(r, token, Some(PendingStage(Unpause, StageRenormalizeMs, token, key)))
    ensures r.runningActual == s.runningActual && ShouldRun(r) == ShouldRun(s) && SameContent(r, s)
  {
  }

  /** The unpause step keeps the state valid with nothing pending. */
  lemma UnpausedValid(s: PanelState, token: nat, r: PanelState)
    requires StateValid(s) && r == Refreshed(Cleared(s))
    ensures StateValid(r) && StageValid(r, token, None) && SameContent(r, s)
  {
  }

  /** setNarrativeStage's state step; a stage other than subset also unpauses. */
  function StageSet(s: PanelState, stage: Stage): PanelState {
    s.(narrativeStage := stage, transitionPaused := if stage != Subset then false else s.transitionPaused)
  }

  /** setNarrativeStage with a known stage: cancel, set the stage, refresh, render. */
  function NarrativeStageSet(s: PanelState, stage: Stage): (r: PanelState)
    ensures r.narrativeStage == stage && r.transition == Transition(false, None) && !r.transitionPaused
    ensures r.perspective == s.perspective && r.runningActual == ShouldRun(r)
  {
    Rendered(Refreshed(StageSet(Cleared(s), stage)))
  }

  lemma NarrativeStageSetValid(s: PanelState, stage: Stage, r: PanelState, token: nat)
    requires StateValid(s) && r == NarrativeStageSet(s, stage)
    ensures StateValid(r) && StageValid(r, token, None) && SameContent(r, s)
  {
  }

  /**
   * The middle of setReducedMotion: save the running request (turning on)
   * or restore it (turning off), switch the flag, and land the stage.
   */
  function ReducedMotionFlipped(s: PanelState, next: bool): PanelState {
    var saved := if next then s.(runningBeforeReduced := s.runningRequested) else s;
    saved.(reducedMotion := next,
           runningRequested := if next then false else saved.runningBeforeReduced,
           narrativeStage := LandingStage(saved.perspective))
  }

  /**
   * setReducedMotion when the flag changes: the transition is cancelled,
   * the running request is saved (turning on) or restored (turning off),
   * the stage lands, then refresh and render.
   */
  function ReducedMotionSwitched(s: PanelState, next: bool): (r: PanelState)
    ensures r.reducedMotion == next && r.perspective == s.perspective
    ensures r.narrativeStage == LandingStage(s.perspective) && !r.transitionPaused && r.transition == Transition(false, None)
    ensures next ==> r.runningBeforeReduced == s.runningRequested && !r.runningRequested && r.drops == [] && !r.runningActual
    ensures !next ==> r.runningRequested == s.runningBeforeReduced && r.runningBeforeReduced == s.runningBeforeReduced
    ensures r.runningActual == ShouldRun(r)
  {
    Rendered(Refreshed(ReducedMotionFlipped(Cleared(s), next)))
  }

  /** Switching reduced motion on and then off restores the running request it started with. */
  lemma ReducedMotionRoundTrip(s: PanelState)
    requires !s.reducedMotion
    ensures ReducedMotionSwitched(ReducedMotionSwitched(s, true), false).runningRequested == s.runningRequested
    ensures !ReducedMotionSwitched(ReducedMotionSwitched(s, true), false).reducedMotion
  {
  }

  lemma ReducedMotionSwitchedValid(s: PanelState, next: bool, r: PanelState, token: nat)
    requires StateValid(s) && r == ReducedMotionSwitched(s, next)
    ensures StateValid(r) && StageValid(r, token, None)
  {
  }

  /** update's posterior: a finite supplied value clamped, otherwise recomputed from the stored probabilities. */
  function UpdatedPosterior(prior: real, tGivenR: real, tGivenNotR: real, newPosterior: Option<Num>): (post: real)
    requires InUnit(prior) && InUnit(tGivenR) && InUnit(tGivenNotR)
    ensures InUnit(post)
    ensures newPosterior.Some? && newPosterior.value.Finite? ==> post == ClampUnit(newPosterior.value.value)
  {
    if newPosterior.Some? && newPosterior.value.Finite? then ClampUnit(newPosterior.value.value)
    else FallbackPosterior(prior, tGivenR, tGivenNotR)
  }

  /**
   * Without a finite posterior supplied, update recomputes it by Bayes' rule
   * whenever the evidence exceeds 1e-9, and falls back to the prior otherwise.
   */
  lemma UpdatedPosteriorRecomputes(prior: real, tGivenR: real, tGivenNotR: real, newPosterior: Option<Num>)
    requires InUnit(prior) && InUnit(tGivenR) && InUnit(tGivenNotR)
    requires !(newPosterior.Some? && newPosterior.value.Finite?)
    ensures RainModel.Evidence(prior, tGivenR, tGivenNotR) > Eps ==>
      UpdatedPosterior(prior, tGivenR, tGivenNotR, newPosterior) == RainModel.Posterior(prior, tGivenR, tGivenNotR)
    ensures RainModel.Evidence(prior, tGivenR, tGivenNotR) <= Eps ==>
      UpdatedPosterior(prior, tGivenR, tGivenNotR, newPosterior) == prior
  {
    PanelEvidenceIsEvidence(prior, tGivenR, tGivenNotR);
    if RainModel.Evidence(prior, tGivenR, tGivenNotR) > Eps {
      FallbackPosteriorIsBayes(prior, tGivenR, tGivenNotR);
    }
  }

  /** update's state step: store the clamped probabilities and the supplied or recomputed posterior. */
  function Reweighted(s: PanelState, newPrior: Option<Num>, newTGivenR: Option<Num>, newTGivenNotR: Option<Num>,
                      newPosterior: Option<Num>): (r: PanelState)
    requires InUnit(s.prior) && InUnit(s.tGivenR) && InUnit(s.tGivenNotR)
    ensures InUnit(r.prior) && InUnit(r.tGivenR) && InUnit(r.tGivenNotR) && InUnit(r.posterior)
    ensures r.prior == (if newPrior.Some? then Clamp01(newPrior.value) else s.prior)
    ensures r.tGivenR == (if newTGivenR.Some? then Clamp01(newTGivenR.value) else s.tGivenR)
    ensures r.tGivenNotR == (if newTGivenNotR.Some? then Clamp01(newTGivenNotR.value) else s.tGivenNotR)
    ensures r.posterior == UpdatedPosterior(r.prior, r.tGivenR, r.tGivenNotR, newPosterior)
    ensures r == s.(prior := r.prior, tGivenR := r.tGivenR, tGivenNotR := r.tGivenNotR, posterior := r.posterior)
  {
    var p := if newPrior.Some? then Clamp01(newPrior.value) else s.prior;
    var t := if newTGivenR.Some? then Clamp01(newTGivenR.value) else s.tGivenR;
    var f := if newTGivenNotR.Some? then Clamp01(newTGivenNotR.value) else s.tGivenNotR;
    s.(prior := p, tGivenR := t, tGivenNotR := f, posterior := UpdatedPosterior(p, t, f, newPosterior))
  }

  /** Reweighting touches neither the drops, nor the stage, nor whether the simulation runs. */
  lemma ReweightedValid(s: PanelState, newPrior: Option<Num>, newTGivenR: Option<Num>, newTGivenNotR: Option<Num>,
                        newPosterior: Option<Num>, r: PanelState, token: nat, timer: Option<PendingStage>)
    requires StateValid(s) && StageValid(s, token, timer)
    requires r == Reweighted(s, newPrior, newTGivenR, newTGivenNotR, newPosterior)
    ensures StateValid(r) && StageValid(r, token, timer)
    ensures r.runningActual == s.runningActual && ShouldRun(r) == ShouldRun(s)
  {
  }

  /** The intervals renderAll computes from the probabilities. */
  function IntervalsOf(s: PanelState): Intervals {
    GetIntervals(s.prior, s.tGivenR, s.tGivenNotR, s.posterior)
  }

  /** getPerspectiveSamplingDomain over the raw perspective domain renderAll stores. */
  function SamplingDomainOf(s: PanelState): SamplingDomain {
    SamplingDomainFor(s.perspective, s.narrativeStage, RawPerspectiveDomain(s.perspective, IntervalsOf(s)))
  }

  /** Where spawnDrop places a drop for a uniform sample: start + sample * width of the sampling domain. */
  function SpawnPoint(s: PanelState, sample: real): real {
    PointIn(SamplingDomainOf(s), sample)
  }

  /** start + sample * width of a sampling domain. */
  function PointIn(sd: SamplingDomain, sample: real): real {
    sd.start + sample * sd.width
  }

  /**
   * A freshly spawned drop with id `id` at `u`: at the top, on its first
   * segment, its event flags read off the intervals `iv`, its stops sorted
   * and one segment more than stops.
   */
  predicate FreshDrop(d: Drop, id: nat, u: real, iv: Intervals) {
    d.id == id && d.u == u && DropInvariant(d) && !d.done && d.segmentIndex == 0
    && (d.hitRain <==> IsInInterval(u, iv.rain)) && (d.hitTestimony <==> IsInInterval(u, iv.testimony))
    && (d.hitNotRain <==> IsInInterval(u, iv.notRain))
    && StopsSorted(d.stops) && |d.segments| == |d.stops| + 1
  }

  /** Appending a live drop under the next id keeps the population live, with one id more in use. */
  lemma AppendKeepsLive(ds: seq<Drop>, nextId: nat, d: Drop)
    requires LiveDrops(ds, nextId) && DropInvariant(d) && !d.done && d.id == nextId
    ensures LiveDrops(ds + [d], nextId + 1)
  {
    var r := ds + [d];
    forall i | 0 <= i < |r|
      ensures DropInvariant(r[i]) && !r[i].done && r[i].id < nextId + 1
    {
      if i < |ds| {
        assert r[i] == ds[i];
      }
    }
    forall i, j | 0 <= i < j < |r|
      ensures r[i].id < r[j].id
    {
      assert r[i] == ds[i];
      if j < |ds| {
        assert r[j] == ds[j];
      }
    }
  }

  /** The spawn loop's result, written back into a valid running state, is valid. */
  lemma SpawnedStateValid(s: PanelState, drops: seq<Drop>, id: nat, acc: real)
    requires StateValid(s) && s.runningActual
    requires LiveDrops(drops, id) && WithinCap(|drops|, s.maxDrops) && acc >= 0.0
    ensures StateValid(s.(drops := drops, dropId := id, spawnAccumulator := acc))
  {
  }

  /** What spawnDrop reads of the panel: the sampling domain, the intervals and the layout. */
  datatype SpawnInputs = SpawnInputs(domain: SamplingDomain, intervals: Intervals, dims: Dims)

  function SpawnInputsOf(s: PanelState, dims: Dims): SpawnInputs {
    SpawnInputs(SamplingDomainOf(s), IntervalsOf(s), dims)
  }

  /**
   * spawnDrop's new drop under id `id`: none when the sampling domain is at
   * most 1e-9 wide; otherwise a drop at u = start + sample * width whose
   * stops are the sorted, deduplicated shelves containing u and whose
   * segments join them top to bottom.
   */
  function NewDropOf(inputs: SpawnInputs, id: nat, sample: real): (d: Option<Drop>)
    ensures d.None? <==> inputs.domain.width <= Eps
    ensures d.Some? ==> FreshDrop(d.value, id, PointIn(inputs.domain, sample), inputs.intervals)
  {
    if inputs.domain.width <= Eps then None
    else
      var u := PointIn(inputs.domain, sample);
      var candidates := SortStops(CandidateStops(u, inputs.dims, inputs.intervals));
      SortedDedupedAscends(candidates);
      var stops := Deduped(candidates);
      Some(SpawnedDrop(id, u, inputs.intervals, stops, DropSegments(stops, inputs.dims)))
  }

  /** The drop spawnDrop would add under each id, drop n sampling `sample(n)`. */
  function Placement(inputs: SpawnInputs, sample: nat -> real): nat -> Option<Drop> {
    (id: nat) => NewDropOf(inputs, id, sample(id))
  }

  /** What the spawn loop leaves behind: the population, the next id and the accumulator. */
  datatype Spawned = Spawned(drops: seq<Drop>, nextId: nat, accumulator: real)

  /** The number of whole periods in the accumulator, which every spawn round lowers by one. */
  function Rounds(acc: real, period: Num): int {
    if period.Finite? && period.value > 0.0 then (acc / period.value).Floor else 0
  }

  /**
   * The spawn loop of stepDrops, from population `drops`, next id `id` and
   * accumulator `acc`: while at least `period` has accumulated and the
   * population is below `cap`, add the drop `place` gives for the next id,
   * if any, and take a period off the accumulator, whether or not a drop was
   * added. The old drops stay in front and every new drop takes the next id.
   */
  function SpawnRounds(period: Num, cap: Num, place: nat -> Option<Drop>, drops: seq<Drop>, id: nat, acc: real): (r: Spawned)
    requires LimitValid(period, 20.0)
    ensures |drops| <= |r.drops| && r.drops[..|drops|] == drops
    ensures r.nextId == id + (|r.drops| - |drops|)
    decreases Rounds(acc, period)
  {
    if AtLeast(acc, period) && Below(|drops| as real, cap) then
      DivideShift(acc, period.value);
      var d := place(id);
      if d.Some? then
        var r := SpawnRounds(period, cap, place, drops + [d.value], id + 1, acc - period.value);
        assert r.drops[..|drops|] == r.drops[..|drops| + 1][..|drops|];
        r
      else SpawnRounds(period, cap, place, drops, id, acc - period.value)
    else Spawned(drops, id, acc)
  }

  /** One round of the spawn loop, taken while a period has accumulated and the cap is not reached. */
  lemma SpawnRoundUnfold(period: Num, cap: Num, place: nat -> Option<Drop>, drops: seq<Drop>, id: nat, acc: real)
    requires LimitValid(period, 20.0) && AtLeast(acc, period) && Below(|drops| as real, cap)
    ensures period.Finite? && SpawnRounds(period, cap, place, drops, id, acc)
      == if place(id).Some? then SpawnRounds(period, cap, place, drops + [place(id).value], id + 1, acc - period.value)
         else SpawnRounds(period, cap, place, drops, id, acc - period.value)
  {
  }

  /** One round of the spawn loop of a panel, with `d` the drop spawnDrop places for the next id. */
  lemma SpawnRoundPlaces(period: Num, cap: Num, inputs: SpawnInputs, sample: nat -> real, drops: seq<Drop>, id: nat, acc: real, d: Option<Drop>)
    requires LimitValid(period, 20.0) && AtLeast(acc, period) && Below(|drops| as real, cap)
    requires d == NewDropOf(inputs, id, sample(id))
    ensures period.Finite? && SpawnRounds(period, cap, Placement(inputs, sample), drops, id, acc)
      == if d.Some? then SpawnRounds(period, cap, Placement(inputs, sample), drops + [d.value], id + 1, acc - period.value)
         else SpawnRounds(period, cap, Placement(inputs, sample), drops, id, acc - period.value)
  {
    var place := Placement(inputs, sample);
    assert place(id) == d;
    SpawnRoundUnfold(period, cap, place, drops, id, acc);
  }

  /** The spawn loop stops with less than a period left or the cap reached, having spent only whole periods. */
  lemma {:induction false} SpawnRoundsStop(period: Num, cap: Num, place: nat -> Option<Drop>, drops: seq<Drop>, id: nat, acc: real)
    requires LimitValid(period, 20.0)
    ensures var r := SpawnRounds(period, cap, place, drops, id, acc);
      (!AtLeast(r.accumulator, period) || !Below(|r.drops| as real, cap))
      && r.accumulator <= acc && (acc >= 0.0 ==> r.accumulator >= 0.0)
    decreases Rounds(acc, period)
  {
    if AtLeast(acc, period) && Below(|drops| as real, cap) {
      DivideShift(acc, period.value);
      if place(id).Some? {
        SpawnRoundsStop(period, cap, place, drops + [place(id).value], id + 1, acc - period.value);
      } else {
        SpawnRoundsStop(period, cap, place, drops, id, acc - period.value);
      }
    }
  }

  /** `added` are the drops `place` gives for the consecutive ids from `id` on. */
  predicate PlacedFrom(place: nat -> Option<Drop>, id: nat, added: seq<Drop>) {
    forall j :: 0 <= j < |added| ==> place(id + j) == Some(added[j])
  }

  /** Every drop the spawn loop adds is the one its own id places, in id order. */
  lemma {:induction false} SpawnRoundsPlaced(period: Num, cap: Num, place: nat -> Option<Drop>, drops: seq<Drop>, id: nat, acc: real)
    requires LimitValid(period, 20.0)
    ensures var r := SpawnRounds(period, cap, place, drops, id, acc);
      PlacedFrom(place, id, r.drops[|drops|..])
    decreases Rounds(acc, period)
  {
    var r := SpawnRounds(period, cap, place, drops, id, acc);
    if AtLeast(acc, period) && Below(|drops| as real, cap) {
      DivideShift(acc, period.value);
      if place(id).Some? {
        var rest := drops + [place(id).value];
        SpawnRoundsPlaced(period, cap, place, rest, id + 1, acc - period.value);
        assert r == SpawnRounds(period, cap, place, rest, id + 1, acc - period.value);
        var added := r.drops[|drops|..];
        forall j | 0 <= j < |added|
          ensures place(id + j) == Some(added[j])
        {
          if j == 0 {
            assert added[j] == r.drops[..|rest|][|drops|] == place(id).value;
          } else {
            assert added[j] == r.drops[|rest|..][j - 1];
            assert id + j == id + 1 + (j - 1);
          }
        }
      } else {
        SpawnRoundsPlaced(period, cap, place, drops, id, acc - period.value);
      }
    }
  }

  /** Every drop `place` gives is live and carries the id it was placed under. */
  ghost predicate PlacesLive(place: nat -> Option<Drop>) {
    forall n: nat :: place(n).Some? ==> DropInvariant(place(n).value) && !place(n).value.done && place(n).value.id == n
  }

  /** spawnDrop places live drops under the id it is given. */
  lemma PlacementLive(inputs: SpawnInputs, sample: nat -> real)
    ensures PlacesLive(Placement(inputs, sample))
  {
    var place := Placement(inputs, sample);
    forall n: nat | place(n).Some?
      ensures DropInvariant(place(n).value) && !place(n).value.done && place(n).value.id == n
    {
      assert place(n) == NewDropOf(inputs, n, sample(n));
    }
  }

  /** The spawn loop keeps the population live and within the cap when it places live drops. */
  lemma {:induction false} SpawnRoundsKeepLive(period: Num, cap: Num, place: nat -> Option<Drop>, drops: seq<Drop>, id: nat, acc: real)
    requires LimitValid(period, 20.0) && PlacesLive(place)
    requires LiveDrops(drops, id) && WithinCap(|drops|, cap)
    ensures var r := SpawnRounds(period, cap, place, drops, id, acc);
      LiveDrops(r.drops, r.nextId) && WithinCap(|r.drops|, cap)
    decreases Rounds(acc, period)
  {
    if AtLeast(acc, period) && Below(|drops| as real, cap) {
      DivideShift(acc, period.value);
      if place(id).Some? {
        AppendKeepsLive(drops, id, place(id).value);
        SpawnRoundsKeepLive(period, cap, place, drops + [place(id).value], id + 1, acc - period.value);
      } else {
        SpawnRoundsKeepLive(period, cap, place, drops, id, acc - period.value);
      }
    }
  }

  /** A placement that never yields a drop spawns nothing, yet the rounds still drain the accumulator. */
  lemma {:induction false} SpawnRoundsNothingPlaced(period: Num, cap: Num, place: nat -> Option<Drop>, drops: seq<Drop>, id: nat, acc: real)
    requires LimitValid(period, 20.0)
    requires forall n: nat :: place(n).None?
    ensures var r := SpawnRounds(period, cap, place, drops, id, acc);
      r.drops == drops && r.nextId == id
    decreases Rounds(acc, period)
  {
    if AtLeast(acc, period) && Below(|drops| as real, cap) {
      DivideShift(acc, period.value);
      SpawnRoundsNothingPlaced(period, cap, place, drops, id, acc - period.value);
    }
  }

  /**
   * Every drop the spawn loop of a panel adds is fresh, at the point its own
   * id's sample picks; with a sampling domain at most 1e-9 wide it adds none.
   */
  lemma SpawnedDropsFresh(inputs: SpawnInputs, sample: nat -> real, period: Num, cap: Num, drops: seq<Drop>, id: nat, acc: real)
    requires LimitValid(period, 20.0)
    ensures var r := SpawnRounds(period, cap, Placement(inputs, sample), drops, id, acc);
      forall j :: 0 <= j < |r.drops| - |drops| ==>
        FreshDrop(r.drops[|drops|..][j], id + j, PointIn(inputs.domain, sample(id + j)), inputs.intervals)
    ensures inputs.domain.width <= Eps ==> SpawnRounds(period, cap, Placement(inputs, sample), drops, id, acc).drops == drops
  {
    var place := Placement(inputs, sample);
    SpawnRoundsPlaced(period, cap, place, drops, id, acc);
    if inputs.domain.width <= Eps {
      forall n: nat
        ensures place(n).None?
      {
        assert place(n) == NewDropOf(inputs, n, sample(n));
      }
      SpawnRoundsNothingPlaced(period, cap, place, drops, id, acc);
    }
  }

  /**
   * spawnDrop's new drop under id `id`, from the sampling domain, intervals
   * and layout it reads: none when the domain is at most 1e-9 wide;
   * otherwise a drop at u = start + sample * width with its stops and
   * segments built.
   */
  method NewDrop(inputs: SpawnInputs, id: nat, sample: real) returns (d: Option<Drop>)
    ensures d == NewDropOf(inputs, id, sample)
  {
    if inputs.domain.width <= Eps {
      return None;
    }
    var u := PointIn(inputs.domain, sample);
    var stops := BuildDropStops(u, Some(inputs.dims), Some(inputs.intervals));
    var segments := BuildDropSegments(stops, Some(inputs.dims));
    d := Some(SpawnedDrop(id, u, inputs.intervals, stops, segments));
  }

  /**
   * The spawn loop of stepDrops: while at least `period` has accumulated and
   * the population is below `cap`, spawn one drop (drop n samples
   * `sample(n)`) and take a period off the accumulator.
   */
  method SpawnLoop(inputs: SpawnInputs, period: Num, cap: Num, sample: nat -> real, drops0: seq<Drop>, id0: nat, acc0: real)
    returns (r: Spawned)
    requires LimitValid(period, 20.0)
    ensures r == SpawnRounds(period, cap, Placement(inputs, sample), drops0, id0, acc0)
  {
    ghost var place := Placement(inputs, sample);
    var drops, id, acc := drops0, id0, acc0;
    while AtLeast(acc, period) && Below(|drops| as real, cap)
      invariant SpawnRounds(period, cap, place, drops, id, acc) == SpawnRounds(period, cap, place, drops0, id0, acc0)
      decreases Rounds(acc, period)
    {
      drops, id, acc := SpawnRound(inputs, period, cap, sample, drops, id, acc);
    }
    r := Spawned(drops, id, acc);
  }

  /** One round of the spawn loop: place a drop under the next id, and spend one period. */
  method SpawnRound(inputs: SpawnInputs, period: Num, cap: Num, sample: nat -> real, drops: seq<Drop>, id: nat, acc: real)
    returns (drops': seq<Drop>, id': nat, acc': real)
    requires LimitValid(period, 20.0) && AtLeast(acc, period) && Below(|drops| as real, cap)
    ensures SpawnRounds(period, cap, Placement(inputs, sample), drops', id', acc')
         == SpawnRounds(period, cap, Placement(inputs, sample), drops, id, acc)
    ensures Rounds(acc', period) < Rounds(acc, period)
  {
    var d := NewDrop(inputs, id, sample(id));
    SpawnRoundPlaces(period, cap, inputs, sample, drops, id, acc, d);
    drops', id' := drops, id;
    if d.Some? {
      drops', id' := drops + [d.value], id + 1;
    }
    DivideShift(acc, period.value);
    acc' := acc - period.value;
  }

  /** What the spawn loop of a panel in state `s` with layout `dims` leaves behind. */
  function SpawnOutcome(s: PanelState, dims: Dims, sample: nat -> real): Spawned
    requires LimitValid(s.spawnMs, 20.0)
  {
    SpawnRounds(s.spawnMs, s.maxDrops, Placement(SpawnInputsOf(s, dims), sample), s.drops, s.dropId, s.spawnAccumulator)
  }

  /**
   * The population, next id and accumulator after one running frame at
   * time `now`: the clamped frame delta is added to the accumulator, the
   * spawn loop runs, and every drop is stepped by that delta.
   */
  function FrameOutcome(s: PanelState, dims: Dims, now: real, sample: nat -> real, ease: real -> real): Spawned
    requires LimitValid(s.spawnMs, 20.0)
  {
    var dt := FrameDelta(now, s.lastTs);
    var r := SpawnRounds(s.spawnMs, s.maxDrops, Placement(SpawnInputsOf(s, dims), sample), s.drops, s.dropId, s.spawnAccumulator + dt);
    r.(drops := StepAll(r.drops, dt, ease))
  }

  /** The frame clock and the accumulator play no part in where drops are placed. */
  lemma SpawnInputsIgnoreClock(s: PanelState, dims: Dims, lastTs: Option<real>, acc: real)
    ensures SpawnInputsOf(s.(lastTs := lastTs, spawnAccumulator := acc), dims) == SpawnInputsOf(s, dims)
  {
  }

  /** A running frame is the spawn loop on the advanced accumulator, then one step of every drop. */
  lemma FrameSpawnsThenSteps(s: PanelState, dims: Dims, now: real, sample: nat -> real, ease: real -> real)
    requires LimitValid(s.spawnMs, 20.0)
    ensures var dt := FrameDelta(now, s.lastTs);
      var r := SpawnOutcome(s.(lastTs := Some(now), spawnAccumulator := s.spawnAccumulator + dt), dims, sample);
      FrameOutcome(s, dims, now, sample, ease) == r.(drops := StepAll(r.drops, dt, ease))
  {
    var dt := FrameDelta(now, s.lastTs);
    var s1 := s.(lastTs := Some(now), spawnAccumulator := s.spawnAccumulator + dt);
    SpawnInputsIgnoreClock(s, dims, Some(now), s.spawnAccumulator + dt);
    var place := Placement(SpawnInputsOf(s, dims), sample);
    assert Placement(SpawnInputsOf(s1, dims), sample) == place;
    assert SpawnOutcome(s1, dims, sample) == SpawnRounds(s.spawnMs, s.maxDrops, place, s.drops, s.dropId, s.spawnAccumulator + dt);
  }

  /** The frame outcome, given what the spawn rounds of the advanced state produced. */
  lemma FrameFromSpawned(s0: PanelState, s1: PanelState, dims: Dims, now: real, sample: nat -> real, ease: real -> real,
                         dt: real, spawned: Spawned)
    requires LimitValid(s0.spawnMs, 20.0)
    requires dt == FrameDelta(now, s0.lastTs)
    requires s1 == s0.(lastTs := Some(now), spawnAccumulator := s0.spawnAccumulator + dt)
    requires spawned == SpawnOutcome(s1, dims, sample)
    ensures FrameOutcome(s0, dims, now, sample, ease) == spawned.(drops := StepAll(spawned.drops, dt, ease))
  {
    SpawnOutcomeOfAdvanced(s0, s1, dims, sample, now, s0.spawnAccumulator + dt);
  }

  /** The spawn loop of a state whose clock and accumulator were advanced runs on the original drops and placement. */
  lemma SpawnOutcomeOfAdvanced(s0: PanelState, s1: PanelState, dims: Dims, sample: nat -> real, now: real, acc: real)
    requires LimitValid(s0.spawnMs, 20.0)
    requires s1 == s0.(lastTs := Some(now), spawnAccumulator := acc)
    ensures SpawnOutcome(s1, dims, sample)
         == SpawnRounds(s0.spawnMs, s0.maxDrops, Placement(SpawnInputsOf(s0, dims), sample), s0.drops, s0.dropId, acc)
  {
    SpawnInputsIgnoreClock(s0, dims, Some(now), acc);
  }

  /** A frame changes only the clock, the drops and the accumulator, so the staged transition and ShouldRun stand. */
  lemma ClockAndDropsKeepStage(s: PanelState, t: PanelState, token: nat, timer: Option<PendingStage>)
    requires StageValid(s, token, timer)
    requires t == s.(lastTs := t.lastTs, drops := t.drops, dropId := t.dropId, spawnAccumulator := t.spawnAccumulator)
    ensures StageValid(t, token, timer) && ShouldRun(t) == ShouldRun(s)
  {
  }

  /**
   * The panel: the state object plus the closure's stage token, pending
   * stage callback and perspective-cycle timer, and the mount's measured size.
   */
  class Panel {
    var state: PanelState
    var stageToken: nat
    var stageTimer: Option<PendingStage>
    var cycleRunning: bool
    var cycleIndex: nat
    /** The mount's measured width (getBoundingClientRect) and clientWidth. */
    var rectWidth: real
    var clientWidth: real

    /** Everything but the cycle timer agreeing with refreshRunningState. */
    predicate Settled()
      reads this
    {
      StateValid(state) && StageValid(state, stageToken, stageTimer)
      && cycleIndex < |PerspectiveCycleOrder| && state.runningActual == ShouldRun(state)
    }

    predicate Valid()
      reads this
    {
      Settled() && cycleRunning == ShouldRun(state)
    }

    /**
     * startPerspectiveCycle's effect on the index: a cycle that starts again
     * starts from the current perspective's place in the cycle order;
     * otherwise the index stays where it was.
     */
    twostate predicate CycleIndexFollows()
      reads this
    {
      cycleIndex == (if cycleRunning && !old(cycleRunning) then CycleIndexOf(state.perspective) else old(cycleIndex))
    }

    /** updateLayout's layout of the measured mount. */
    function Dimensions(): Dims
      reads this`rectWidth, this`clientWidth
    {
      Layout(rectWidth, clientWidth)
    }

    /** init: the seeded state, then refreshRunningState and a first render. */
    constructor(reduced: bool, maxDropsOption: Num, spawnMsOption: Num, pageHidden: bool, rect: real, client: real)
      ensures Valid()
      ensures state == InitialState(reduced, maxDropsOption, spawnMsOption, pageHidden)
      ensures stageToken == 0 && stageTimer.None? && !cycleRunning && cycleIndex == 0
      ensures rectWidth == rect && clientWidth == client
    {
      state := InitialState(reduced, maxDropsOption, spawnMsOption, pageHidden);
      stageToken := 0;
      stageTimer := None;
      cycleRunning := false;
      cycleIndex := 0;
      rectWidth := rect;
      clientWidth := client;
      new;
      RefreshRunningState();
      RenderAll();
    }

    /** stopTimer: the frame timer stops and forgets its clock and accumulator. */
    method StopTimer()
      modifies this`state
      ensures state == old(state).(runningActual := false, lastTs := None, spawnAccumulator := 0.0)
    {
      state := state.(runningActual := false, lastTs := None, spawnAccumulator := 0.0);
    }

    /** startTimer: a no-op when already running or in reduced motion. */
    method StartTimer()
      modifies this`state
      ensures old(state.runningActual) || old(state.reducedMotion) ==> state == old(state)
      ensures !old(state.runningActual) && !old(state.reducedMotion) ==>
        state == old(state).(runningActual := true, lastTs := None)
    {
      if state.runningActual || state.reducedMotion {
        return;
      }
      state := state.(runningActual := true, lastTs := None);
    }

    /** startPerspectiveCycle: when no cycle runs, start one from the current perspective. */
    method StartPerspectiveCycle()
      modifies this`cycleRunning, this`cycleIndex
      ensures cycleRunning
      ensures old(cycleRunning) ==> cycleIndex == old(cycleIndex)
      ensures !old(cycleRunning) ==> cycleIndex == CycleIndexOf(state.perspective)
    {
      if cycleRunning {
        return;
      }
      cycleIndex := CycleIndexOf(state.perspective);
      cycleRunning := true;
    }

    method StopPerspectiveCycle()
      modifies this`cycleRunning
      ensures !cycleRunning
    {
      cycleRunning := false;
    }

    /** refreshRunningState: run the frame timer and the cycle exactly when ShouldRun holds. */
    method RefreshRunningState()
      modifies this`state, this`cycleRunning, this`cycleIndex
      ensures state == Refreshed(old(state))
      ensures cycleRunning == ShouldRun(state)
      ensures !ShouldRun(old(state)) || old(cycleRunning) ==> cycleIndex == old(cycleIndex)
      ensures ShouldRun(old(state)) && !old(cycleRunning) ==> cycleIndex == CycleIndexOf(state.perspective)
      ensures CycleIndexFollows()
    {
      if ShouldRun(state) {
        StartTimer();
        StartPerspectiveCycle();
      } else {
        StopTimer();
        StopPerspectiveCycle();
      }
    }

    /** renderAll's effect on the state; the layout, intervals and domains it stores are derived here. */
    method RenderAll()
      modifies this`state
      ensures state == Rendered(old(state))
    {
      if state.reducedMotion {
        StopTimer();
        state := state.(drops := []);
      }
    }

    /** clearNarrativeTransition: cancel the pending stage, invalidate older callbacks, unpause. */
    method ClearNarrativeTransition()
      modifies this`state, this`stageTimer, this`stageToken
      ensures state == Cleared(old(state))
      ensures stageTimer.None? && stageToken == old(stageToken) + 1
    {
      stageTimer := None;
      stageToken := stageToken + 1;
      state := Cleared(state);
    }

    /** scheduleStage: replaces any pending stage callback, so at most one is ever pending. */
    method ScheduleStage(phase: StagePhase, delayMs: real, token: nat, key: Perspective)
      modifies this`stageTimer
      ensures stageTimer == Some(PendingStage(phase, Max(0.0, delayMs), token, key))
    {
      stageTimer := Some(PendingStage(phase, Max(0.0, delayMs), token, key));
    }

    /** setRunning: record the request and let refreshRunningState decide. */
    method SetRunning(next: bool)
      requires Valid()
      modifies this`state, this`cycleRunning, this`cycleIndex
      ensures Valid() && CycleIndexFollows()
      ensures state == Refreshed(old(state).(runningRequested := next))
      ensures state.runningActual <==> next && !state.reducedMotion && state.pageVisible && !state.transitionPaused
    {
      state := state.(runningRequested := next);
      RefreshRunningState();
    }

    /** The visibilitychange handler. */
    method OnVisibilityChange(hidden: bool)
      requires Valid()
      modifies this`state, this`cycleRunning, this`cycleIndex
      ensures Valid() && CycleIndexFollows()
      ensures state == Refreshed(old(state).(pageVisible := !hidden))
      ensures hidden ==> !state.runningActual
    {
      state := state.(pageVisible := !hidden);
      RefreshRunningState();
    }

    /** The IntersectionObserver callback: only the last entry counts, and being in view never decides whether to run. */
    method OnIntersection(entries: seq<bool>)
      requires Valid()
      modifies this`state, this`cycleRunning, this`cycleIndex
      ensures Valid()
      ensures |entries| == 0 ==> unchanged(this)
      ensures |entries| > 0 ==> state == old(state).(inView := entries[|entries| - 1])
      ensures cycleRunning == old(cycleRunning) && cycleIndex == old(cycleIndex)
    {
      if |entries| == 0 {
        return;
      }
      state := state.(inView := entries[|entries| - 1]);
      RefreshAndRenderSettled(state);
      RefreshRunningState();
    }

    /** The resize observer: re-measure and render. */
    method OnResize(rect: real, client: real)
      requires Valid()
      modifies this`rectWidth, this`clientWidth, this`state
      ensures Valid()
      ensures Dimensions() == Layout(rect, client) && state == old(state)
    {
      rectWidth := rect;
      clientWidth := client;
      RefreshAndRenderSettled(state);
      RenderAll();
    }

    /**
     * setPerspective: unknown keys mean the universe. A change to the
     * universe, an unanimated change, a change in reduced motion or one in
     * direct mode lands immediately; any other change starts the staged
     * transition with the renormalize step due in 260 ms. Either way the
     * stage token moves on by one, so every callback scheduled before is void.
     */
    method SetPerspective(name: string, animate: bool, source: string, mode: string) returns (sent: seq<HostEvent>)
      requires Settled()
      modifies this`state, this`stageToken, this`stageTimer, this`cycleRunning, this`cycleIndex
      ensures Valid()
      ensures stageToken == old(stageToken) + 1
      ensures !IsStagedChange(ParsePerspective(name), animate, old(state.reducedMotion), mode, source) ==>
        state == DirectChange(old(state), ParsePerspective(name), source) && stageTimer.None?
        && cycleRunning == ShouldRun(state)
      ensures IsStagedChange(ParsePerspective(name), animate, old(state.reducedMotion), mode, source) ==>
        state == StagedChange(old(state), ParsePerspective(name), source)
        && stageTimer == Some(PendingStage(ToRenormalized, StageSubsetMs, stageToken, state.perspective))
        && !cycleRunning
      ensures CycleIndexFollows()
      ensures SameContent(state, old(state))
      ensures sent == ChangeReport(old(state.perspective), ParsePerspective(name), source)
    {
      ghost var s0 := state;
      var key := ParsePerspective(name);
      sent := ChangeReport(state.perspective, key, source);
      state := Retargeted(state, key, source);
      if !IsStagedChange(key, animate, state.reducedMotion, mode, source) {
        LandPerspective();
        DirectChangeValid(s0, key, source, state, stageToken);
        return;
      }
      BeginStagedPerspectiveTransition(key);
      StagedChangeValid(s0, key, source, state, stageToken);
    }

    /** setPerspective's direct path: cancel any transition, land the stage, render, then refresh. */
    method LandPerspective()
      modifies this`state, this`stageToken, this`stageTimer, this`cycleRunning, this`cycleIndex
      ensures state == Refreshed(Rendered(Landed(Cleared(old(state)))))
      ensures stageTimer.None? && stageToken == old(stageToken) + 1
      ensures cycleRunning == ShouldRun(state)
      ensures CycleIndexFollows()
    {
      ClearNarrativeTransition();
      state := Landed(state);
      RenderAll();
      RefreshRunningState();
    }

    /** beginStagedPerspectiveTransition: enter the subset stage, pause, and schedule the renormalize step. */
    method BeginStagedPerspectiveTransition(key: Perspective)
      modifies this`state, this`stageToken, this`stageTimer, this`cycleRunning, this`cycleIndex
      ensures stageToken == old(stageToken) + 1
      ensures state == Rendered(Refreshed(EnteredSubset(Cleared(old(state)))))
      ensures !cycleRunning && cycleIndex == old(cycleIndex)
      ensures stageTimer == Some(PendingStage(ToRenormalized, StageSubsetMs, stageToken, key))
    {
      var token := stageToken + 1;
      ClearNarrativeTransition();
      stageToken := token;
      state := EnteredSubset(state);
      RefreshRunningState();
      RenderAll();
      ScheduleStage(ToRenormalized, StageSubsetMs, token, key);
    }

    /**
     * The pending stage callback runs. Its guard (same token, same
     * perspective) always passes here: every change of either cancels the
     * callback. The first step shows the renormalized stage and schedules the
     * unpause 360 ms later; the second ends the transition and resumes.
     */
    method FireStageTimer()
      requires Valid()
      modifies this`state, this`stageToken, this`stageTimer, this`cycleRunning, this`cycleIndex
      ensures Valid()
      ensures old(stageTimer).None? ==> unchanged(this)
      ensures old(stageTimer).Some? && old(stageTimer).value.phase == ToRenormalized ==>
        state == Rendered(Renormalizing(old(state)))
        && stageTimer == Some(PendingStage(Unpause, StageRenormalizeMs, stageToken, state.perspective))
        && cycleRunning == old(cycleRunning) && cycleIndex == old(cycleIndex)
      ensures old(stageTimer).Some? && old(stageTimer).value.phase == Unpause ==>
        state == Refreshed(Cleared(old(state))) && stageTimer.None? && CycleIndexFollows()
      ensures stageToken == old(stageToken) && SameContent(state, old(state))
    {
      if stageTimer.None? {
        return;
      }
      var pending := stageTimer.value;
      match pending.phase
      case ToRenormalized => RenormalizeStep(pending);
      case Unpause => UnpauseStep(pending);
    }

    /** The first stage callback: past its guard, show the renormalized stage and schedule the unpause. */
    method RenormalizeStep(pending: PendingStage)
      requires Valid() && stageTimer == Some(pending) && pending.phase == ToRenormalized
      modifies this`state, this`stageTimer
      ensures Valid()
      ensures state == Rendered(Renormalizing(old(state))) && SameContent(state, old(state))
      ensures stageTimer == Some(PendingStage(Unpause, StageRenormalizeMs, stageToken, state.perspective))
    {
      ghost var s0 := state;
      stageTimer := None;
      if pending.token != stageToken || state.perspective != pending.perspective {
        // The source returns here. Every change of token or perspective goes
        // through ClearNarrativeTransition, which cancels the pending callback,
        // so StageValid ties it to the current ones and this guard never fires.
        assert false;
      }
      state := Renormalizing(state);
      RenderAll();
      ScheduleStage(Unpause, StageRenormalizeMs, pending.token, pending.perspective);
      RenormalizingValid(s0, stageToken, pending.perspective, state);
    }

    /** The second stage callback: past its guard, end the transition and resume. */
    method UnpauseStep(pending: PendingStage)
      requires Valid() && stageTimer == Some(pending) && pending.phase == Unpause
      modifies this`state, this`stageTimer, this`cycleRunning, this`cycleIndex
      ensures Valid()
      ensures state == Refreshed(Cleared(old(state))) && SameContent(state, old(state)) && stageTimer.None?
      ensures CycleIndexFollows()
    {
      ghost var s0 := state;
      stageTimer := None;
      if pending.token != stageToken || state.perspective != pending.perspective {
        // The source returns here. Every change of token or perspective goes
        // through ClearNarrativeTransition, which cancels the pending callback,
        // so StageValid ties it to the current ones and this guard never fires.
        assert false;
      }
      state := Cleared(state);
      RefreshRunningState();
      UnpausedValid(s0, stageToken, state);
    }

    /** setNarrativeStage: unknown stage names are ignored; a known one cancels any transition. */
    method SetNarrativeStage(name: string)
      requires Valid()
      modifies this`state, this`stageToken, this`stageTimer, this`cycleRunning, this`cycleIndex
      ensures Valid()
      ensures ParseStage(name).None? ==> unchanged(this)
      ensures ParseStage(name).Some? ==>
        state == NarrativeStageSet(old(state), ParseStage(name).value)
        && stageTimer.None? && stageToken == old(stageToken) + 1 && CycleIndexFollows()
      ensures SameContent(state, old(state))
    {
      var stage := ParseStage(name);
      if stage.None? {
        return;
      }
      ghost var s0 := state;
      ClearNarrativeTransition();
      state := StageSet(state, stage.value);
      RefreshRunningState();
      RenderAll();
      NarrativeStageSetValid(s0, stage.value, state, stageToken);
    }

    /** setHighlightedEvent: anything but an event name clears the highlight. */
    method SetHighlightedEvent(name: string)
      requires Valid()
      modifies this`state
      ensures Valid()
      ensures state == old(state).(highlight := ParseEventKey(name))
    {
      state := state.(highlight := ParseEventKey(name));
      RefreshAndRenderSettled(state);
      RenderAll();
    }

    /**
     * setReducedMotion: a no-op when nothing changes; otherwise the
     * transition is cancelled, the running request saved or restored, and
     * the stage lands.
     */
    method SetReducedMotion(next: bool)
      requires Valid()
      modifies this`state, this`stageToken, this`stageTimer, this`cycleRunning, this`cycleIndex
      ensures Valid()
      ensures next == old(state.reducedMotion) ==> unchanged(this)
      ensures next != old(state.reducedMotion) ==>
        state == ReducedMotionSwitched(old(state), next) && stageTimer.None? && stageToken == old(stageToken) + 1
        && CycleIndexFollows()
    {
      if next == state.reducedMotion {
        return;
      }
      ghost var s0 := state;
      ClearNarrativeTransition();
      state := ReducedMotionFlipped(state, next);
      RefreshRunningState();
      RenderAll();
      ReducedMotionSwitchedValid(s0, next, state, stageToken);
    }

    /**
     * update: each supplied probability is stored clamped; a finite supplied
     * posterior is stored clamped, otherwise the posterior is recomputed from
     * the stored fields; a boolean reducedMotion goes through setReducedMotion.
     */
    method Update(newPrior: Option<Num>, newTGivenR: Option<Num>, newTGivenNotR: Option<Num>,
                  newPosterior: Option<Num>, newReduced: Option<bool>)
      requires Valid()
      modifies this`state, this`stageToken, this`stageTimer, this`cycleRunning, this`cycleIndex
      ensures Valid()
      ensures newReduced.None? || newReduced.value == old(state.reducedMotion) ==>
        state == Reweighted(old(state), newPrior, newTGivenR, newTGivenNotR, newPosterior)
        && stageToken == old(stageToken) && stageTimer == old(stageTimer)
        && cycleRunning == old(cycleRunning) && cycleIndex == old(cycleIndex)
      ensures newReduced.Some? && newReduced.value != old(state.reducedMotion) ==>
        state == ReducedMotionSwitched(Reweighted(old(state), newPrior, newTGivenR, newTGivenNotR, newPosterior), newReduced.value)
        && stageTimer.None? && stageToken == old(stageToken) + 1 && CycleIndexFollows()
    {
      ghost var s0 := state;
      state := Reweighted(state, newPrior, newTGivenR, newTGivenNotR, newPosterior);
      ReweightedValid(s0, newPrior, newTGivenR, newTGivenNotR, newPosterior, state, stageToken, stageTimer);
      if newReduced.Some? {
        SetReducedMotion(newReduced.value);
      }
      RefreshAndRenderSettled(state);
      RenderAll();
    }

    /** spawnDrop: at most one new drop, appended under the next id. */
    method SpawnDrop(sample: real)
      modifies this`state
      ensures SamplingDomainOf(old(state)).width <= Eps ==> state == old(state)
      ensures SamplingDomainOf(old(state)).width > Eps ==>
        |state.drops| == |old(state.drops)| + 1 && state.drops[..|old(state.drops)|] == old(state.drops)
        && FreshDrop(state.drops[|old(state.drops)|], old(state.dropId), SpawnPoint(old(state), sample), IntervalsOf(old(state)))
        && state == old(state).(drops := state.drops, dropId := old(state.dropId) + 1)
    {
      var d := NewDrop(SpawnInputsOf(state, Dimensions()), state.dropId, sample);
      if d.Some? {
        state := state.(drops := state.drops + [d.value], dropId := state.dropId + 1);
      }
    }

    /**
     * The spawn loop of stepDrops: while at least spawnMs has accumulated and
     * the population is below the cap, spawn one drop (drop n samples
     * `sample(n)`) and take spawnMs off the accumulator. Afterwards less than
     * spawnMs is left or the cap is reached, and the old drops are untouched.
     */
    method SpawnDue(sample: nat -> real)
      requires StateValid(state) && state.runningActual
      modifies this`state
      ensures StateValid(state) && state.runningActual
      ensures !AtLeast(state.spawnAccumulator, state.spawnMs) || !Below(|state.drops| as real, state.maxDrops)
      ensures state == old(state).(drops := state.drops, dropId := state.dropId, spawnAccumulator := state.spawnAccumulator)
      ensures Spawned(state.drops, state.dropId, state.spawnAccumulator) == SpawnOutcome(old(state), Dimensions(), sample)
    {
      var s := state;
      var r := SpawnLoop(SpawnInputsOf(s, Dimensions()), s.spawnMs, s.maxDrops, sample, s.drops, s.dropId, s.spawnAccumulator);
      ghost var place := Placement(SpawnInputsOf(s, Dimensions()), sample);
      SpawnRoundsStop(s.spawnMs, s.maxDrops, place, s.drops, s.dropId, s.spawnAccumulator);
      PlacementLive(SpawnInputsOf(s, Dimensions()), sample);
      SpawnRoundsKeepLive(s.spawnMs, s.maxDrops, place, s.drops, s.dropId, s.spawnAccumulator);
      SpawnedStateValid(s, r.drops, r.nextId, r.accumulator);
      state := s.(drops := r.drops, dropId := r.nextId, spawnAccumulator := r.accumulator);
    }

    /** The stepping loop of stepDrops: each drop advances by dt and finished ones leave. */
    method StepLiveDrops(dt: real, ease: real -> real)
      modifies this`state
      ensures state == old(state).(drops := StepAll(old(state.drops), dt, ease))
    {
      var ds := state.drops;
      var next: seq<Drop> := [];
      var i := 0;
      while i < |ds|
        invariant 0 <= i <= |ds|
        invariant next == StepAll(ds[..i], dt, ease)
      {
        assert ds[..i + 1][..i] == ds[..i];
        var stepped := StepOneDrop(ds[i], dt, ease);
        if !stepped.done {
          next := next + [stepped];
        }
        i := i + 1;
      }
      assert ds[..i] == ds;
      state := state.(drops := next);
    }

    /**
     * The running part of stepDrops at time `now`: the clamped frame delta
     * feeds the spawn accumulator, due drops are spawned (drop n samples
     * `sample(n)`), and every drop is stepped with finished ones removed.
     */
    method RunFrame(now: real, sample: nat -> real, ease: real -> real)
      requires StateValid(state) && state.runningActual
      modifies this`state
      ensures StateValid(state)
      ensures state == old(state).(lastTs := Some(now), drops := state.drops, dropId := state.dropId,
                                   spawnAccumulator := state.spawnAccumulator)
      ensures Spawned(state.drops, state.dropId, state.spawnAccumulator) == FrameOutcome(old(state), Dimensions(), now, sample, ease)
    {
      ghost var s0, dims := state, Dimensions();
      var dt := FrameDelta(now, state.lastTs);
      state := state.(lastTs := Some(now), spawnAccumulator := state.spawnAccumulator + dt);
      ghost var s1 := state;
      SpawnDue(sample);
      ghost var spawned := state;
      FrameFromSpawned(s0, s1, dims, now, sample, ease, dt, Spawned(spawned.drops, spawned.dropId, spawned.spawnAccumulator));
      StepLiveDrops(dt, ease);
      StepKeepsValid(spawned, dt, ease);
    }

    /**
     * stepDrops, one animation frame at time `now`: nothing unless running;
     * otherwise the running frame above.
     */
    method StepDrops(now: real, sample: nat -> real, ease: real -> real)
      requires Valid()
      modifies this`state
      ensures Valid()
      ensures !old(state.runningActual) ==> state == old(state)
      ensures old(state.runningActual) ==>
        state == old(state).(lastTs := Some(now), drops := state.drops, dropId := state.dropId,
                             spawnAccumulator := state.spawnAccumulator)
      ensures old(state.runningActual) ==>
        Spawned(state.drops, state.dropId, state.spawnAccumulator) == FrameOutcome(old(state), Dimensions(), now, sample, ease)
    {
      if !state.runningActual {
        return;
      }
      ghost var s0 := state;
      RunFrame(now, sample, ease);
      ClockAndDropsKeepStage(s0, state, stageToken, stageTimer);
    }

    /** One tick of the perspective cycle: move to the next perspective directly. */
    method CycleTick() returns (sent: seq<HostEvent>)
      requires Valid()
      modifies this`state, this`stageToken, this`stageTimer, this`cycleRunning, this`cycleIndex
      ensures Valid()
      ensures !old(cycleRunning) ==> unchanged(this) && sent == []
      ensures old(cycleRunning) ==>
        var next := ParsePerspective(PerspectiveCycleOrder[(old(cycleIndex) + 1) % |PerspectiveCycleOrder|]);
        && state == DirectChange(old(state), next, "cycle")
        && stageTimer.None? && stageToken == old(stageToken) + 1
        && cycleIndex == (old(cycleIndex) + 1) % |PerspectiveCycleOrder|
        && sent == ChangeReport(old(state.perspective), next, "cycle")
    {
      if !cycleRunning {
        return [];
      }
      var nextIndex := (cycleIndex + 1) % |PerspectiveCycleOrder|;
      cycleIndex := nextIndex;
      sent := SetPerspective(PerspectiveCycleOrder[nextIndex], !state.reducedMotion, "cycle", "direct");
    }

    /**
     * onTabClick: report the chosen perspective to the host, stop the cycle and
     * change perspective as the user, staged unless the target is the universe
     * or motion is reduced. A direct change restarts the cycle when the panel
     * should run, from the new perspective's place in the cycle order.
     */
    method OnTabClick(attr: string) returns (sent: seq<HostEvent>)
      requires Valid()
      modifies this`state, this`stageToken, this`stageTimer, this`cycleRunning, this`cycleIndex
      ensures Valid()
      ensures sent == [PerspectiveInteraction(TabPerspective(attr))]
                      + ChangeReport(old(state.perspective), ParsePerspective(attr), "user")
      ensures stageToken == old(stageToken) + 1
      ensures ParsePerspective(attr) == Universe || old(state.reducedMotion) ==>
        state == DirectChange(old(state), ParsePerspective(attr), "user") && stageTimer.None?
        && cycleRunning == ShouldRun(state)
      ensures ParsePerspective(attr) != Universe && !old(state.reducedMotion) ==>
        state == StagedChange(old(state), ParsePerspective(attr), "user") && !cycleRunning
        && stageTimer == Some(PendingStage(ToRenormalized, StageSubsetMs, stageToken, state.perspective))
      ensures cycleIndex == (if cycleRunning then CycleIndexOf(state.perspective) else old(cycleIndex))
    {
      var name := TabPerspective(attr);
      StopPerspectiveCycle();
      var changes := SetPerspective(name, !state.reducedMotion, "user", "staged");
      sent := [PerspectiveInteraction(name)] + changes;
    }

    /** onTabKeydown: arrow, Home and End keys move to another tab (wrapping) and click it. */
    method OnTabKeydown(key: string, tabs: seq<string>, current: int) returns (sent: seq<HostEvent>)
      requires Valid()
      requires -1 <= current && (current < |tabs| || current == -1)
      modifies this`state, this`stageToken, this`stageTimer, this`cycleRunning, this`cycleIndex
      ensures Valid()
      ensures NextTabIndex(key, current, |tabs|).None? ==> unchanged(this) && sent == []
      ensures NextTabIndex(key, current, |tabs|).Some? ==>
        var attr := tabs[NextTabIndex(key, current, |tabs|).value];
        && sent == [PerspectiveInteraction(TabPerspective(attr))]
                   + ChangeReport(old(state.perspective), ParsePerspective(attr), "user")
        && stageToken == old(stageToken) + 1
        && (ParsePerspective(attr) == Universe || old(state.reducedMotion) ==>
              state == DirectChange(old(state), ParsePerspective(attr), "user") && stageTimer.None?
              && cycleRunning == ShouldRun(state))
        && (ParsePerspective(attr) != Universe && !old(state.reducedMotion) ==>
              state == StagedChange(old(state), ParsePerspective(attr), "user") && !cycleRunning
              && stageTimer == Some(PendingStage(ToRenormalized, StageSubsetMs, stageToken, state.perspective)))
        && cycleIndex == (if cycleRunning then CycleIndexOf(state.perspective) else old(cycleIndex))
    {
      var target := NextTabIndex(key, current, |tabs|);
      if target.None? {
        return [];
      }
      sent := OnTabClick(tabs[target.value]);
    }

    /** The sim-start button: report it to the host, then request running. */
    method OnSimStartClick() returns (sent: HostEvent)
      requires Valid()
      modifies this`state, this`cycleRunning, this`cycleIndex
      ensures Valid() && CycleIndexFollows()
      ensures sent == SimStartInteraction
      ensures state == Refreshed(old(state).(runningRequested := true))
      ensures state.runningActual <==> !state.reducedMotion && state.pageVisible && !state.transitionPaused
    {
      sent := SimStartInteraction;
      SetRunning(true);
    }

    /** The sim-stop button: report it to the host, then stop the simulation. */
    method OnSimStopClick() returns (sent: HostEvent)
      requires Valid()
      modifies this`state, this`cycleRunning, this`cycleIndex
      ensures Valid() && cycleIndex == old(cycleIndex)
      ensures sent == SimStopInteraction
      ensures state == Refreshed(old(state).(runningRequested := false))
      ensures !state.runningActual && !cycleRunning
    {
      sent := SimStopInteraction;
      SetRunning(false);
    }

    /** destroy: cancel the transition and stop both timers; the drops stay where they are. */
    method Destroy()
      modifies this`state, this`stageToken, this`stageTimer, this`cycleRunning
      ensures stageTimer.None? && !cycleRunning && stageToken == old(stageToken) + 1
      ensures state == Cleared(old(state)).(runningActual := false, lastTs := None, spawnAccumulator := 0.0)
    {
      ClearNarrativeTransition();
      StopTimer();
      StopPerspectiveCycle();
    }
  }

  /** Stepping the population keeps the state valid. */
  lemma StepKeepsValid(s: PanelState, dt: real, ease: real -> real)
    requires StateValid(s) && s.runningActual
    ensures StateValid(s.(drops := StepAll(s.drops, dt, ease)))
  {
    StepAllKeepsLive(s.drops, s.dropId, dt, ease);
    WithinCapDown(|StepAll(s.drops, dt, ease)|, |s.drops|, s.maxDrops);
  }

  /** Subtracting the divisor once lowers the quotient by exactly one. */
  lemma DivideShift(a: real, s: real)
    requires s > 0.0
    ensures (a - s) / s == a / s - 1.0
  {
    assert (a - s) / s == a / s - s / s;
  }
}
