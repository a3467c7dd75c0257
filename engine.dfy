/*
 * The stateful part of the rain engine page (public/js/rain/rain_engine.js):
 * the replay record with its runId-guarded timer queue, the four-step replay
 * cycle that loops while playing, manual step navigation, the unlock level,
 * the decision controls and the preset highlight. The page's closure
 * variables become the fields of one `RainEngine` object; timers the page
 * hands to d3 or the browser become entries of `replay.timeouts` that the
 * environment fires with `Fire`.
 */
module Engine {
  import opened Numeric
  import RainModel
  import ConditionalGeometry
  import opened EngineRules

  const ReplayLoopGapMs: real := 220.0

  /** A duration the progress loop divides by: at least one millisecond. */
  type Duration = x: real | x >= 1.0 witness 1.0

  datatype Mode = Idle | Playing

  /** What a replay timeout does when it fires. */
  datatype Action =
    | ApplyStep(step: real)
    | FinishCycle(reduced: bool)
    | RestartCycle(reduced: bool)

  /**
   * A pending replay callback together with the runId it captured: a one-shot
   * timeout due at `dueMs`, or the repeating progress tick of a cycle lasting
   * `totalMs`.
   */
  datatype Timer =
    | Timeout(dueMs: real, runId: nat, action: Action)
    | ProgressInterval(runId: nat, totalMs: Duration)

  /** The source's `replay` object; `progress` is the width the progress bar shows. */
  datatype Replay = Replay(
    mode: Mode,
    step: Option<real>,
    runId: nat,
    timeouts: seq<Timer>,
    progressTimer: bool,
    lock: bool,
    startedAtMs: real,
    totalMs: real,
    progress: real)

  const InitialReplay: Replay := Replay(Idle, None, 0, [], false, false, 0.0, 0.0, 0.0)

  /**
   * Every pending callback carries the current runId, callbacks are pending
   * only while playing, playing holds the lock, a shown step is in 1..4 and
   * the progress bar shows a fraction.
   */
  predicate ReplayValid(r: Replay) {
    && (forall i :: 0 <= i < |r.timeouts| ==> r.timeouts[i].runId == r.runId)
    && (|r.timeouts| > 0 ==> r.mode == Playing)
    && (r.mode == Playing ==> r.lock)
    && (r.step.Some? ==> 1.0 <= r.step.value <= 4.0)
    && InUnit(r.progress)
  }

  /** clearReplayTimeouts: every handle is stopped and the list emptied. */
  function TimeoutsCleared(r: Replay): Replay {
    r.(timeouts := [], progressTimer := false)
  }

  /**
   * cancelReplay's effect on the record: timers cleared, mode idle, lock
   * released, a fresh runId, and step and progress reset unless kept.
   */
  function Cancelled(r: Replay, keepStep: bool, keepProgress: bool): (c: Replay)
    ensures ReplayValid(r) ==> ReplayValid(c)
  {
    TimeoutsCleared(r).(
      mode := Idle, lock := false, runId := r.runId + 1,
      step := if keepStep then r.step else None,
      progress := if keepProgress then r.progress else 0.0)
  }

  /**
   * The cancellation discipline: after a cancel no callback scheduled before
   * it is pending, every one of them holds a runId the guard refuses, and the
   * cancelled record has nothing left to run.
   */
  lemma CancelDisarmsEarlierCallbacks(r: Replay, keepStep: bool, keepProgress: bool, t: Timer)
    requires t in r.timeouts
    requires forall i :: 0 <= i < |r.timeouts| ==> r.timeouts[i].runId <= r.runId
    ensures var c := Cancelled(r, keepStep, keepProgress);
      c.timeouts == [] && c.mode == Idle && !c.lock && t.runId < c.runId
  {
    var i :| 0 <= i < |r.timeouts| && r.timeouts[i] == t;
  }

  /** The list with entry `k` gone: a one-shot timeout that has fired. */
  function WithoutEntry(ts: seq<Timer>, k: nat): (rest: seq<Timer>)
    requires k < |ts|
    ensures |rest| == |ts| - 1
    ensures forall t :: t in rest ==> t in ts
  {
    ts[..k] + ts[k + 1..]
  }

  /** scheduleReplayTimeout: the delay is floored at 0. */
  function TimeoutAt(now: real, delayMs: real, runId: nat, action: Action): (t: Timer)
    ensures t.Timeout? && t.dueMs >= now && t.runId == runId && t.action == action
  {
    Timeout(now + Max(0.0, delayMs), runId, action)
  }

  /**
   * The callbacks scheduleReplayCycle registers, in order: the progress tick,
   * steps 2, 3 and 4 at their cumulative offsets, and the end of the cycle.
   */
  function CycleTimers(runId: nat, reduced: bool, now: real): (ts: seq<Timer>)
    ensures |ts| == 5
    ensures forall i :: 0 <= i < |ts| ==> ts[i].runId == runId
  {
    var total := ReplayTotalDuration(reduced);
    [ProgressInterval(runId, total),
     TimeoutAt(now, StepOffset(reduced, 2), runId, ApplyStep(2.0)),
     TimeoutAt(now, StepOffset(reduced, 3), runId, ApplyStep(3.0)),
     TimeoutAt(now, StepOffset(reduced, 4), runId, ApplyStep(4.0)),
     TimeoutAt(now, total, runId, FinishCycle(reduced))]
  }

  /**
   * The cycle's timeouts fire in step order: step k is due k's offset after
   * the cycle starts, the offsets increase, and the cycle ends after all of
   * them, 3900 ms after the start (1800 ms under reduced motion).
   */
  lemma CycleTimersInOrder(runId: nat, reduced: bool, now: real)
    ensures var ts := CycleTimers(runId, reduced, now);
      && (forall k :: 2 <= k <= 4 ==> ts[k - 1] == Timeout(now + StepOffset(reduced, k), runId, ApplyStep(k as real)))
      && ts[1].dueMs < ts[2].dueMs < ts[3].dueMs < ts[4].dueMs
      && ts[4] == Timeout(now + (if reduced then 1800.0 else 3900.0), runId, FinishCycle(reduced))
  {
    StepOffsetsIncrease(reduced, 1, 2);
    StepOffsetsIncrease(reduced, 2, 3);
    StepOffsetsIncrease(reduced, 3, 4);
  }

  /** The record after scheduleReplayCycle's body: step 1 shown, progress loop restarted, timers added. */
  function CycleStarted(r: Replay, runId: nat, reduced: bool, now: real): Replay {
    r.(step := Some(1.0), startedAtMs := now, totalMs := ReplayTotalDuration(reduced), progress := 0.0,
       progressTimer := true, timeouts := r.timeouts + CycleTimers(runId, reduced, now))
  }

  lemma CycleStartedValid(r: Replay, reduced: bool, now: real)
    requires ReplayValid(r) && r.mode == Playing
    ensures ReplayValid(CycleStarted(r, r.runId, reduced, now))
  {
    var c := CycleStarted(r, r.runId, reduced, now);
    var ts := CycleTimers(r.runId, reduced, now);
    assert forall i :: |r.timeouts| <= i < |c.timeouts| ==> c.timeouts[i] == ts[i - |r.timeouts|];
  }

  /** The end-of-cycle callback: everything cleared, the bar full, a restart due 220 ms later. */
  function CycleFinished(r: Replay, runId: nat, reduced: bool, now: real): Replay {
    TimeoutsCleared(r).(progress := 1.0, timeouts := [TimeoutAt(now, ReplayLoopGapMs, runId, RestartCycle(reduced))])
  }

  /**
   * A progress tick: ignored unless its runId is current and the replay is
   * playing; otherwise the bar shows the clamped elapsed fraction.
   */
  function Ticked(r: Replay, runId: nat, total: Duration, now: real): (c: Replay)
    ensures c == r.(progress := c.progress)
    ensures InUnit(r.progress) ==> InUnit(c.progress)
    ensures runId != r.runId || r.mode != Playing ==> c == r
    ensures runId == r.runId && r.mode == Playing ==> c.progress == Clamp01(Finite((now - r.startedAtMs) / total))
  {
    if runId != r.runId || r.mode != Playing then r
    else r.(progress := Clamp01(Finite((now - r.startedAtMs) / total)))
  }

  /** Whether the guard at the top of a timeout's callback turns it away. */
  predicate Refused(r: Replay, t: Timer)
    requires t.Timeout?
  {
    t.runId != r.runId || (!t.action.ApplyStep? && r.mode != Playing)
  }

  // ------------------------------------------------------------ step views

  /** What applyReplayStep does to the particle cloud. */
  datatype ParticleMove =
    | StaticPrior
    | DriftFromPrior(animate: bool)
    | Settle(resample: bool)

  /**
   * What applyReplayStep sets up for a step: the conditional panel's
   * perspective (changed in staged or direct mode), its highlighted event,
   * whether the posterior is hidden, the particle move, and at step 4 the
   * emphasised decision.
   */
  datatype StepView = StepView(
    step: real,
    perspective: ConditionalGeometry.Perspective,
    staged: bool,
    animatePerspective: bool,
    highlight: Option<ConditionalGeometry.EventKey>,
    hidePosterior: bool,
    particles: ParticleMove,
    decision: Option<bool>)

  /**
   * applyReplayStep's branches: steps 1 and 2 show the universe with the
   * prior only, step 3 stages the testimony perspective and drifts the
   * particles from the prior, and every other value (step 4, or a fractional
   * step) lands on testimony directly, settles the particles, resampling
   * them unless the step shown before was 3, and emphasises the decision.
   */
  function ViewForStep(step: real, previous: Option<real>, animate: bool, takeUmbrella: bool): (v: StepView)
    ensures v.step == step
    ensures v.hidePosterior <==> step == 1.0 || step == 2.0
    ensures v.particles.Settle? <==> step != 1.0 && step != 2.0 && step != 3.0
    ensures v.particles.Settle? ==> (v.particles.resample <==> previous != Some(3.0))
    ensures v.decision.Some? <==> v.particles.Settle?
    ensures v.decision.Some? ==> v.decision.value == takeUmbrella
    ensures v.staged ==> step == 3.0 && v.perspective == ConditionalGeometry.GivenTestimony
  {
    if step == 1.0 then
      StepView(step, ConditionalGeometry.Universe, false, animate, Some(ConditionalGeometry.Rain), true, StaticPrior, None)
    else if step == 2.0 then
      StepView(step, ConditionalGeometry.Universe, false, animate, Some(ConditionalGeometry.Testimony), true, StaticPrior, None)
    else if step == 3.0 then
      StepView(step, ConditionalGeometry.GivenTestimony, true, animate, Some(ConditionalGeometry.Testimony), false,
               DriftFromPrior(animate), None)
    else
      StepView(step, ConditionalGeometry.GivenTestimony, false, false, None, false,
               Settle(previous != Some(3.0)), Some(takeUmbrella))
  }

  /**
   * cancelReplay handing the conditional panel back: the perspective it is
   * returned to (the last one the user chose there) and whether that move is
   * animated.
   */
  datatype HandBack = HandBack(perspective: ConditionalGeometry.Perspective, animate: bool)

  // ---------------------------------------------------------------- inputs

  /** The page's `state`, `decisionState`, `unlockStep` and `activePresetKey`. */
  datatype Inputs = Inputs(beliefs: Beliefs, decision: Decision, unlockStep: real, activePresetKey: Option<string>)

  predicate InputsValid(i: Inputs) {
    DecisionValid(i.decision) && i.unlockStep >= 1.0
    && (i.activePresetKey.Some? ==> PresetByKey(i.activePresetKey.value).Some?)
  }

  datatype SliderKey = PriorSlider | TruthSlider | FalseSlider

  function SliderSet(b: Beliefs, key: SliderKey, value: real): Beliefs {
    match key
    case PriorSlider => b.(prior := value)
    case TruthSlider => b.(tGivenR := value)
    case FalseSlider => b.(tGivenNotR := value)
  }

  /** The posterior deriveState gives for the engine's beliefs. */
  function PosteriorOf(b: Beliefs): (p: real)
    ensures InUnit(p)
  {
    RainModel.Posterior(b.prior, b.tGivenR, b.tGivenNotR)
  }

  /** A key produced by getMatchingPresetKey names a preset. */
  lemma MatchedKeyIsPreset(s: Beliefs)
    ensures FirstMatchingPreset(s, RainModel.Presets).Some? ==>
      PresetByKey(FirstMatchingPreset(s, RainModel.Presets).value).Some?
  {
    var k := FirstMatchingPreset(s, RainModel.Presets);
    if k.Some? {
      var i :| 0 <= i < |RainModel.Presets| && RainModel.Presets[i].key == k.value;
    }
  }

  class RainEngine {
    var replay: Replay
    var inputs: Inputs
    /** The step view the last applyReplayStep set up; None once cancel clears the visuals. */
    var view: Option<StepView>
    /** conditionalReplayControlled: replay has taken over the conditional panel. */
    var controlled: bool
    var prefersReducedMotion: bool
    const hasConditionalPanel: bool
    /** conditionalUserPerspective: the perspective last chosen on the conditional panel itself. */
    var userPerspective: ConditionalGeometry.Perspective
    /** The last hand-back of the conditional panel by cancelReplay, if any. */
    var handBack: Option<HandBack>

    ghost predicate Valid()
      reads this
    {
      ReplayValid(replay) && InputsValid(inputs)
    }

    /**
     * What cancelReplay without keepVisualState does to the visuals: the step
     * view is cleared and a panel that replay held is released and handed back
     * to the user's perspective, animated unless motion is reduced.
     */
    twostate predicate VisualsCancelled()
      reads this
    {
      && view == None && controlled == (old(controlled) && !hasConditionalPanel)
      && handBack == (if hasConditionalPanel && old(controlled)
                      then Some(HandBack(userPerspective, !prefersReducedMotion)) else old(handBack))
    }

    /** The visuals are as they were. */
    twostate predicate VisualsKept()
      reads this
    {
      view == old(view) && controlled == old(controlled) && handBack == old(handBack)
    }

    /**
     * The start-up state: canonical beliefs and default decision merged with
     * the hash, the cost threshold refreshed, unlock level 1, the matching
     * preset highlighted and the replay idle.
     */
    constructor (hash: Option<HashPartial>, reducedMotion: bool, hasPanel: bool)
      ensures Valid()
      ensures inputs.beliefs == InitialInputs(hash).0 && inputs.decision == InitialInputs(hash).1
      ensures inputs.unlockStep == 1.0
      ensures inputs.activePresetKey == FirstMatchingPreset(inputs.beliefs, RainModel.Presets)
      ensures replay == InitialReplay && view == None && !controlled
      ensures prefersReducedMotion == reducedMotion && hasConditionalPanel == hasPanel
      ensures userPerspective == ConditionalGeometry.Universe && handBack == None
    {
      var start := InitialInputs(hash);
      InitialInputsValid(hash);
      var key := GetMatchingPresetKey(start.0);
      MatchedKeyIsPreset(start.0);
      replay := InitialReplay;
      inputs := Inputs(start.0, start.1, 1.0, key);
      view := None;
      controlled := false;
      prefersReducedMotion := reducedMotion;
      hasConditionalPanel := hasPanel;
      userPerspective := ConditionalGeometry.Universe;
      handBack := None;
    }

    // ----------------------------------------------------- replay plumbing

    method ClearReplayTimeouts()
      modifies this`replay
      ensures replay == TimeoutsCleared(old(replay))
      ensures inputs == old(inputs) && view == old(view) && controlled == old(controlled)
      ensures prefersReducedMotion == old(prefersReducedMotion)
    {
      replay := TimeoutsCleared(replay);
    }

    /** scheduleReplayTimeout: register `action` to run `delayMs` from now under `runId`. */
    method ScheduleReplayTimeout(action: Action, delayMs: real, runId: nat, now: real)
      modifies this`replay
      ensures replay == old(replay).(timeouts := old(replay.timeouts) + [TimeoutAt(now, delayMs, runId, action)])
      ensures inputs == old(inputs) && view == old(view) && controlled == old(controlled)
      ensures prefersReducedMotion == old(prefersReducedMotion)
    {
      replay := replay.(timeouts := replay.timeouts + [TimeoutAt(now, delayMs, runId, action)]);
    }

    /** startReplayProgressLoop: restart the clock and the bar, register the tick. */
    method StartReplayProgressLoop(totalMs: real, runId: nat, now: real)
      modifies this`replay
      ensures replay == old(replay).(startedAtMs := now, totalMs := Max(1.0, totalMs), progress := 0.0,
        progressTimer := true, timeouts := old(replay.timeouts) + [ProgressInterval(runId, Max(1.0, totalMs))])
      ensures inputs == old(inputs) && view == old(view) && controlled == old(controlled)
      ensures prefersReducedMotion == old(prefersReducedMotion)
    {
      var total: Duration := Max(1.0, totalMs);
      replay := replay.(startedAtMs := now, totalMs := total, progress := 0.0, progressTimer := true,
                        timeouts := replay.timeouts + [ProgressInterval(runId, total)]);
    }

    /**
     * cancelReplay: stop every timer, go idle with a fresh runId, reset step
     * and progress unless asked to keep them, and clear the step's visuals
     * (handing the conditional panel back) unless asked to keep them.
     */
    method CancelReplay(keepStep: bool, keepVisualState: bool, keepProgress: bool)
      modifies this`replay, this`view, this`controlled, this`handBack
      ensures replay == Cancelled(old(replay), keepStep, keepProgress)
      ensures view == (if keepVisualState then old(view) else None)
      ensures controlled == (old(controlled) && (keepVisualState || !hasConditionalPanel))
      ensures handBack == (if !keepVisualState && hasConditionalPanel && old(controlled)
                           then Some(HandBack(userPerspective, !prefersReducedMotion)) else old(handBack))
      ensures inputs == old(inputs) && prefersReducedMotion == old(prefersReducedMotion)
      ensures userPerspective == old(userPerspective)
    {
      ClearReplayTimeouts();
      replay := replay.(mode := Idle, lock := false, runId := replay.runId + 1);
      if !keepStep {
        replay := replay.(step := None);
      }
      if !keepVisualState {
        view := None;
      }
      if !keepProgress {
        replay := replay.(progress := 0.0);
      }
      if !keepVisualState && hasConditionalPanel && controlled {
        controlled := false;
        handBack := Some(HandBack(userPerspective, !prefersReducedMotion));
      }
    }

    /**
     * applyReplayStep: store the clamped step, remembering the one shown
     * before, and set up that step's view; animation is on only when asked
     * for and reduced motion is off.
     */
    method ApplyReplayStep(step: Num, animated: bool)
      modifies this`replay, this`view, this`controlled
      ensures replay == old(replay).(step := Some(ClampStep(step)))
      ensures view == Some(ViewForStep(ClampStep(step), old(replay.step), animated && !prefersReducedMotion,
        TakeUmbrella(PosteriorOf(inputs.beliefs), inputs.decision.threshold)))
      ensures controlled == (old(controlled) || hasConditionalPanel)
      ensures inputs == old(inputs) && prefersReducedMotion == old(prefersReducedMotion)
    {
      var replayStep := ClampStep(step);
      var previousReplayStep := replay.step;
      var shouldAnimate := animated && !prefersReducedMotion;
      replay := replay.(step := Some(replayStep));
      if hasConditionalPanel {
        controlled := true;
      }
      var takeUmbrella := TakeUmbrella(PosteriorOf(inputs.beliefs), inputs.decision.threshold);
      view := Some(ViewForStep(replayStep, previousReplayStep, shouldAnimate, takeUmbrella));
    }

    /**
     * scheduleReplayCycle: unless the runId is stale or the replay stopped,
     * show step 1 now, restart the progress loop and register steps 2-4 and
     * the end of the cycle.
     */
    method ScheduleReplayCycle(runId: nat, reduced: bool, now: real)
      modifies this`replay, this`view, this`controlled
      ensures runId != old(replay.runId) || old(replay.mode) != Playing ==>
        replay == old(replay) && view == old(view) && controlled == old(controlled)
      ensures runId == old(replay.runId) && old(replay.mode) == Playing ==>
        && replay == CycleStarted(old(replay), runId, reduced, now)
        && view == Some(ViewForStep(1.0, old(replay.step), !prefersReducedMotion,
             TakeUmbrella(PosteriorOf(inputs.beliefs), inputs.decision.threshold)))
        && controlled == (old(controlled) || hasConditionalPanel)
      ensures inputs == old(inputs) && prefersReducedMotion == old(prefersReducedMotion)
    {
      if runId != replay.runId || replay.mode != Playing {
        return;
      }
      var total := ReplayTotalDuration(reduced);
      ApplyReplayStep(Finite(1.0), true);
      StartReplayProgressLoop(total, runId, now);
      ScheduleReplayTimeout(ApplyStep(2.0), StepOffset(reduced, 2), runId, now);
      ScheduleReplayTimeout(ApplyStep(3.0), StepOffset(reduced, 3), runId, now);
      ScheduleReplayTimeout(ApplyStep(4.0), StepOffset(reduced, 4), runId, now);
      ScheduleReplayTimeout(FinishCycle(reduced), total, runId, now);
    }

    /**
     * A pending timer fires (the environment chooses which; any order is
     * allowed). A one-shot timeout leaves the queue; its callback does
     * nothing when the guard refuses it.
     */
    method Fire(k: nat, now: real)
      requires k < |replay.timeouts|
      modifies this`replay, this`view, this`controlled
      ensures old(Valid()) ==> Valid()
      ensures replay.runId == old(replay.runId)
      ensures inputs == old(inputs) && prefersReducedMotion == old(prefersReducedMotion)
      ensures var t := old(replay.timeouts[k]);
        t.ProgressInterval? ==>
          replay == Ticked(old(replay), t.runId, t.totalMs, now) && view == old(view) && controlled == old(controlled)
      ensures var t := old(replay.timeouts[k]);
        t.Timeout? && Refused(old(replay), t) ==>
          replay == old(replay).(timeouts := WithoutEntry(old(replay.timeouts), k))
          && view == old(view) && controlled == old(controlled)
      ensures var t := old(replay.timeouts[k]);
        t.Timeout? && !Refused(old(replay), t) && t.action.ApplyStep? ==>
          replay == old(replay).(timeouts := WithoutEntry(old(replay.timeouts), k), step := Some(ClampStep(Finite(t.action.step))))
          && view.Some? && view.value.step == ClampStep(Finite(t.action.step))
          && view == Some(ViewForStep(ClampStep(Finite(t.action.step)), old(replay.step), !prefersReducedMotion,
               TakeUmbrella(PosteriorOf(inputs.beliefs), inputs.decision.threshold)))
          && controlled == (old(controlled) || hasConditionalPanel)
      ensures var t := old(replay.timeouts[k]);
        t.Timeout? && !Refused(old(replay), t) && t.action.FinishCycle? ==>
          replay == CycleFinished(old(replay), t.runId, t.action.reduced, now) && view == old(view)
          && controlled == old(controlled)
      ensures var t := old(replay.timeouts[k]);
        t.Timeout? && !Refused(old(replay), t) && t.action.RestartCycle? ==>
          replay == CycleStarted(old(replay).(timeouts := WithoutEntry(old(replay.timeouts), k)), t.runId, t.action.reduced, now)
          && view == Some(ViewForStep(1.0, old(replay.step), !prefersReducedMotion,
               TakeUmbrella(PosteriorOf(inputs.beliefs), inputs.decision.threshold)))
          && controlled == (old(controlled) || hasConditionalPanel)
    {
      ghost var r0 := replay;
      ghost var valid0 := Valid();
      var t := replay.timeouts[k];
      if t.ProgressInterval? {
        replay := Ticked(replay, t.runId, t.totalMs, now);
        return;
      }
      replay := replay.(timeouts := WithoutEntry(replay.timeouts, k));
      ghost var r1 := replay;
      assert valid0 ==> ReplayValid(r1) by {
        if valid0 {
          assert forall x :: x in r1.timeouts ==> x in r0.timeouts;
        }
      }
      if t.runId != replay.runId {
        return;
      }
      RunTimeout(t.action, t.runId, now);
    }

    /**
     * The callback of a one-shot timeout whose runId is current: apply a
     * step; or, while playing, finish the cycle (the bar full, a restart
     * after the loop gap) or start the next one.
     */
    method RunTimeout(action: Action, runId: nat, now: real)
      requires runId == replay.runId
      modifies this`replay, this`view, this`controlled
      ensures ReplayValid(old(replay)) ==> ReplayValid(replay)
      ensures replay.runId == old(replay.runId)
      ensures action.ApplyStep? ==>
        && replay == old(replay).(step := Some(ClampStep(Finite(action.step))))
        && view == Some(ViewForStep(ClampStep(Finite(action.step)), old(replay.step), !prefersReducedMotion,
             TakeUmbrella(PosteriorOf(inputs.beliefs), inputs.decision.threshold)))
        && controlled == (old(controlled) || hasConditionalPanel)
      ensures !action.ApplyStep? && old(replay.mode) != Playing ==>
        replay == old(replay) && view == old(view) && controlled == old(controlled)
      ensures action.FinishCycle? && old(replay.mode) == Playing ==>
        replay == CycleFinished(old(replay), runId, action.reduced, now) && view == old(view)
        && controlled == old(controlled)
      ensures action.RestartCycle? && old(replay.mode) == Playing ==>
        && replay == CycleStarted(old(replay), runId, action.reduced, now)
        && view == Some(ViewForStep(1.0, old(replay.step), !prefersReducedMotion,
             TakeUmbrella(PosteriorOf(inputs.beliefs), inputs.decision.threshold)))
        && controlled == (old(controlled) || hasConditionalPanel)
    {
      ghost var r1 := replay;
      match action
      case ApplyStep(n) =>
        ApplyReplayStep(Finite(n), true);
      case FinishCycle(reduced) =>
        if replay.mode != Playing {
          return;
        }
        ClearReplayTimeouts();
        replay := replay.(progress := 1.0);
        ScheduleReplayTimeout(RestartCycle(reduced), ReplayLoopGapMs, runId, now);
      case RestartCycle(reduced) =>
        ScheduleReplayCycle(runId, reduced, now);
        if ReplayValid(r1) && r1.mode == Playing {
          CycleStartedValid(r1, reduced, now);
        }
    }

    // -------------------------------------------------------- replay controls

    /**
     * startReplay (the Play / Restart button): cancel whatever ran, start
     * playing under a runId one past the cancel's, and schedule the first
     * cycle with the current motion profile.
     */
    method StartReplay(now: real)
      requires Valid()
      modifies this`replay, this`view, this`controlled, this`handBack
      ensures Valid()
      ensures replay.mode == Playing && replay.lock && replay.runId == old(replay.runId) + 2
      ensures replay.step == Some(1.0) && replay.progress == 0.0
      ensures replay.timeouts == CycleTimers(replay.runId, prefersReducedMotion, now)
      ensures view.Some? && view.value.step == 1.0 && view.value.particles == StaticPrior
      ensures view == Some(ViewForStep(1.0, None, !prefersReducedMotion,
        TakeUmbrella(PosteriorOf(inputs.beliefs), inputs.decision.threshold)))
      ensures controlled == (old(controlled) || hasConditionalPanel)
      ensures handBack == (if hasConditionalPanel && old(controlled)
                           then Some(HandBack(userPerspective, !prefersReducedMotion)) else old(handBack))
      ensures inputs == old(inputs) && prefersReducedMotion == old(prefersReducedMotion)
      ensures userPerspective == old(userPerspective)
    {
      CancelReplay(false, false, false);
      replay := replay.(mode := Playing, lock := true, runId := replay.runId + 1);
      ghost var r := replay;
      ScheduleReplayCycle(replay.runId, prefersReducedMotion, now);
      CycleStartedValid(r, prefersReducedMotion, now);
    }

    /**
     * jumpToReplayStep: cancel, store the clamped step before applying it,
     * show its progress, and apply it, animated unless motion is reduced.
     */
    method JumpToReplayStep(step: Num)
      requires Valid()
      modifies this`replay, this`view, this`controlled, this`handBack
      ensures Valid()
      ensures replay.mode == Idle && replay.timeouts == [] && !replay.lock && replay.runId == old(replay.runId) + 1
      ensures replay.step == Some(ClampStep(step)) && replay.progress == JumpProgress(ClampStep(step))
      ensures view.Some? && view.value.step == ClampStep(step)
      ensures view.value.particles.Settle? ==> view.value.particles.resample
      ensures view == Some(ViewForStep(ClampStep(step), Some(ClampStep(step)), !prefersReducedMotion,
        TakeUmbrella(PosteriorOf(inputs.beliefs), inputs.decision.threshold)))
      ensures controlled == (old(controlled) || hasConditionalPanel)
      ensures handBack == (if hasConditionalPanel && old(controlled)
                           then Some(HandBack(userPerspective, !prefersReducedMotion)) else old(handBack))
      ensures inputs == old(inputs) && prefersReducedMotion == old(prefersReducedMotion)
      ensures userPerspective == old(userPerspective)
    {
      CancelReplay(false, false, false);
      var s := ClampStep(step);
      replay := replay.(step := Some(s), progress := JumpProgress(s));
      ApplyReplayStep(Finite(s), !prefersReducedMotion);
    }

    /** The "previous" button: jump to the step before the current one (1 when none is shown). */
    method OnPrev()
      requires Valid()
      modifies this`replay, this`view, this`controlled, this`handBack
      ensures Valid()
      ensures replay.step == Some(ClampStep(Finite(CurrentStep(old(replay.step)) - 1.0)))
      ensures replay.mode == Idle && replay.timeouts == []
      ensures !replay.lock && replay.runId == old(replay.runId) + 1
      ensures replay.progress == JumpProgress(ClampStep(Finite(CurrentStep(old(replay.step)) - 1.0)))
      ensures var s := ClampStep(Finite(CurrentStep(old(replay.step)) - 1.0));
        view == Some(ViewForStep(s, Some(s), !prefersReducedMotion,
          TakeUmbrella(PosteriorOf(inputs.beliefs), inputs.decision.threshold)))
      ensures controlled == (old(controlled) || hasConditionalPanel)
      ensures handBack == (if hasConditionalPanel && old(controlled)
                           then Some(HandBack(userPerspective, !prefersReducedMotion)) else old(handBack))
      ensures inputs == old(inputs)
    {
      JumpToReplayStep(Finite(CurrentStep(replay.step) - 1.0));
    }

    /** The "next" button: jump to the step after the current one (from 1 when none is shown). */
    method OnNext()
      requires Valid()
      modifies this`replay, this`view, this`controlled, this`handBack
      ensures Valid()
      ensures replay.step == Some(ClampStep(Finite(CurrentStep(old(replay.step)) + 1.0)))
      ensures replay.mode == Idle && replay.timeouts == []
      ensures !replay.lock && replay.runId == old(replay.runId) + 1
      ensures replay.progress == JumpProgress(ClampStep(Finite(CurrentStep(old(replay.step)) + 1.0)))
      ensures var s := ClampStep(Finite(CurrentStep(old(replay.step)) + 1.0));
        view == Some(ViewForStep(s, Some(s), !prefersReducedMotion,
          TakeUmbrella(PosteriorOf(inputs.beliefs), inputs.decision.threshold)))
      ensures controlled == (old(controlled) || hasConditionalPanel)
      ensures handBack == (if hasConditionalPanel && old(controlled)
                           then Some(HandBack(userPerspective, !prefersReducedMotion)) else old(handBack))
      ensures inputs == old(inputs)
    {
      JumpToReplayStep(Finite(CurrentStep(replay.step) + 1.0));
    }

    /** Escape stops a playing replay and does nothing otherwise. */
    method OnEscape()
      requires Valid()
      modifies this`replay, this`view, this`controlled, this`handBack
      ensures Valid()
      ensures old(replay.mode) == Playing ==> replay == Cancelled(old(replay), false, false)
      ensures old(replay.mode) != Playing ==> replay == old(replay) && view == old(view)
      ensures old(replay.mode) == Playing ==> VisualsCancelled()
      ensures old(replay.mode) != Playing ==> VisualsKept()
      ensures inputs == old(inputs)
    {
      if replay.mode == Playing {
        CancelReplay(false, false, false);
      }
    }

    /**
     * The conditional panel's onUserInteraction: a perspective the user picks
     * there is remembered for later hand-backs, and a playing replay is
     * cancelled, so the panel returns at once to that perspective.
     */
    method OnConditionalInteraction(perspective: Option<ConditionalGeometry.Perspective>)
      requires Valid()
      modifies this`replay, this`view, this`controlled, this`handBack, this`userPerspective
      ensures Valid()
      ensures userPerspective == (if perspective.Some? then perspective.value else old(userPerspective))
      ensures old(replay.mode) == Playing ==> replay == Cancelled(old(replay), false, false) && VisualsCancelled()
      ensures old(replay.mode) != Playing ==> replay == old(replay) && VisualsKept()
      ensures inputs == old(inputs) && prefersReducedMotion == old(prefersReducedMotion)
    {
      if perspective.Some? {
        userPerspective := perspective.value;
      }
      if replay.mode == Playing {
        CancelReplay(false, false, false);
      }
    }

    /**
     * A change of the reduced-motion preference: the lock is released and a
     * playing replay is cancelled, so no cycle keeps the old motion profile.
     */
    method OnReducedMotionChanged(matches: bool)
      requires Valid()
      modifies this`replay, this`view, this`controlled, this`handBack, this`prefersReducedMotion
      ensures Valid()
      ensures prefersReducedMotion == matches && !replay.lock
      ensures old(replay.mode) == Playing ==> replay == Cancelled(old(replay), false, false)
      ensures old(replay.mode) != Playing ==> replay == old(replay).(lock := false)
      ensures old(replay.mode) == Playing ==> VisualsCancelled()
      ensures old(replay.mode) != Playing ==> VisualsKept()
      ensures replay.mode == Idle && replay.timeouts == []
      ensures inputs == old(inputs)
    {
      prefersReducedMotion := matches;
      if replay.mode == Playing {
        CancelReplay(false, false, false);
      } else {
        replay := replay.(lock := false);
      }
    }

    // ------------------------------------------------------ unlock, decision

    /** setUnlockStep: the unlock level only ever rises. */
    method SetUnlockStep(next: real)
      requires Valid()
      modifies this`inputs
      ensures Valid()
      ensures inputs == old(inputs).(unlockStep := NextUnlockStep(old(inputs.unlockStep), next))
      ensures replay == old(replay) && view == old(view)
    {
      inputs := inputs.(unlockStep := NextUnlockStep(inputs.unlockStep, next));
    }

    /** The decision-threshold slider while dragging: cancel the replay, leave cost mode. */
    method OnThresholdInput(value: Num)
      requires Valid()
      modifies this`inputs, this`replay, this`view, this`controlled, this`handBack
      ensures Valid()
      ensures inputs == old(inputs).(decision := ThresholdSet(old(inputs.decision), value))
      ensures replay == Cancelled(old(replay), false, false)
      ensures VisualsCancelled()
    {
      CancelReplay(false, false, false);
      inputs := inputs.(decision := ThresholdSet(inputs.decision, value));
    }

    /** The decision-threshold slider's commit: the same threshold rule, without a cancel. */
    method OnThresholdChange(value: Num)
      requires Valid()
      modifies this`inputs
      ensures Valid()
      ensures inputs == old(inputs).(decision := ThresholdSet(old(inputs.decision), value))
      ensures replay == old(replay) && view == old(view)
    {
      inputs := inputs.(decision := ThresholdSet(inputs.decision, value));
    }

    /** The "use costs" checkbox. */
    method OnCostToggle(checked: bool)
      requires Valid()
      modifies this`inputs, this`replay, this`view, this`controlled, this`handBack
      ensures Valid()
      ensures inputs == old(inputs).(decision := CostModeSet(old(inputs.decision), checked))
      ensures replay == Cancelled(old(replay), false, false)
      ensures VisualsCancelled()
    {
      CancelReplay(false, false, false);
      inputs := inputs.(decision := CostModeSet(inputs.decision, checked));
    }

    /** The false-positive cost slider. */
    method OnFalsePositiveCostInput(value: real)
      requires Valid()
      modifies this`inputs, this`replay, this`view, this`controlled, this`handBack
      ensures Valid()
      ensures inputs == old(inputs).(decision := FalsePositiveCostSet(old(inputs.decision), value))
      ensures replay == Cancelled(old(replay), false, false)
      ensures VisualsCancelled()
    {
      CancelReplay(false, false, false);
      inputs := inputs.(decision := FalsePositiveCostSet(inputs.decision, value));
    }

    /** The false-negative cost slider. */
    method OnFalseNegativeCostInput(value: real)
      requires Valid()
      modifies this`inputs, this`replay, this`view, this`controlled, this`handBack
      ensures Valid()
      ensures inputs == old(inputs).(decision := FalseNegativeCostSet(old(inputs.decision), value))
      ensures replay == Cancelled(old(replay), false, false)
      ensures VisualsCancelled()
    {
      CancelReplay(false, false, false);
      inputs := inputs.(decision := FalseNegativeCostSet(inputs.decision, value));
    }

    /** Reset: default decision, canonical beliefs, canonical preset highlighted. */
    method OnReset()
      requires Valid()
      modifies this`inputs, this`replay, this`view, this`controlled, this`handBack
      ensures Valid()
      ensures inputs == old(inputs).(beliefs := BeliefsOf(RainModel.Canonical), decision := DefaultDecision,
        activePresetKey := Some(RainModel.Canonical.key))
      ensures replay == Cancelled(old(replay), false, false)
      ensures VisualsCancelled()
    {
      CancelReplay(false, false, false);
      inputs := inputs.(decision := DefaultDecision);
      SetState(BeliefsOf(RainModel.Canonical), Some(RainModel.Canonical.key));
    }

    /** A preset button: an unknown key only cancels the replay; a known one loads the preset. */
    method OnPresetClick(key: string)
      requires Valid()
      modifies this`inputs, this`replay, this`view, this`controlled, this`handBack
      ensures Valid()
      ensures replay == Cancelled(old(replay), false, false)
      ensures VisualsCancelled()
      ensures PresetByKey(key).None? ==> inputs == old(inputs)
      ensures PresetByKey(key).Some? ==>
        inputs == old(inputs).(beliefs := BeliefsOf(PresetByKey(key).value), activePresetKey := Some(key))
    {
      CancelReplay(false, false, false);
      var preset := PresetByKey(key);
      if preset.None? {
        return;
      }
      SetState(BeliefsOf(preset.value), Some(key));
    }

    /**
     * setState: store the clamped beliefs and highlight the given preset. Its
     * callers pass preset values, which are already probabilities.
     */
    method SetState(next: Beliefs, presetKey: Option<string>)
      requires Valid()
      requires BeliefsInUnit(next)
      requires presetKey.Some? ==> PresetByKey(presetKey.value).Some?
      modifies this`inputs
      ensures Valid()
      ensures inputs == old(inputs).(beliefs := next,
        activePresetKey := if presetKey.Some? then presetKey else old(inputs.activePresetKey))
      ensures replay == old(replay) && view == old(view) && controlled == old(controlled)
    {
      var clamped := Beliefs(ClampUnit(next.prior), ClampUnit(next.tGivenR), ClampUnit(next.tGivenNotR));
      inputs := inputs.(beliefs := clamped);
      if presetKey.Some? {
        inputs := inputs.(activePresetKey := presetKey);
      }
    }

    /**
     * A belief slider (while dragging or on commit): cancel the replay, store
     * the slider's number and drop the preset highlight once it no longer
     * matches.
     */
    method OnSliderInput(key: SliderKey, value: real)
      requires Valid()
      modifies this`inputs, this`replay, this`view, this`controlled, this`handBack
      ensures Valid()
      ensures inputs.beliefs == SliderSet(old(inputs.beliefs), key, value)
      ensures inputs.activePresetKey == ActivePresetAfterInput(old(inputs.activePresetKey), inputs.beliefs)
      ensures inputs.decision == old(inputs.decision) && inputs.unlockStep == old(inputs.unlockStep)
      ensures replay == Cancelled(old(replay), false, false)
      ensures VisualsCancelled()
    {
      CancelReplay(false, false, false);
      var b := SliderSet(inputs.beliefs, key, value);
      inputs := inputs.(beliefs := b, activePresetKey := ActivePresetAfterInput(inputs.activePresetKey, b));
    }
  }

  /**
   * The replay cycle, played through: step 1 is shown by the start, the
   * timers apply 2, 3 and 4 in order, and because step 3 was shown just
   * before, step 4 settles the particles without resampling them; a jump to
   * step 4 (which stores 4 before applying it) always resamples.
   */
  lemma PlayedStepFourKeepsSamples(animate: bool, takeUmbrella: bool)
    ensures ViewForStep(4.0, Some(3.0), animate, takeUmbrella).particles == Settle(false)
    ensures ViewForStep(4.0, Some(4.0), animate, takeUmbrella).particles == Settle(true)
  {
  }
}
