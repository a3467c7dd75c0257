/*
 * The rain preview: a small animated rain whose density, speed and wind follow
 * the explainer's current numbers. Its closure keeps the drops, a spawn
 * accumulator, the smoothed and target parameters, a decaying pulse and a
 * frame timer; that closure is the class below.
 *
 * The clock (`performance.now()`) is a parameter of every method that reads
 * it, the random draws a drop takes are supplied per drop id, and
 * `Math.pow(m, 1.6)` is a parameter `pow`. Drawing the SVG is not modelled.
 */
module RainPreview {
  import opened Numeric

  /** DEFAULTS. */
  const DefaultMaxDrops: nat := 320
  const DefaultPanelMin: real := 220.0
  const DefaultStrokeBase: real := 1.1
  const DefaultSmoothing: real := 0.12
  const DefaultPulseMs: real := 320.0

  /** The frame-time clamp, in seconds, and the per-frame spawn cap. */
  const MinFrameSeconds: real := 1.0 / 240.0
  const MaxFrameSeconds: real := 0.08
  const MaxSpawnPerFrame: int := 20

  // ------------------------------------------------------------ parameters

  /** The five numbers the preview follows. */
  datatype Params = Params(m: real, u: real, e: real, priorMean: real, posteriorMean: real)

  predicate ParamsInUnit(p: Params) {
    InUnit(p.m) && InUnit(p.u) && InUnit(p.e) && InUnit(p.priorMean) && InUnit(p.posteriorMean)
  }

  const InitialParams: Params := Params(0.5, 0.5, 0.0, 0.5, 0.5)

  /** The argument of setTargetParams; a missing field reads as NaN. */
  datatype ParamsInput = ParamsInput(m: Num, u: Num, e: Num, priorMean: Num, posteriorMean: Num)

  /** setTargetParams: `nextParams || {}`, then clamp01 on every field. */
  function TargetFrom(next: Option<ParamsInput>): (p: Params)
    ensures ParamsInUnit(p)
    ensures next.None? ==> p == Params(0.0, 0.0, 0.0, 0.0, 0.0)
    ensures next.Some? && next.value.m.Finite? && InUnit(next.value.m.value) ==> p.m == next.value.m.value
  {
    match next
    case None => Params(0.0, 0.0, 0.0, 0.0, 0.0)
    case Some(n) =>
      Params(Clamp01(n.m), Clamp01(n.u), Clamp01(n.e), Clamp01(n.priorMean), Clamp01(n.posteriorMean))
  }

  /** `current += (target - current) * k`: one smoothing step. */
  function Approach(current: real, target: real, k: real): (r: real)
    ensures InUnit(k) ==> Min(current, target) <= r <= Max(current, target)
    ensures current == target ==> r == current
  {
    var d := target - current;
    assert InUnit(k) ==> Min(current, target) <= current + d * k <= Max(current, target) by {
      if InUnit(k) {
        ScaleUnitBounds(d, k);
      }
    }
    assert d == 0.0 ==> d * k == 0.0;
    current + d * k
  }

  /** tickFrame's smoothing of every current parameter toward its target. */
  function Smoothed(current: Params, target: Params, k: real): (p: Params)
    ensures InUnit(k) && ParamsInUnit(current) && ParamsInUnit(target) ==> ParamsInUnit(p)
    ensures current == target ==> p == current
  {
    Params(Approach(current.m, target.m, k), Approach(current.u, target.u, k), Approach(current.e, target.e, k),
           Approach(current.priorMean, target.priorMean, k), Approach(current.posteriorMean, target.posteriorMean, k))
  }

  // ---------------------------------------------------------- derived values

  /** What a frame draws with (computeDerived). */
  datatype Config = Config(
    m: real, u: real,
    spawnRate: real, baseSpeed: real, streakLen: real,
    jitter: real, mistAlpha: real, windDrift: real)

  /** A rate raised by a factor 1 + w * boost. */
  function Boosted(x: real, w: real, boost: real): (r: real)
    requires x >= 0.0 && w >= 0.0 && InUnit(boost)
    ensures x <= r <= x * (1.0 + w)
  {
    MulNonneg(x, w * boost);
    ScaleUnitBounds(w, boost);
    MulNonneg(x, w - w * boost);
    x * (1.0 + w * boost)
  }

  /**
   * computeDerived: rain rate, speed and streak length follow the amount m,
   * jitter and mist the uncertainty u, the wind the shift from prior to
   * posterior mean; a pulse boost raises the rate by up to 75% and the speed
   * by up to 50%.
   */
  function ComputeDerived(params: Params, pulseBoost: real, pow: real -> real): (c: Config)
    ensures InUnit(c.m) && InUnit(c.u)
    ensures 2.0 <= c.spawnRate <= 70.0 * 1.75 && 80.0 <= c.baseSpeed <= 520.0 * 1.5
    ensures 6.0 <= c.streakLen <= 22.0 && 0.15 <= c.jitter <= 2.5
    ensures 0.0 <= c.mistAlpha <= 0.16 && -25.0 <= c.windDrift <= 25.0
    ensures ClampUnit(pulseBoost) == 0.0 ==> c.spawnRate == Lerp(2.0, 70.0, pow(c.m)) && c.baseSpeed == Lerp(80.0, 520.0, c.m)
  {
    var m := ClampUnit(params.m);
    var u := ClampUnit(params.u);
    var windNorm := ClampUnit((ClampUnit(params.posteriorMean) - ClampUnit(params.priorMean)) * 2.0 + 0.5);
    var spawnRate := Lerp(2.0, 70.0, pow(m));
    var baseSpeed := Lerp(80.0, 520.0, m);
    var boost := ClampUnit(pulseBoost);
    var rate := if boost > 0.0 then Boosted(spawnRate, 0.75, boost) else spawnRate;
    var speed := if boost > 0.0 then Boosted(baseSpeed, 0.5, boost) else baseSpeed;
    assert spawnRate * 1.75 <= 70.0 * 1.75 && baseSpeed * 1.5 <= 520.0 * 1.5;
    Config(m, u, rate, speed, Lerp(6.0, 22.0, m), Lerp(0.15, 2.5, u), Lerp(0.0, 0.16, u), Lerp(-25.0, 25.0, windNorm))
  }

  // ------------------------------------------------------------------- pulse

  datatype PulseState = PulseState(startedAt: real, durationMs: real, strength: real)

  datatype PulseKind = Strong | Replay | Testimony | Other

  /** pulse's strength: the evidence level, raised by a quarter for a strong pulse, or floored for a replay or a testimony. */
  function PulseStrength(kind: PulseKind, e: real): (s: real)
    ensures InUnit(s)
    ensures kind == Replay ==> s >= 0.35
    ensures kind == Testimony ==> s >= 0.2
    ensures kind == Other ==> s == ClampUnit(e)
  {
    var base := ClampUnit(e);
    match kind
    case Strong => ClampUnit(base * 1.25)
    case Replay => ClampUnit(Max(base, 0.35))
    case Testimony => ClampUnit(Max(base, 0.2))
    case Other => ClampUnit(base)
  }

  /** `clampRange(Number(opts.pulseMs) || 320, 250, 450)`. */
  function PulseDuration(pulseMs: Num): (d: real)
    ensures 250.0 <= d <= 450.0
    ensures !Truthy(pulseMs) ==> d == DefaultPulseMs
    ensures pulseMs.Finite? && 250.0 <= pulseMs.value <= 450.0 ==> d == pulseMs.value
  {
    match OrDefault(pulseMs, DefaultPulseMs)
    case Finite(v) => ClampRange(v, 250.0, 450.0)
    case Infinity(positive) => if positive then 450.0 else 250.0
    case NaN => DefaultPulseMs
  }

  /** A pulse that has run its course or never had strength gives no boost. */
  predicate PulseOver(p: PulseState, now: real) {
    p.strength <= 0.0 || p.durationMs <= 0.0 || now - p.startedAt >= p.durationMs
  }

  /** currentPulseBoost: strength times the square of the remaining fraction of the pulse. */
  function PulseBoost(p: PulseState, now: real): real {
    if PulseOver(p, now) then 0.0
    else
      var decay := 1.0 - (now - p.startedAt) / p.durationMs;
      p.strength * decay * decay
  }

  /** The pulse after currentPulseBoost: an elapsed pulse has its strength reset to 0. */
  function PulseAfter(p: PulseState, now: real): (q: PulseState)
    ensures q.startedAt == p.startedAt && q.durationMs == p.durationMs
  {
    if p.strength > 0.0 && p.durationMs > 0.0 && now - p.startedAt >= p.durationMs then p.(strength := 0.0) else p
  }

  /** While a pulse runs (and the clock has not gone back) its boost lies between 0 and its strength. */
  lemma PulseBoostBounds(p: PulseState, now: real)
    requires p.strength >= 0.0 && now >= p.startedAt
    ensures 0.0 <= PulseBoost(p, now) <= p.strength
  {
    if !PulseOver(p, now) {
      var f := (now - p.startedAt) / p.durationMs;
      DivideBelowOne(now - p.startedAt, p.durationMs);
      var decay := 1.0 - f;
      ScaleUnitBounds(p.strength, decay);
      ScaleUnitBounds(p.strength * decay, decay);
    }
  }

  lemma DivideBelowOne(a: real, d: real)
    requires 0.0 <= a < d
    ensures 0.0 <= a / d < 1.0
  {
    assert a / d < d / d;
  }

  /** After a pulse's duration the boost is 0 and the strength is cleared. */
  lemma PulseExpires(p: PulseState, now: real)
    requires p.durationMs > 0.0 && now - p.startedAt >= p.durationMs
    ensures PulseBoost(p, now) == 0.0 && PulseAfter(p, now).strength <= 0.0
  {
  }

  // ------------------------------------------------------------------- drops

  datatype Drop = Drop(
    id: nat, x: real, y: real, len: real, speed: real, drift: real,
    targetLen: real, opacity: real, strokeW: real, tilt: real)

  /** The eight uniform draws in [0, 1) createDrop takes, in call order. */
  datatype DropDraws = DropDraws(
    speed: real, len: real, windShare: real, driftJitter: real,
    x: real, y: real, opacity: real, stroke: real)

  /** randomBetween(lo, hi) for a draw r. */
  function Between(lo: real, hi: real, r: real): real {
    lo + r * (hi - lo)
  }

  /** A drop's tilt: its drift over 180, held inside [-0.42, 0.42]. */
  function Tilt(drift: real): (t: real)
    ensures -0.42 <= t <= 0.42
  {
    ClampRange(drift / 180.0, -0.42, 0.42)
  }

  function DropSpeed(c: Config, jitterScale: real, r: real): (s: real)
    ensures s >= 40.0
  {
    Max(40.0, c.baseSpeed * (1.0 + Between(-0.4, 0.4, r) * jitterScale))
  }

  function DropLength(c: Config, jitterScale: real, r: real): (l: real)
    ensures l >= 4.0
  {
    Max(4.0, c.streakLen * (1.0 + Between(-0.3, 0.3, r) * jitterScale))
  }

  function DropDrift(c: Config, jitterScale: real, windShare: real, jitter: real): real {
    c.windDrift * (0.55 + windShare * 0.35) + Between(-10.0, 10.0, jitter) * jitterScale
  }

  /**
   * createDrop: a new drop with the given id, its speed at least 40, its
   * length at least 4, its opacity and stroke width clamped, its tilt
   * following its drift; it starts above the view when `fromTop`, anywhere
   * in it otherwise.
   */
  function CreateDrop(c: Config, fromTop: bool, id: nat, width: real, height: real, strokeBase: real, r: DropDraws): (d: Drop)
    ensures d.id == id && d.speed >= 40.0 && d.len >= 4.0 && d.targetLen == c.streakLen
    ensures 0.08 <= d.opacity <= 0.88 && 0.7 <= d.strokeW <= 2.0 && -0.42 <= d.tilt <= 0.42
  {
    var jitterScale := c.jitter / 2.5;
    var drift := DropDrift(c, jitterScale, r.windShare, r.driftJitter);
    Drop(id,
      Between(-12.0, width + 12.0, r.x),
      if fromTop then Between(-height * 0.35, -6.0, r.y) else Between(0.0, height, r.y),
      DropLength(c, jitterScale, r.len),
      DropSpeed(c, jitterScale, r.speed),
      drift,
      c.streakLen,
      ClampRange(0.12 + 0.5 * c.m + r.opacity * 0.22, 0.08, 0.88),
      ClampRange(strokeBase * (0.7 + r.stroke * 0.65), 0.7, 2.0),
      Tilt(drift))
  }

  /** A drop moved by `distance` along one axis. */
  function Moved(position: real, rate: real, dt: real): real {
    position + rate * dt
  }

  /**
   * One frame of a drop's motion: drift and length ease toward the frame's
   * wind and streak length, the tilt follows the drift, and the drop moves
   * by drift and speed times the frame time.
   */
  function Advance(d: Drop, c: Config, dt: real): (a: Drop)
    ensures a.id == d.id && a.speed == d.speed && a.opacity == d.opacity && a.strokeW == d.strokeW
    ensures -0.42 <= a.tilt <= 0.42
  {
    var drift := d.drift + (c.windDrift - d.drift) * 0.04;
    var len := d.len + (c.streakLen - d.len) * 0.08;
    d.(drift := drift, len := len, tilt := Tilt(drift), x := Moved(d.x, drift, dt), y := Moved(d.y, d.speed, dt))
  }

  /** A drop stays while it has not fallen below the view and is within 28 of either side. */
  predicate InView(d: Drop, width: real, height: real) {
    d.y <= height + d.len + 8.0 && d.x >= -28.0 && d.x <= width + 28.0
  }

  /** The survivors of the first n drops after one frame, in their original order. */
  function Survivors(drops: seq<Drop>, c: Config, dt: real, width: real, height: real, n: nat): (r: seq<Drop>)
    requires n <= |drops|
    ensures |r| <= n
  {
    if n == 0 then []
    else
      var a := Advance(drops[n - 1], c, dt);
      Survivors(drops, c, dt, width, height, n - 1) + (if InView(a, width, height) then [a] else [])
  }

  /** Drop ids strictly increase along the list (d3 keys the drops by id). */
  predicate IdsIncreasing(drops: seq<Drop>) {
    forall i, j :: 0 <= i < j < |drops| ==> drops[i].id < drops[j].id
  }

  predicate IdsAtMost(drops: seq<Drop>, bound: nat) {
    forall i :: 0 <= i < |drops| ==> drops[i].id <= bound
  }

  predicate IdsAbove(drops: seq<Drop>, bound: nat) {
    forall i :: 0 <= i < |drops| ==> drops[i].id > bound
  }

  /** The drops carry the ids first + 1, first + 2, ... in order. */
  predicate IdsFrom(drops: seq<Drop>, first: nat) {
    forall i :: 0 <= i < |drops| ==> drops[i].id == first + i + 1
  }

  predicate AllInView(drops: seq<Drop>, width: real, height: real) {
    forall i :: 0 <= i < |drops| ==> InView(drops[i], width, height)
  }

  predicate AllStill(drops: seq<Drop>) {
    forall i :: 0 <= i < |drops| ==> drops[i].speed == 0.0
  }

  /** Each of `later` is the advanced form of one of the first n drops. */
  predicate AdvancedFrom(later: seq<Drop>, drops: seq<Drop>, n: nat, c: Config, dt: real)
    requires n <= |drops|
  {
    forall i :: 0 <= i < |later| ==> exists k :: 0 <= k < n && later[i] == Advance(drops[k], c, dt)
  }

  /** Every survivor is in view. */
  lemma {:induction false} SurvivorsInView(drops: seq<Drop>, c: Config, dt: real, width: real, height: real, n: nat)
    requires n <= |drops|
    ensures AllInView(Survivors(drops, c, dt, width, height, n), width, height)
  {
    if n > 0 {
      SurvivorsInView(drops, c, dt, width, height, n - 1);
      var prev := Survivors(drops, c, dt, width, height, n - 1);
      var a := Advance(drops[n - 1], c, dt);
      var r := Survivors(drops, c, dt, width, height, n);
      assert r == prev + (if InView(a, width, height) then [a] else []);
      assert forall i :: 0 <= i < |prev| ==> r[i] == prev[i];
    }
  }

  /** Every survivor is the advanced form of one of the drops. */
  lemma {:induction false} SurvivorsAdvanced(drops: seq<Drop>, c: Config, dt: real, width: real, height: real, n: nat)
    requires n <= |drops|
    ensures AdvancedFrom(Survivors(drops, c, dt, width, height, n), drops, n, c, dt)
  {
    if n > 0 {
      SurvivorsAdvanced(drops, c, dt, width, height, n - 1);
      var prev := Survivors(drops, c, dt, width, height, n - 1);
      var a := Advance(drops[n - 1], c, dt);
      var r := Survivors(drops, c, dt, width, height, n);
      assert r == prev + (if InView(a, width, height) then [a] else []);
      forall i | 0 <= i < |r|
        ensures exists k :: 0 <= k < n && r[i] == Advance(drops[k], c, dt)
      {
        if i < |prev| {
          var k :| 0 <= k < n - 1 && prev[i] == Advance(drops[k], c, dt);
          assert r[i] == Advance(drops[k], c, dt);
        } else {
          assert r[i] == Advance(drops[n - 1], c, dt);
        }
      }
    }
  }

  /** The survivors keep the drops' id order, and none has an id above the last of the first n drops. */
  lemma {:induction false} SurvivorsIds(drops: seq<Drop>, c: Config, dt: real, width: real, height: real, n: nat)
    requires n <= |drops| && IdsIncreasing(drops)
    ensures IdsIncreasing(Survivors(drops, c, dt, width, height, n))
    ensures n > 0 ==> IdsAtMost(Survivors(drops, c, dt, width, height, n), drops[n - 1].id)
  {
    if n > 0 {
      SurvivorsIds(drops, c, dt, width, height, n - 1);
      var prev := Survivors(drops, c, dt, width, height, n - 1);
      var r := Survivors(drops, c, dt, width, height, n);
      if n > 1 {
        assert drops[n - 2].id < drops[n - 1].id;
      } else {
        assert prev == [];
      }
      assert forall i :: 0 <= i < |prev| ==> prev[i].id < drops[n - 1].id;
      assert forall i :: 0 <= i < |prev| ==> r[i] == prev[i];
    }
  }

  /**
   * The drops one spawn loop adds: n drops with ids first + 1 .. first + n,
   * each created with the draws of its id; falling drops start above the
   * view, still drops (renderStaticSnapshot) anywhere in it with speed 0.
   */
  function NewDrops(c: Config, still: bool, first: nat, n: nat, width: real, height: real, strokeBase: real, draws: nat -> DropDraws): (r: seq<Drop>)
    ensures |r| == n
  {
    if n == 0 then []
    else
      var d := CreateDrop(c, !still, first + n, width, height, strokeBase, draws(first + n));
      NewDrops(c, still, first, n - 1, width, height, strokeBase, draws) + [if still then d.(speed := 0.0) else d]
  }

  /** New drops carry the ids first + 1 .. first + n in order, and still drops do not move. */
  lemma {:induction false} NewDropsIds(c: Config, still: bool, first: nat, n: nat, width: real, height: real, strokeBase: real, draws: nat -> DropDraws)
    ensures IdsFrom(NewDrops(c, still, first, n, width, height, strokeBase, draws), first)
    ensures still ==> AllStill(NewDrops(c, still, first, n, width, height, strokeBase, draws))
  {
    if n > 0 {
      NewDropsIds(c, still, first, n - 1, width, height, strokeBase, draws);
      var prev := NewDrops(c, still, first, n - 1, width, height, strokeBase, draws);
      var r := NewDrops(c, still, first, n, width, height, strokeBase, draws);
      var d := CreateDrop(c, !still, first + n, width, height, strokeBase, draws(first + n));
      assert r == prev + [if still then d.(speed := 0.0) else d];
      assert forall i :: 0 <= i < n - 1 ==> r[i] == prev[i];
    }
  }

  /** Appending new drops after drops whose ids are at most `first` keeps the ids increasing and bounded. */
  lemma AppendNewDrops(drops: seq<Drop>, c: Config, still: bool, first: nat, n: nat, width: real, height: real, strokeBase: real, draws: nat -> DropDraws)
    requires IdsIncreasing(drops) && IdsAtMost(drops, first)
    ensures IdsIncreasing(drops + NewDrops(c, still, first, n, width, height, strokeBase, draws))
    ensures IdsAtMost(drops + NewDrops(c, still, first, n, width, height, strokeBase, draws), first + n)
  {
    NewDropsIds(c, still, first, n, width, height, strokeBase, draws);
  }

  // ------------------------------------------------------------------ spawning

  /** The frame time: the elapsed milliseconds in seconds, clamped to [1/240, 0.08]. */
  function FrameSeconds(now: real, lastFrameAt: real): (dt: real)
    ensures MinFrameSeconds <= dt <= MaxFrameSeconds
  {
    ClampRange((now - lastFrameAt) / 1000.0, MinFrameSeconds, MaxFrameSeconds)
  }

  /** The spawn budget a frame adds: rate times frame time. */
  function Gain(rate: real, dt: real): (g: real)
    requires rate >= 0.0 && dt >= 0.0
    ensures g >= 0.0
  {
    MulNonneg(rate, dt);
    rate * dt
  }

  /** floor(acc + gain), the whole drops the accumulator now holds. */
  function Whole(acc: real): int {
    acc.Floor
  }

  /** The accumulator after a frame: the whole part is taken out when positive. */
  function Remainder(acc: real): (r: real)
    ensures acc >= 0.0 ==> 0.0 <= r < 1.0
    ensures (acc - r).Floor as real == acc - r
  {
    if Whole(acc) > 0 then acc - Whole(acc) as real else acc
  }

  /** The whole drops a frame may spawn: the accumulator's whole part, at most 20. */
  function Budget(acc: real): (n: int)
    ensures n <= MaxSpawnPerFrame && n <= Whole(acc)
    ensures 0 <= Whole(acc) <= MaxSpawnPerFrame ==> n == Whole(acc)
  {
    if Whole(acc) < MaxSpawnPerFrame then Whole(acc) else MaxSpawnPerFrame
  }

  /** How many of `count` drops the spawn loop adds to `have` drops before reaching maxDrops. */
  function Room(count: int, have: nat, maxDrops: nat): (n: nat)
    ensures n <= count || n == 0
    ensures have + n <= (if have >= maxDrops then have else maxDrops)
    ensures count > 0 && have + count <= maxDrops ==> n == count
  {
    if count <= 0 || have >= maxDrops then 0
    else if count <= maxDrops - have then count as nat
    else maxDrops - have
  }

  /** The accumulator stays a fraction in [0, 1): a frame adds to it and takes its whole part out. */
  lemma AccumulatorStaysFractional(acc: real, gain: real)
    requires 0.0 <= acc < 1.0 && gain >= 0.0
    ensures 0.0 <= Remainder(acc + gain) < 1.0
  {
  }

  /** Spawning beyond the cap or the room left loses that part of the budget. */
  lemma CappedBudgetIsDropped(acc: real)
    requires acc >= 25.0
    ensures Room(Budget(acc), 0, DefaultMaxDrops) == 20 && Remainder(acc) < 1.0
  {
  }

  /** tickFrame's spawn loop over the drop list, adding at most `count` drops while room remains. */
  method SpawnDrops(drops: seq<Drop>, dropId: nat, count: int, maxDrops: nat, c: Config,
                    width: real, height: real, strokeBase: real, draws: nat -> DropDraws)
    returns (next: seq<Drop>, nextId: nat)
    ensures var n := Room(count, |drops|, maxDrops);
      next == drops + NewDrops(c, false, dropId, n, width, height, strokeBase, draws) && nextId == dropId + n
  {
    next, nextId := drops, dropId;
    var left := count;
    ghost var n := 0;
    while left > 0 && |next| < maxDrops
      invariant n >= 0 && left == count - n && nextId == dropId + n && |next| == |drops| + n
      invariant next == drops + NewDrops(c, false, dropId, n, width, height, strokeBase, draws)
      invariant n > 0 ==> n <= count && |next| <= maxDrops
      decreases left
    {
      nextId := nextId + 1;
      next := next + [CreateDrop(c, true, nextId, width, height, strokeBase, draws(nextId))];
      left := left - 1;
      n := n + 1;
    }
  }

  /** tickFrame's survivor loop: advance every drop and keep those still in view. */
  method AdvanceDrops(drops: seq<Drop>, c: Config, dt: real, width: real, height: real) returns (survivors: seq<Drop>)
    ensures survivors == Survivors(drops, c, dt, width, height, |drops|)
  {
    survivors := [];
    var i := 0;
    while i < |drops|
      invariant 0 <= i <= |drops|
      invariant survivors == Survivors(drops, c, dt, width, height, i)
    {
      var d := Advance(drops[i], c, dt);
      if InView(d, width, height) {
        survivors := survivors + [d];
      }
      i := i + 1;
    }
  }

  /** renderStaticSnapshot's loop: `count` still drops. */
  method StillDrops(count: int, dropId: nat, c: Config, width: real, height: real, strokeBase: real, draws: nat -> DropDraws)
    returns (drops: seq<Drop>, nextId: nat)
    ensures var n := if count > 0 then count as nat else 0;
      drops == NewDrops(c, true, dropId, n, width, height, strokeBase, draws) && nextId == dropId + n
  {
    drops, nextId := [], dropId;
    var i := 0;
    while i < count
      invariant 0 <= i <= (if count > 0 then count else 0) && nextId == dropId + i
      invariant drops == NewDrops(c, true, dropId, i, width, height, strokeBase, draws)
    {
      nextId := nextId + 1;
      var d := CreateDrop(c, false, nextId, width, height, strokeBase, draws(nextId));
      drops := drops + [d.(speed := 0.0)];
      i := i + 1;
    }
  }

  /** `Math.round(10 + m * 52)`: between 10 and 62 still drops. */
  function StaticCount(m: real): (n: int)
    requires InUnit(m)
    ensures 10 <= n <= 62
  {
    ScaleUnitBounds(52.0, m);
    Round(10.0 + m * 52.0)
  }

  /**
   * measureViewport: a width that is not positive falls back to panelMin, a
   * height that is not positive to that width; both are then at least 1.
   */
  function Viewport(rectWidth: real, rectHeight: real, panelMin: real): (wh: (real, real))
    ensures wh.0 >= 1.0 && wh.1 >= 1.0
    ensures rectWidth >= 1.0 ==> wh.0 == rectWidth
    ensures rectHeight >= 1.0 ==> wh.1 == rectHeight
    ensures rectHeight <= 0.0 ==> wh.1 == wh.0
  {
    var w := if rectWidth > 0.0 then rectWidth else panelMin;
    var h := if rectHeight > 0.0 then rectHeight else w;
    (Max(1.0, w), Max(1.0, h))
  }

  // --------------------------------------------------------------- the preview

  /** The options init merges over DEFAULTS that the model reads. */
  datatype Options = Options(maxDrops: nat, smoothing: real, strokeBase: real, pulseMs: Num, panelMin: real)

  const Defaults: Options := Options(DefaultMaxDrops, DefaultSmoothing, DefaultStrokeBase, Finite(DefaultPulseMs), DefaultPanelMin)

  /** The closure variables of one preview. */
  datatype State = State(
    reducedMotion: bool, destroyed: bool, pageVisible: bool, timerRunning: bool,
    width: real, height: real, lastFrameAt: real,
    dropId: nat, drops: seq<Drop>, spawnAccumulator: real,
    targetParams: Params, currentParams: Params, pulse: PulseState)

  /** The frame timer runs only for a live preview in full motion on a visible page. */
  predicate TimerAllowed(s: State) {
    s.timerRunning ==> !s.destroyed && !s.reducedMotion && s.pageVisible
  }

  /**
   * What holds of the state apart from the timer: the spawn accumulator is a
   * fraction, drop ids increase and none exceeds the last id handed out, the
   * targets are probabilities and so are the smoothed values when the
   * smoothing factor is a fraction, the pulse strength is a fraction, and the
   * viewport is at least 1 by 1.
   */
  predicate Steady(o: Options, s: State) {
    0.0 <= s.spawnAccumulator < 1.0
    && IdsIncreasing(s.drops) && IdsAtMost(s.drops, s.dropId)
    && ParamsInUnit(s.targetParams)
    && (InUnit(o.smoothing) ==> ParamsInUnit(s.currentParams))
    && InUnit(s.pulse.strength)
    && s.width >= 1.0 && s.height >= 1.0
  }

  predicate Consistent(o: Options, s: State) {
    Steady(o, s) && TimerAllowed(s)
  }

  /** init: measure, start in full motion with no drops, then refresh the timer. */
  function Initial(o: Options, pageVisible: bool, rectWidth: real, rectHeight: real, now: real): State {
    var wh := Viewport(rectWidth, rectHeight, o.panelMin);
    Refreshed(State(false, false, pageVisible, false, wh.0, wh.1, now, 0, [], 0.0, InitialParams, InitialParams,
                    PulseState(0.0, if o.pulseMs.Finite? then o.pulseMs.value else 0.0, 0.0)), now)
  }

  /** startTimer. */
  function Started(s: State, now: real): State {
    if s.destroyed || s.reducedMotion || !s.pageVisible || s.timerRunning then s
    else s.(timerRunning := true, lastFrameAt := now)
  }

  /** stopTimer. */
  function Stopped(s: State): State {
    s.(timerRunning := false)
  }

  /** refreshTimerState. */
  function Refreshed(s: State, now: real): State {
    if s.destroyed then s
    else if s.reducedMotion || !s.pageVisible then Stopped(s)
    else Started(s, now)
  }

  /** renderStaticSnapshot: still drops for the targets, no pulse, an empty accumulator. */
  function Snapshot(o: Options, s: State, pow: real -> real, draws: nat -> DropDraws): State {
    var n := StaticCount(ClampUnit(s.targetParams.m)) as nat;
    var c := ComputeDerived(s.targetParams, 0.0, pow);
    s.(drops := NewDrops(c, true, s.dropId, n, s.width, s.height, o.strokeBase, draws),
       dropId := s.dropId + n, spawnAccumulator := 0.0)
  }

  /** The visibilitychange handler. */
  function VisibilitySet(s: State, visible: bool, now: real): State {
    Refreshed(s.(pageVisible := visible), now)
  }

  /** setReducedMotion. */
  function ReducedMotionSet(o: Options, s: State, next: bool, now: real, pow: real -> real, draws: nat -> DropDraws): State {
    if next then Snapshot(o, Stopped(s.(reducedMotion := true)), pow, draws)
    else Refreshed(s.(reducedMotion := false), now)
  }

  /** setTargetParams. */
  function TargetsSet(o: Options, s: State, next: Option<ParamsInput>, pow: real -> real, draws: nat -> DropDraws): State {
    var t := s.(targetParams := TargetFrom(next));
    if s.reducedMotion then Snapshot(o, t, pow, draws) else t
  }

  /** pulse. */
  function Pulsed(o: Options, s: State, kind: PulseKind, now: real): State {
    if s.reducedMotion then s
    else s.(pulse := PulseState(now, PulseDuration(o.pulseMs), PulseStrength(kind, s.targetParams.e)))
  }

  /** handleResize. */
  function Resized(o: Options, s: State, rectWidth: real, rectHeight: real, pow: real -> real, draws: nat -> DropDraws): State {
    var wh := Viewport(rectWidth, rectHeight, o.panelMin);
    var r := s.(width := wh.0, height := wh.1);
    if s.reducedMotion then Snapshot(o, r, pow, draws) else r
  }

  /** destroy. */
  function Destroyed(s: State): State {
    if s.destroyed then s else Stopped(s.(destroyed := true)).(drops := [])
  }

  /** The configuration a frame at `now` runs with. */
  function FrameConfig(o: Options, s: State, now: real, pow: real -> real): Config {
    ComputeDerived(Smoothed(s.currentParams, s.targetParams, o.smoothing), PulseBoost(s.pulse, now), pow)
  }

  /**
   * The spawning half of a frame run with configuration c for dt seconds:
   * the gain joins the accumulator, its whole part (at most 20, and only up
   * to maxDrops drops) becomes new falling drops, and the drops advance.
   */
  function Spawned(o: Options, s: State, c: Config, dt: real, draws: nat -> DropDraws): (r: State)
    requires c.spawnRate >= 0.0 && dt >= 0.0
    ensures r == s.(spawnAccumulator := r.spawnAccumulator, dropId := r.dropId, drops := r.drops)
  {
    var acc := s.spawnAccumulator + Gain(c.spawnRate, dt);
    var n := Room(Budget(acc), |s.drops|, o.maxDrops);
    s.(spawnAccumulator := Remainder(acc), dropId := s.dropId + n,
       drops := AfterFrame(s.drops, s.dropId, n, c, dt, s.width, s.height, o.strokeBase, draws))
  }

  /** tickFrame. */
  function Ticked(o: Options, s: State, now: real, pow: real -> real, draws: nat -> DropDraws): State {
    if s.destroyed || s.reducedMotion then s
    else
      Spawned(o, s.(lastFrameAt := now, currentParams := Smoothed(s.currentParams, s.targetParams, o.smoothing),
                    pulse := PulseAfter(s.pulse, now)),
              FrameConfig(o, s, now, pow), FrameSeconds(now, s.lastFrameAt), draws)
  }

  // ------------------------------------------------------ what the operations keep

  /** The timer runs after a refresh exactly when the preview is live, in full motion and visible. */
  lemma RefreshedTimer(o: Options, s: State, now: real)
    requires Steady(o, s) && (s.destroyed ==> !s.timerRunning)
    ensures Consistent(o, Refreshed(s, now))
    ensures !s.destroyed ==> Refreshed(s, now).timerRunning == (!s.reducedMotion && s.pageVisible)
    ensures Refreshed(s, now).drops == s.drops && Refreshed(s, now).targetParams == s.targetParams
  {
  }

  /** startTimer does nothing the second time. */
  lemma StartedIdempotent(s: State, now: real, later: real)
    ensures Started(Started(s, now), later) == Started(s, now)
  {
  }

  /** A snapshot holds 10 to 62 still drops with fresh increasing ids and an empty accumulator. */
  lemma SnapshotProperties(o: Options, s: State, pow: real -> real, draws: nat -> DropDraws)
    requires Steady(o, s)
    ensures var r := Snapshot(o, s, pow, draws);
      Steady(o, r) && 10 <= |r.drops| <= 62 && r.spawnAccumulator == 0.0
      && AllStill(r.drops) && IdsAbove(r.drops, s.dropId)
      && r.timerRunning == s.timerRunning && r.targetParams == s.targetParams
  {
    var n := StaticCount(ClampUnit(s.targetParams.m)) as nat;
    var c := ComputeDerived(s.targetParams, 0.0, pow);
    NewDropsIds(c, true, s.dropId, n, s.width, s.height, o.strokeBase, draws);
    AppendNewDrops([], c, true, s.dropId, n, s.width, s.height, o.strokeBase, draws);
    assert [] + NewDrops(c, true, s.dropId, n, s.width, s.height, o.strokeBase, draws)
        == NewDrops(c, true, s.dropId, n, s.width, s.height, o.strokeBase, draws);
  }

  /** Entering reduced motion stops the timer and leaves a still snapshot; leaving it restarts the timer on a visible page. */
  lemma ReducedMotionSetProperties(o: Options, s: State, next: bool, now: real, pow: real -> real, draws: nat -> DropDraws)
    requires Consistent(o, s)
    ensures var r := ReducedMotionSet(o, s, next, now, pow, draws);
      Consistent(o, r) && r.reducedMotion == next
      && (next ==> !r.timerRunning && 10 <= |r.drops| <= 62 && r.spawnAccumulator == 0.0)
      && (!next && !s.destroyed ==> r.timerRunning == s.pageVisible && r.drops == s.drops)
  {
    if next {
      SnapshotProperties(o, Stopped(s.(reducedMotion := true)), pow, draws);
    } else {
      RefreshedTimer(o, s.(reducedMotion := false), now);
    }
  }

  /** Hiding the page stops the timer; showing it restarts the timer when the preview is live and in full motion. */
  lemma VisibilitySetProperties(o: Options, s: State, visible: bool, now: real)
    requires Consistent(o, s)
    ensures var r := VisibilitySet(s, visible, now);
      Consistent(o, r) && r.pageVisible == visible && r.drops == s.drops
      && (!s.destroyed ==> r.timerRunning == (!s.reducedMotion && visible))
  {
    RefreshedTimer(o, s.(pageVisible := visible), now);
  }

  /** setTargetParams keeps every target a probability, and redraws the snapshot only in reduced motion. */
  lemma TargetsSetProperties(o: Options, s: State, next: Option<ParamsInput>, pow: real -> real, draws: nat -> DropDraws)
    requires Consistent(o, s)
    ensures var r := TargetsSet(o, s, next, pow, draws);
      Consistent(o, r) && r.targetParams == TargetFrom(next) && ParamsInUnit(r.targetParams)
      && r.currentParams == s.currentParams && r.timerRunning == s.timerRunning
      && (!s.reducedMotion ==> r.drops == s.drops)
      && (s.reducedMotion ==> 10 <= |r.drops| <= 62)
  {
    if s.reducedMotion {
      SnapshotProperties(o, s.(targetParams := TargetFrom(next)), pow, draws);
    }
  }

  /** A pulse lasts 250 to 450 ms with a fractional strength; reduced motion ignores pulses. */
  lemma PulsedProperties(o: Options, s: State, kind: PulseKind, now: real)
    requires Consistent(o, s)
    ensures var r := Pulsed(o, s, kind, now);
      Consistent(o, r) && r.drops == s.drops
      && (s.reducedMotion ==> r == s)
      && (!s.reducedMotion ==>
            r.pulse.startedAt == now && 250.0 <= r.pulse.durationMs <= 450.0
            && r.pulse.strength == PulseStrength(kind, s.targetParams.e))
  {
  }

  /** Resizing keeps a viewport of at least 1 by 1 and redraws the snapshot only in reduced motion. */
  lemma ResizedProperties(o: Options, s: State, rectWidth: real, rectHeight: real, pow: real -> real, draws: nat -> DropDraws)
    requires Consistent(o, s)
    ensures var r := Resized(o, s, rectWidth, rectHeight, pow, draws);
      Consistent(o, r) && (r.width, r.height) == Viewport(rectWidth, rectHeight, o.panelMin)
      && (!s.reducedMotion ==> r.drops == s.drops)
  {
    if s.reducedMotion {
      var wh := Viewport(rectWidth, rectHeight, o.panelMin);
      SnapshotProperties(o, s.(width := wh.0, height := wh.1), pow, draws);
    }
  }

  /** destroy stops the timer and empties the drops once; a second destroy does nothing. */
  lemma DestroyedProperties(o: Options, s: State)
    requires Consistent(o, s)
    ensures Consistent(o, Destroyed(s)) && Destroyed(s).destroyed && !Destroyed(s).timerRunning
    ensures !s.destroyed ==> Destroyed(s).drops == []
    ensures Destroyed(Destroyed(s)) == Destroyed(s)
  {
  }

  /** A frame does nothing once destroyed or in reduced motion. */
  lemma TickedInactive(o: Options, s: State, now: real, pow: real -> real, draws: nat -> DropDraws)
    requires s.destroyed || s.reducedMotion
    ensures Ticked(o, s, now, pow, draws) == s
  {
  }

  /** The drops after a frame: n falling drops are appended, then every drop advances and those out of view go. */
  function AfterFrame(drops: seq<Drop>, dropId: nat, n: nat, c: Config, dt: real, width: real, height: real,
                      strokeBase: real, draws: nat -> DropDraws): seq<Drop> {
    var spawned := drops + NewDrops(c, false, dropId, n, width, height, strokeBase, draws);
    Survivors(spawned, c, dt, width, height, |spawned|)
  }

  /** After a frame every drop is in view, ids still increase up to the last one handed out, and at most n drops were added. */
  lemma AfterFrameProperties(drops: seq<Drop>, dropId: nat, n: nat, c: Config, dt: real, width: real, height: real,
                             strokeBase: real, draws: nat -> DropDraws)
    requires IdsIncreasing(drops) && IdsAtMost(drops, dropId)
    ensures AllInView(AfterFrame(drops, dropId, n, c, dt, width, height, strokeBase, draws), width, height)
    ensures IdsIncreasing(AfterFrame(drops, dropId, n, c, dt, width, height, strokeBase, draws))
    ensures IdsAtMost(AfterFrame(drops, dropId, n, c, dt, width, height, strokeBase, draws), dropId + n)
    ensures |AfterFrame(drops, dropId, n, c, dt, width, height, strokeBase, draws)| <= |drops| + n
  {
    var spawned := drops + NewDrops(c, false, dropId, n, width, height, strokeBase, draws);
    AppendNewDrops(drops, c, false, dropId, n, width, height, strokeBase, draws);
    SurvivorsInView(spawned, c, dt, width, height, |spawned|);
    SurvivorsIds(spawned, c, dt, width, height, |spawned|);
    if |spawned| > 0 {
      assert spawned[|spawned| - 1].id <= dropId + n;
    }
  }

  /**
   * The spawning half of a frame keeps the state steady; afterwards every
   * drop is in view, at most 20 new ids were handed out, and the drops number
   * no more than before or maxDrops, whichever is larger.
   */
  lemma SpawnedProperties(o: Options, s: State, c: Config, dt: real, draws: nat -> DropDraws)
    requires Steady(o, s) && c.spawnRate >= 0.0 && dt >= 0.0
    ensures Steady(o, Spawned(o, s, c, dt, draws))
    ensures AllInView(Spawned(o, s, c, dt, draws).drops, s.width, s.height)
    ensures s.dropId <= Spawned(o, s, c, dt, draws).dropId <= s.dropId + 20
    ensures |Spawned(o, s, c, dt, draws).drops| <= (if |s.drops| >= o.maxDrops then |s.drops| else o.maxDrops)
  {
    var acc := s.spawnAccumulator + Gain(c.spawnRate, dt);
    var n := Room(Budget(acc), |s.drops|, o.maxDrops);
    var r := Spawned(o, s, c, dt, draws);
    assert r == s.(spawnAccumulator := Remainder(acc), dropId := s.dropId + n,
                   drops := AfterFrame(s.drops, s.dropId, n, c, dt, s.width, s.height, o.strokeBase, draws));
    AccumulatorStaysFractional(s.spawnAccumulator, Gain(c.spawnRate, dt));
    AfterFrameProperties(s.drops, s.dropId, n, c, dt, s.width, s.height, o.strokeBase, draws);
  }

  /**
   * A frame keeps the state consistent; afterwards every drop is in view, at
   * most 20 new ids were handed out, the drops number no more than before or
   * maxDrops, whichever is larger, and the frame time is recorded.
   */
  lemma TickedProperties(o: Options, s: State, now: real, pow: real -> real, draws: nat -> DropDraws)
    requires Consistent(o, s) && !s.destroyed && !s.reducedMotion
    ensures Consistent(o, Ticked(o, s, now, pow, draws))
    ensures AllInView(Ticked(o, s, now, pow, draws).drops, s.width, s.height)
    ensures s.dropId <= Ticked(o, s, now, pow, draws).dropId <= s.dropId + 20
    ensures |Ticked(o, s, now, pow, draws).drops| <= (if |s.drops| >= o.maxDrops then |s.drops| else o.maxDrops)
    ensures Ticked(o, s, now, pow, draws).lastFrameAt == now
    ensures Ticked(o, s, now, pow, draws).timerRunning == s.timerRunning
  {
    var s1 := s.(lastFrameAt := now, currentParams := Smoothed(s.currentParams, s.targetParams, o.smoothing),
                 pulse := PulseAfter(s.pulse, now));
    assert InUnit(s1.pulse.strength);
    SpawnedProperties(o, s1, FrameConfig(o, s, now, pow), FrameSeconds(now, s.lastFrameAt), draws);
  }

  // --------------------------------------------------------------- the preview

  /** The controller init returns, over its closure state. */
  class Preview {
    const options: Options
    var state: State

    ghost predicate Valid()
      reads this
    {
      Consistent(options, state)
    }

    /** init with a mount element and d3 present. */
    constructor (options: Options, pageVisible: bool, rectWidth: real, rectHeight: real, now: real)
      ensures Valid() && this.options == options
      ensures state == Initial(options, pageVisible, rectWidth, rectHeight, now)
      ensures state.timerRunning == pageVisible && state.drops == []
    {
      this.options := options;
      var wh := Viewport(rectWidth, rectHeight, options.panelMin);
      state := State(false, false, pageVisible, false, wh.0, wh.1, now, 0, [], 0.0, InitialParams, InitialParams,
                     PulseState(0.0, if options.pulseMs.Finite? then options.pulseMs.value else 0.0, 0.0));
      new;
      RefreshTimerState(now);
    }

    method StartTimer(now: real)
      modifies this
      ensures state == Started(old(state), now)
    {
      if state.destroyed || state.reducedMotion || !state.pageVisible || state.timerRunning {
        return;
      }
      state := state.(lastFrameAt := now, timerRunning := true);
    }

    method StopTimer()
      modifies this
      ensures state == Stopped(old(state))
    {
      state := state.(timerRunning := false);
    }

    method RefreshTimerState(now: real)
      modifies this
      ensures state == Refreshed(old(state), now)
    {
      if state.destroyed {
        return;
      }
      if state.reducedMotion || !state.pageVisible {
        StopTimer();
        return;
      }
      StartTimer(now);
    }

    method RenderStaticSnapshot(pow: real -> real, draws: nat -> DropDraws)
      modifies this
      ensures state == Snapshot(options, old(state), pow, draws)
    {
      var count := StaticCount(ClampUnit(state.targetParams.m));
      var config := ComputeDerived(state.targetParams, 0.0, pow);
      var still, nextId := StillDrops(count, state.dropId, config, state.width, state.height, options.strokeBase, draws);
      state := state.(drops := still, dropId := nextId, spawnAccumulator := 0.0);
    }

    method SetPageVisible(visible: bool, now: real)
      requires Valid()
      modifies this
      ensures Valid() && state == VisibilitySet(old(state), visible, now)
    {
      ghost var s0 := state;
      state := state.(pageVisible := visible);
      RefreshTimerState(now);
      VisibilitySetProperties(options, s0, visible, now);
    }

    method SetReducedMotion(next: bool, now: real, pow: real -> real, draws: nat -> DropDraws)
      requires Valid()
      modifies this
      ensures Valid() && state == ReducedMotionSet(options, old(state), next, now, pow, draws)
    {
      ghost var s0 := state;
      state := state.(reducedMotion := next);
      if next {
        StopTimer();
        RenderStaticSnapshot(pow, draws);
      } else {
        RefreshTimerState(now);
      }
      ReducedMotionSetProperties(options, s0, next, now, pow, draws);
    }

    method SetTargetParams(next: Option<ParamsInput>, pow: real -> real, draws: nat -> DropDraws)
      requires Valid()
      modifies this
      ensures Valid() && state == TargetsSet(options, old(state), next, pow, draws)
    {
      ghost var s0 := state;
      state := state.(targetParams := TargetFrom(next));
      if state.reducedMotion {
        RenderStaticSnapshot(pow, draws);
      }
      TargetsSetProperties(options, s0, next, pow, draws);
    }

    method Pulse(kind: PulseKind, now: real)
      requires Valid()
      modifies this
      ensures Valid() && state == Pulsed(options, old(state), kind, now)
    {
      PulsedProperties(options, state, kind, now);
      if state.reducedMotion {
        return;
      }
      state := state.(pulse := PulseState(now, PulseDuration(options.pulseMs), PulseStrength(kind, state.targetParams.e)));
    }

    /** currentPulseBoost: the boost at `now`, clearing the strength of a pulse that has run out. */
    method CurrentPulseBoost(now: real) returns (boost: real)
      modifies this
      ensures boost == PulseBoost(old(state).pulse, now)
      ensures state == old(state).(pulse := PulseAfter(old(state).pulse, now))
    {
      var p := state.pulse;
      if p.strength <= 0.0 || p.durationMs <= 0.0 {
        return 0.0;
      }
      var elapsed := now - p.startedAt;
      if elapsed >= p.durationMs {
        state := state.(pulse := p.(strength := 0.0));
        return 0.0;
      }
      var decay := 1.0 - elapsed / p.durationMs;
      boost := p.strength * decay * decay;
    }

    method TickFrame(now: real, pow: real -> real, draws: nat -> DropDraws)
      requires Valid()
      modifies this
      ensures Valid() && state == Ticked(options, old(state), now, pow, draws)
    {
      if state.destroyed || state.reducedMotion {
        return;
      }
      TickedProperties(options, state, now, pow, draws);
      var s := state;
      var dt := FrameSeconds(now, s.lastFrameAt);
      var params := Smoothed(s.currentParams, s.targetParams, options.smoothing);
      state := state.(lastFrameAt := now, currentParams := params);
      var pulseBoost := CurrentPulseBoost(now);
      var config := ComputeDerived(params, pulseBoost, pow);
      SpawnAndAdvance(config, dt, draws);
    }

    /** The spawn loop and the survivor loop of tickFrame. */
    method SpawnAndAdvance(config: Config, dt: real, draws: nat -> DropDraws)
      requires config.spawnRate >= 0.0 && dt >= 0.0
      modifies this
      ensures state == Spawned(options, old(state), config, dt, draws)
    {
      var s := state;
      var acc := s.spawnAccumulator + Gain(config.spawnRate, dt);
      var spawned, nextId := SpawnDrops(s.drops, s.dropId, Budget(acc), options.maxDrops, config,
                                        s.width, s.height, options.strokeBase, draws);
      var survivors := AdvanceDrops(spawned, config, dt, s.width, s.height);
      state := state.(spawnAccumulator := Remainder(acc), dropId := nextId, drops := survivors);
    }

    method HandleResize(rectWidth: real, rectHeight: real, pow: real -> real, draws: nat -> DropDraws)
      requires Valid()
      modifies this
      ensures Valid() && state == Resized(options, old(state), rectWidth, rectHeight, pow, draws)
    {
      ghost var s0 := state;
      var wh := Viewport(rectWidth, rectHeight, options.panelMin);
      state := state.(width := wh.0, height := wh.1);
      if state.reducedMotion {
        RenderStaticSnapshot(pow, draws);
      }
      ResizedProperties(options, s0, rectWidth, rectHeight, pow, draws);
    }

    method Destroy()
      requires Valid()
      modifies this
      ensures Valid() && state == Destroyed(old(state))
    {
      DestroyedProperties(options, state);
      if state.destroyed {
        return;
      }
      state := state.(destroyed := true);
      StopTimer();
      state := state.(drops := []);
    }
  }
}
