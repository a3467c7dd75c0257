/*
 * The falling-drop simulator of the conditional-probability panel. A drop
 * dropped at horizontal position u stops briefly on the shelf of every event
 * whose interval contains u; its path is cut into segments between those
 * stops, and each animation frame advances it along the current segment.
 *
 * Drops are records; stepping one returns the updated record. The d3 easing
 * curve is a parameter.
 */
module ConditionalDrops {
  import opened Numeric
  import opened ConditionalGeometry

  /** Radius of a drop in pixels; a drop stops this far above a shelf top. */
  const DropRadiusPx: real := 4.0
  /** Time a drop takes to fall the whole plot height. */
  const DropTotalMs: real := 2500.0
  /** Two stops closer than this many pixels are merged. */
  const StopDedupEpsPx: real := 1.0
  /** The shortest segment a drop ever spends time on. */
  const MinSegmentMs: real := 40.0

  datatype Stop = Stop(key: EventKey, yTargetPx: real)

  predicate StopsSorted(s: seq<Stop>) {
    forall i, j :: 0 <= i < j < |s| ==> s[i].yTargetPx <= s[j].yTargetPx
  }

  function StopAt(d: Dims, e: EventKey): Stop {
    Stop(e, Max(0.0, RowTop(d, e) - DropRadiusPx))
  }

  /** The stops pushed by buildDropStops before sorting: rain, testimony, not-rain, each if it contains u. */
  function CandidateStops(u: real, d: Dims, iv: Intervals): (s: seq<Stop>)
    ensures |s| <= 3
    ensures forall i :: 0 <= i < |s| ==> s[i] == StopAt(d, s[i].key)
  {
    (if IsInInterval(u, iv.rain) then [StopAt(d, Rain)] else [])
    + (if IsInInterval(u, iv.testimony) then [StopAt(d, Testimony)] else [])
    + (if IsInInterval(u, iv.notRain) then [StopAt(d, NotRain)] else [])
  }

  lemma CandidateMember(u: real, d: Dims, iv: Intervals, y: Stop)
    requires y in CandidateStops(u, d, iv)
    ensures y == StopAt(d, y.key) && IsInInterval(u, EventInterval(iv, y.key))
  {
  }

  /** A shelf is a candidate stop exactly when its event's interval contains u. */
  lemma CandidateStopsExactly(u: real, d: Dims, iv: Intervals, e: EventKey)
    ensures StopAt(d, e) in CandidateStops(u, d, iv) <==> IsInInterval(u, EventInterval(iv, e))
  {
  }

  /** Insert `x` before the first stop that is not above it, so equal stops keep their order. */
  function InsertStop(x: Stop, s: seq<Stop>): (r: seq<Stop>)
    requires StopsSorted(s)
    ensures |r| == |s| + 1
    ensures r[0] == x || (|s| > 0 && r[0] == s[0])
    ensures StopsSorted(r)
    ensures multiset(r) == multiset(s) + multiset{x}
    decreases |s|
  {
    if |s| == 0 || x.yTargetPx <= s[0].yTargetPx then [x] + s
    else
      var rest := InsertStop(x, s[1..]);
      assert s == [s[0]] + s[1..];
      assert s[0].yTargetPx <= rest[0].yTargetPx;
      [s[0]] + rest
  }

  /** The stable sort by ascending yTargetPx that Array.prototype.sort performs. */
  function SortStops(s: seq<Stop>): (r: seq<Stop>)
    ensures |r| == |s|
    ensures StopsSorted(r)
    ensures multiset(r) == multiset(s)
    decreases |s|
  {
    if |s| == 0 then []
    else
      assert s == [s[0]] + s[1..];
      InsertStop(s[0], SortStops(s[1..]))
  }

  /** Sorting stops that are already in order changes nothing. */
  lemma {:induction false} SortSortedIsIdentity(s: seq<Stop>)
    requires StopsSorted(s)
    ensures SortStops(s) == s
    decreases |s|
  {
    if |s| > 0 {
      assert StopsSorted(s[1..]);
      SortSortedIsIdentity(s[1..]);
    }
  }

  /**
   * What the dedup loop of buildDropStops keeps from `s`: walking left to
   * right, a stop is kept unless it lies within 1 px of the last kept one.
   */
  function Deduped(s: seq<Stop>): seq<Stop>
    decreases |s|
  {
    if |s| == 0 then []
    else
      var kept := Deduped(s[..|s| - 1]);
      var x := s[|s| - 1];
      if |kept| == 0 || Abs(kept[|kept| - 1].yTargetPx - x.yTargetPx) > StopDedupEpsPx then kept + [x]
      else kept
  }

  /** Dedup only drops stops, and never the first one. */
  lemma {:induction false} DedupedKeepsFirst(s: seq<Stop>)
    ensures |Deduped(s)| <= |s|
    ensures forall y :: y in Deduped(s) ==> y in s
    ensures |s| > 0 ==> |Deduped(s)| > 0 && Deduped(s)[0] == s[0]
    decreases |s|
  {
    if |s| > 0 {
      var p := s[..|s| - 1];
      DedupedKeepsFirst(p);
      if |p| == 0 {
        assert Deduped(s) == [s[0]];
      }
      forall y | y in Deduped(s) ensures y in s {
        if y in Deduped(p) {
          var k :| 0 <= k < |p| && p[k] == y;
          assert s[k] == y;
        }
      }
    }
  }

  /** Kept stops are more than a pixel apart, and sorted input stays sorted. */
  lemma {:induction false} DedupedSpacing(s: seq<Stop>)
    ensures forall i :: 0 < i < |Deduped(s)| ==>
      Abs(Deduped(s)[i - 1].yTargetPx - Deduped(s)[i].yTargetPx) > StopDedupEpsPx
    decreases |s|
  {
    if |s| > 0 {
      DedupedSpacing(s[..|s| - 1]);
    }
  }

  lemma {:induction false} DedupedSorted(s: seq<Stop>)
    requires StopsSorted(s)
    ensures StopsSorted(Deduped(s))
    decreases |s|
  {
    if |s| > 0 {
      var p := s[..|s| - 1];
      DedupedSorted(p);
      DedupedKeepsFirst(p);
      forall y | y in Deduped(p) ensures y.yTargetPx <= s[|s| - 1].yTargetPx {
        var k :| 0 <= k < |p| && p[k] == y;
        assert s[k] == y;
      }
    }
  }

  predicate NearSomeKept(kept: seq<Stop>, y: real) {
    exists i :: 0 <= i < |kept| && Abs(kept[i].yTargetPx - y) <= StopDedupEpsPx
  }

  /** Every stop, kept or not, lies within a pixel of some kept stop. */
  lemma {:induction false} DedupedCovers(s: seq<Stop>)
    ensures forall k :: 0 <= k < |s| ==> NearSomeKept(Deduped(s), s[k].yTargetPx)
    decreases |s|
  {
    if |s| > 0 {
      var p := s[..|s| - 1];
      DedupedCovers(p);
      var d := Deduped(s);
      var kept := Deduped(p);
      var x := s[|s| - 1];
      if |kept| == 0 || Abs(kept[|kept| - 1].yTargetPx - x.yTargetPx) > StopDedupEpsPx {
        assert d == kept + [x];
      } else {
        assert d == kept;
      }
      forall k | 0 <= k < |s|
        ensures NearSomeKept(d, s[k].yTargetPx)
      {
        if k < |p| {
          assert s[k] == p[k];
          var i :| 0 <= i < |kept| && Abs(kept[i].yTargetPx - p[k].yTargetPx) <= StopDedupEpsPx;
          assert d[i] == kept[i];
        } else if d == kept + [x] {
          assert d[|d| - 1] == s[k];
        } else {
          assert d[|d| - 1] == kept[|kept| - 1];
        }
      }
    }
  }

  /** The dedup loop of buildDropStops. */
  method DedupStops(stops: seq<Stop>) returns (deduped: seq<Stop>)
    ensures deduped == Deduped(stops)
  {
    deduped := [];
    var i := 0;
    while i < |stops|
      invariant 0 <= i <= |stops|
      invariant deduped == Deduped(stops[..i])
    {
      assert stops[..i + 1][..i] == stops[..i];
      var stop := stops[i];
      if |deduped| == 0 || Abs(deduped[|deduped| - 1].yTargetPx - stop.yTargetPx) > StopDedupEpsPx {
        deduped := deduped + [stop];
      }
      i := i + 1;
    }
    assert stops[..i] == stops;
  }

  /**
   * buildDropStops: no stops without a layout or intervals; otherwise the
   * shelves whose event contains u, in ascending order of height and more
   * than a pixel apart, each stopping a drop radius above its shelf.
   */
  method BuildDropStops(u: real, dims: Option<Dims>, intervals: Option<Intervals>) returns (stops: seq<Stop>)
    ensures dims.None? || intervals.None? ==> stops == []
    ensures StopsSorted(stops)
    ensures forall i :: 0 < i < |stops| ==> stops[i].yTargetPx - stops[i - 1].yTargetPx > StopDedupEpsPx
    ensures dims.Some? && intervals.Some? ==> forall i :: 0 <= i < |stops| ==>
      stops[i] == StopAt(dims.value, stops[i].key) && IsInInterval(u, EventInterval(intervals.value, stops[i].key))
    ensures dims.Some? && intervals.Some? ==> stops == Deduped(SortStops(CandidateStops(u, dims.value, intervals.value)))
    ensures dims.Some? && intervals.Some? ==> forall e: EventKey :: IsInInterval(u, EventInterval(intervals.value, e)) ==>
      NearSomeKept(stops, StopAt(dims.value, e).yTargetPx)
  {
    if dims.None? || intervals.None? {
      return [];
    }
    var sorted := SortStops(CandidateStops(u, dims.value, intervals.value));
    stops := DedupStops(sorted);
    SortedDedupedAscends(sorted);
    DedupedCandidatesAreShelves(u, dims.value, intervals.value, stops);
    ShelvesContainingUAreCovered(u, dims.value, intervals.value);
  }

  /** Deduplicating a sorted list leaves it sorted with gaps of more than a pixel. */
  lemma SortedDedupedAscends(s: seq<Stop>)
    requires StopsSorted(s)
    ensures StopsSorted(Deduped(s))
    ensures forall i :: 0 < i < |Deduped(s)| ==> Deduped(s)[i].yTargetPx - Deduped(s)[i - 1].yTargetPx > StopDedupEpsPx
  {
    DedupedSpacing(s);
    DedupedSorted(s);
    var d := Deduped(s);
    forall i | 0 < i < |d| ensures d[i].yTargetPx - d[i - 1].yTargetPx > StopDedupEpsPx {
      assert d[i - 1].yTargetPx <= d[i].yTargetPx;
    }
  }

  /** Every stop that survives sorting and dedup is the stop of a shelf whose event contains u. */
  lemma DedupedCandidatesAreShelves(u: real, d: Dims, iv: Intervals, s: seq<Stop>)
    requires s == Deduped(SortStops(CandidateStops(u, d, iv)))
    ensures forall i :: 0 <= i < |s| ==> s[i] == StopAt(d, s[i].key) && IsInInterval(u, EventInterval(iv, s[i].key))
  {
    var candidates := CandidateStops(u, d, iv);
    var sorted := SortStops(candidates);
    DedupedKeepsFirst(sorted);
    forall i | 0 <= i < |s|
      ensures s[i] == StopAt(d, s[i].key) && IsInInterval(u, EventInterval(iv, s[i].key))
    {
      assert s[i] in sorted;
      assert s[i] in multiset(sorted);
      assert s[i] in candidates;
      CandidateMember(u, d, iv, s[i]);
    }
  }

  /**
   * No shelf is lost: the stop of every shelf whose event contains u either
   * survives or lies within a pixel of a stop that does.
   */
  lemma ShelvesContainingUAreCovered(u: real, d: Dims, iv: Intervals)
    ensures forall e: EventKey :: IsInInterval(u, EventInterval(iv, e)) ==>
      NearSomeKept(Deduped(SortStops(CandidateStops(u, d, iv))), StopAt(d, e).yTargetPx)
  {
    var candidates := CandidateStops(u, d, iv);
    var sorted := SortStops(candidates);
    DedupedCovers(sorted);
    forall e: EventKey | IsInInterval(u, EventInterval(iv, e))
      ensures NearSomeKept(Deduped(sorted), StopAt(d, e).yTargetPx)
    {
      CandidateStopsExactly(u, d, iv, e);
      assert StopAt(d, e) in multiset(candidates);
      assert StopAt(d, e) in multiset(sorted);
      var k :| 0 <= k < |sorted| && sorted[k] == StopAt(d, e);
    }
  }

  /** One leg of a drop's fall; `eventKey` names the shelf it ends on, if any. */
  datatype Segment = Segment(fromY: real, toY: real, eventKey: Option<EventKey>, durationMs: real)

  /** The y position at which a drop leaves the plot: the inner height plus a drop diameter. */
  function BottomY(d: Dims): real {
    d.innerHeight + DropRadiusPx * 2.0
  }

  /** Time spent on a leg: its share of the plot height times 2500 ms, but at least 40 ms. */
  function SegmentDuration(fromY: real, toY: real, bottomY: real): (ms: real)
    ensures ms >= MinSegmentMs
  {
    var span := Max(0.0, toY - fromY);
    var ratio := if bottomY > Eps then span / bottomY else 0.0;
    Max(MinSegmentMs, DropTotalMs * ratio)
  }

  datatype Point = Point(y: real, eventKey: Option<EventKey>)

  /** The segment from one point to the next, named after the point it reaches. */
  function SegmentBetween(from: Point, to: Point, bottomY: real): Segment {
    Segment(from.y, to.y, to.eventKey, SegmentDuration(from.y, to.y, bottomY))
  }

  /** Point k of a drop's path: the top of the plot, then each stop in turn, then the bottom. */
  function PathPoint(stops: seq<Stop>, bottomY: real, k: nat): Point
    requires k <= |stops| + 1
  {
    if k == 0 then Point(0.0, None)
    else if k <= |stops| then Point(stops[k - 1].yTargetPx, Some(stops[k - 1].key))
    else Point(bottomY, None)
  }

  /** The segments joining consecutive path points of a drop with these stops in this layout. */
  function DropSegments(stops: seq<Stop>, d: Dims): (segments: seq<Segment>)
    ensures |segments| == |stops| + 1
  {
    seq(|stops| + 1, k requires 0 <= k < |stops| + 1 =>
      SegmentBetween(PathPoint(stops, BottomY(d), k), PathPoint(stops, BottomY(d), k + 1), BottomY(d)))
  }

  /**
   * The segments of a path are contiguous, run from the top of the plot to
   * its bottom, end on each stop with that stop's event (the last on none),
   * and each lasts the duration its length calls for.
   */
  lemma DropSegmentsChain(stops: seq<Stop>, d: Dims)
    ensures var segments := DropSegments(stops, d);
      && segments[0].fromY == 0.0 && segments[|stops|].toY == BottomY(d)
      && segments[|stops|].eventKey.None?
      && (forall j :: 0 <= j < |segments| - 1 ==> segments[j].toY == segments[j + 1].fromY)
      && (forall j :: 0 <= j < |stops| ==> segments[j].toY == stops[j].yTargetPx && segments[j].eventKey == Some(stops[j].key))
      && (forall j :: 0 <= j < |segments| ==> segments[j].durationMs == SegmentDuration(segments[j].fromY, segments[j].toY, BottomY(d)))
  {
    var segments, bottomY := DropSegments(stops, d), BottomY(d);
    forall j | 0 <= j < |segments|
      ensures segments[j].fromY == PathPoint(stops, bottomY, j).y && segments[j].toY == PathPoint(stops, bottomY, j + 1).y
      ensures segments[j].eventKey == PathPoint(stops, bottomY, j + 1).eventKey
      ensures segments[j].durationMs == SegmentDuration(segments[j].fromY, segments[j].toY, bottomY)
    {
      assert segments[j] == SegmentBetween(PathPoint(stops, bottomY, j), PathPoint(stops, bottomY, j + 1), bottomY);
    }
  }

  /**
   * buildDropSegments: the points are the top of the plot, every stop and the
   * bottom; consecutive points make one segment each, which carries the event
   * of the point it ends on.
   */
  method BuildDropSegments(stops: seq<Stop>, dims: Option<Dims>) returns (segments: seq<Segment>)
    ensures dims.None? ==> segments == []
    ensures dims.Some? ==> |segments| == |stops| + 1
    ensures dims.Some? ==> segments[0].fromY == 0.0 && segments[|stops|].toY == BottomY(dims.value)
    ensures dims.Some? ==> segments[|stops|].eventKey.None?
    ensures forall j :: 0 <= j < |segments| - 1 ==> segments[j].toY == segments[j + 1].fromY
    ensures forall j :: 0 <= j < |stops| && j < |segments| ==>
      segments[j].toY == stops[j].yTargetPx && segments[j].eventKey == Some(stops[j].key)
    ensures dims.Some? ==> forall j :: 0 <= j < |segments| ==>
      segments[j].durationMs == SegmentDuration(segments[j].fromY, segments[j].toY, BottomY(dims.value))
    ensures forall j :: 0 <= j < |segments| ==> segments[j].durationMs >= MinSegmentMs
    ensures dims.Some? ==> segments == DropSegments(stops, dims.value)
  {
    if dims.None? {
      return [];
    }
    var bottomY := BottomY(dims.value);
    var points := [Point(0.0, None)];
    var i := 0;
    while i < |stops|
      invariant 0 <= i <= |stops|
      invariant |points| == i + 1
      invariant forall k :: 0 <= k < |points| ==> points[k] == PathPoint(stops, bottomY, k)
    {
      points := points + [Point(stops[i].yTargetPx, Some(stops[i].key))];
      i := i + 1;
    }
    points := points + [Point(bottomY, None)];
    ghost var path := DropSegments(stops, dims.value);
    segments := [];
    var j := 1;
    while j < |points|
      invariant 1 <= j <= |points|
      invariant segments == path[..j - 1]
    {
      segments := segments + [SegmentBetween(points[j - 1], points[j], bottomY)];
      j := j + 1;
    }
    DropSegmentsChain(stops, dims.value);
  }

  /** Which shelves a drop has landed on so far. */
  datatype StopHits = StopHits(rain: bool, testimony: bool, notRain: bool)

  function Hit(h: StopHits, e: EventKey): bool {
    match e
    case Rain => h.rain
    case Testimony => h.testimony
    case NotRain => h.notRain
  }

  function MarkHit(h: StopHits, e: EventKey): (r: StopHits)
    ensures Hit(r, e)
    ensures forall k: EventKey :: k != e ==> Hit(r, k) == Hit(h, k)
  {
    match e
    case Rain => h.(rain := true)
    case Testimony => h.(testimony := true)
    case NotRain => h.(notRain := true)
  }

  datatype Drop = Drop(
    id: nat, u: real,
    hitRain: bool, hitTestimony: bool, hitNotRain: bool,
    stops: seq<Stop>, stopHits: StopHits, segments: seq<Segment>,
    segmentIndex: nat, segmentProgressMs: real, yPx: real, done: bool)

  /** A drop never runs past its last segment, and a finished drop is at the end. */
  predicate DropInvariant(d: Drop) {
    d.segmentIndex <= |d.segments| && (d.done ==> d.segmentIndex == |d.segments|)
  }

  /**
   * stepOneDrop: a finished drop is left alone; a drop without a current
   * segment is finished; otherwise dt ms are added to the segment clock and
   * the drop is placed along the eased segment. Once the segment's time is
   * up the drop snaps to its end, records the shelf it landed on, and moves
   * to the next segment, finishing after the last.
   */
  function StepOneDrop(d: Drop, dt: real, ease: real -> real): (r: Drop)
    ensures d.done ==> r == d
    ensures r.id == d.id && r.u == d.u && r.stops == d.stops && r.segments == d.segments
    ensures r.hitRain == d.hitRain && r.hitTestimony == d.hitTestimony && r.hitNotRain == d.hitNotRain
    ensures r.segmentIndex == d.segmentIndex || (d.segmentIndex < |d.segments| && r.segmentIndex == d.segmentIndex + 1)
    ensures DropInvariant(d) ==> DropInvariant(r) && (r.done <==> r.segmentIndex == |r.segments|)
  {
    if d.done then d
    else if d.segmentIndex >= |d.segments| then d.(done := true)
    else
      var seg := d.segments[d.segmentIndex];
      var elapsed := d.segmentProgressMs + dt;
      var progress := if seg.durationMs > Eps then elapsed / seg.durationMs else 1.0;
      var eased := ease(ClampUnit(progress));
      if progress < 1.0 then
        d.(segmentProgressMs := elapsed, yPx := seg.fromY + (seg.toY - seg.fromY) * eased)
      else
        var hits := if seg.eventKey.Some? then MarkHit(d.stopHits, seg.eventKey.value) else d.stopHits;
        var next := d.segmentIndex + 1;
        d.(yPx := seg.toY, stopHits := hits, segmentIndex := next, segmentProgressMs := 0.0,
           done := next >= |d.segments|)
  }

  /**
   * Within a segment the clock advances by dt and nothing is recorded; on
   * leaving it the drop sits at the segment's end with a fresh clock and the
   * shelf the segment ends on is marked hit, the other marks unchanged.
   */
  lemma StepOneDropHits(d: Drop, dt: real, ease: real -> real)
    ensures var r := StepOneDrop(d, dt, ease);
      r.segmentIndex == d.segmentIndex ==> r.stopHits == d.stopHits
    ensures var r := StepOneDrop(d, dt, ease);
      !d.done && d.segmentIndex < |d.segments| && r.segmentIndex == d.segmentIndex ==>
        r.segmentProgressMs == d.segmentProgressMs + dt && !r.done
    ensures var r := StepOneDrop(d, dt, ease);
      r.segmentIndex == d.segmentIndex + 1 ==>
      var seg := d.segments[d.segmentIndex];
      r.yPx == seg.toY && r.segmentProgressMs == 0.0
      && (forall e: EventKey :: Hit(r.stopHits, e) == (Hit(d.stopHits, e) || seg.eventKey == Some(e)))
  {
  }

  lemma QuotientAtLeastOne(a: real, b: real)
    requires b > 0.0 && a >= b
    ensures a / b >= 1.0
  {
  }

  /** A frame at least as long as the rest of the current segment finishes that segment. */
  lemma LongFrameFinishesSegment(d: Drop, dt: real, ease: real -> real)
    requires !d.done && d.segmentIndex < |d.segments|
    requires d.segmentProgressMs + dt >= d.segments[d.segmentIndex].durationMs
    ensures StepOneDrop(d, dt, ease).segmentIndex == d.segmentIndex + 1
  {
    var seg := d.segments[d.segmentIndex];
    if seg.durationMs > Eps {
      QuotientAtLeastOne(d.segmentProgressMs + dt, seg.durationMs);
    }
  }

  /** A freshly spawned drop: at the top, on its first segment, nothing hit yet. */
  function SpawnedDrop(id: nat, u: real, iv: Intervals, stops: seq<Stop>, segments: seq<Segment>): (d: Drop)
    ensures DropInvariant(d) && !d.done && d.segmentIndex == 0 && d.yPx == 0.0
    ensures d.stopHits == StopHits(false, false, false)
    ensures d.hitRain <==> IsInInterval(u, iv.rain)
    ensures d.hitTestimony <==> IsInInterval(u, iv.testimony)
    ensures d.hitNotRain <==> IsInInterval(u, iv.notRain)
  {
    Drop(id, u, IsInInterval(u, iv.rain), IsInInterval(u, iv.testimony), IsInInterval(u, iv.notRain),
         stops, StopHits(false, false, false), segments, 0, 0.0, 0.0, false)
  }
}
