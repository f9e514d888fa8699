// The client voice-activity counters of agent/ovs_agent/app_base.py,
// _update_vad, and the segmentation of a speech stream they compute.
module ClientVad {
  import opened Prelude

  datatype Timing = Timing(chunkMs: nat, speechMinMs: nat, silenceMs: nat)

  datatype Mode = Quiet | Talking

  datatype Counters = Counters(mode: Mode, speechMs: nat, silenceMs: nat)

  const AT_REST := Counters(Quiet, 0, 0)

  datatype Edge = NoEdge | Opened | Closed

  // One chunk through the counters.
  function Tick(t: Timing, v: Counters, isSpeech: bool): (Counters, Edge) {
    match v.mode
    case Quiet =>
      if !isSpeech then (v.(speechMs := 0), NoEdge)
      else if v.speechMs + t.chunkMs >= t.speechMinMs then
        (Counters(Talking, v.speechMs + t.chunkMs, 0), Opened)
      else (v.(speechMs := v.speechMs + t.chunkMs), NoEdge)
    case Talking =>
      if isSpeech then (v.(silenceMs := 0), NoEdge)
      else if v.silenceMs + t.chunkMs >= t.silenceMs then (AT_REST, Closed)
      else (v.(silenceMs := v.silenceMs + t.chunkMs), NoEdge)
  }

  // ── the declarative segmentation ─────────────────────────────────

  datatype Segment = Segment(start: nat, stop: nat)

  // The closed segments of a stream and the start of the open one, if any.
  datatype Parse = Parse(done: seq<Segment>, current: Option<nat>)

  // Duration of the run of chunks equal to value that ends just before hi and
  // does not reach below lo.
  function RunMs(t: Timing, stream: seq<bool>, value: bool, lo: nat, hi: nat): nat
    requires hi <= |stream|
    decreases hi
  {
    if lo < hi && stream[hi - 1] == value then t.chunkMs + RunMs(t, stream, value, lo, hi - 1) else 0
  }

  // Chunk i completes a long enough run of speech that began at lo or later.
  predicate SpokenBy(t: Timing, stream: seq<bool>, lo: nat, i: nat)
    requires i < |stream|
  {
    lo <= i && stream[i] && RunMs(t, stream, true, lo, i + 1) >= t.speechMinMs
  }

  // Chunk j completes a long enough silence inside the segment opened at start.
  predicate SilentBy(t: Timing, stream: seq<bool>, start: nat, j: nat)
    requires j < |stream|
  {
    start < j && !stream[j] && RunMs(t, stream, false, start + 1, j + 1) >= t.silenceMs
  }

  // Chunk i is the first one at which a segment can open, looking from lo.
  predicate OpensAt(t: Timing, stream: seq<bool>, lo: nat, i: nat)
    requires i < |stream|
  {
    SpokenBy(t, stream, lo, i) && forall k :: lo <= k < i ==> !SpokenBy(t, stream, lo, k)
  }

  // Chunk j is the first one at which the segment opened at start can close.
  predicate ClosesAt(t: Timing, stream: seq<bool>, start: nat, j: nat)
    requires j < |stream|
  {
    SilentBy(t, stream, start, j) && forall k :: start < k < j ==> !SilentBy(t, stream, start, k)
  }

  // Where the search for segment k begins.
  function From(done: seq<Segment>, k: nat): nat
    requires k <= |done|
  {
    if k == 0 then 0 else done[k - 1].stop + 1
  }

  // Closed segment k opened and closed at the first chunks where it could.
  predicate WellPlaced(t: Timing, stream: seq<bool>, n: nat, done: seq<Segment>, k: nat)
    requires n <= |stream| && k < |done|
  {
    && done[k].start < n && done[k].stop < n
    && OpensAt(t, stream, From(done, k), done[k].start)
    && ClosesAt(t, stream, done[k].start, done[k].stop)
  }

  // What remains after the last closed segment.
  predicate TailPlaced(t: Timing, stream: seq<bool>, n: nat, lo: nat, current: Option<nat>)
    requires n <= |stream|
  {
    match current
    case None => forall i :: lo <= i < n ==> !SpokenBy(t, stream, lo, i)
    case Some(start) =>
      && start < n && OpensAt(t, stream, lo, start)
      && forall j :: start < j < n ==> !SilentBy(t, stream, start, j)
  }

  // p is the segmentation of the first n chunks.
  predicate Segmented(t: Timing, stream: seq<bool>, n: nat, p: Parse)
    requires n <= |stream|
  {
    && (forall k :: 0 <= k < |p.done| ==> WellPlaced(t, stream, n, p.done, k))
    && TailPlaced(t, stream, n, From(p.done, |p.done|), p.current)
  }

  // ── the online run ───────────────────────────────────────────────

  function Record(p: Parse, edge: Edge, at: nat): Parse {
    match edge
    case NoEdge => p
    case Opened => p.(current := Some(at))
    case Closed => if p.current.Some? then Parse(p.done + [Segment(p.current.value, at)], None) else p
  }

  // The counters and the edges seen after the first n chunks, from rest.
  function Listen(t: Timing, stream: seq<bool>, n: nat): (Counters, Parse)
    requires n <= |stream|
  {
    if n == 0 then (AT_REST, Parse([], None))
    else
      var (v, p) := Listen(t, stream, n - 1);
      var (v', edge) := Tick(t, v, stream[n - 1]);
      (v', Record(p, edge, n - 1))
  }

  // The counters measure the current run.
  predicate Measures(t: Timing, stream: seq<bool>, n: nat, v: Counters, p: Parse)
    requires n <= |stream|
  {
    match p.current
    case None => v == Counters(Quiet, RunMs(t, stream, true, From(p.done, |p.done|), n), 0)
    case Some(start) => v.mode == Talking && v.silenceMs == RunMs(t, stream, false, start + 1, n)
  }

  lemma TickKeepsMeasure(t: Timing, stream: seq<bool>, n: nat, v: Counters, p: Parse)
    requires n < |stream| && From(p.done, |p.done|) <= n
    requires TailPlaced(t, stream, n, From(p.done, |p.done|), p.current) && Measures(t, stream, n, v, p)
    ensures var (v', edge) := Tick(t, v, stream[n]);
            var p' := Record(p, edge, n);
            && Measures(t, stream, n + 1, v', p')
            && From(p'.done, |p'.done|) <= n + 1
            && TailPlaced(t, stream, n + 1, From(p'.done, |p'.done|), p'.current)
            && (edge == Closed ==> p.current.Some? && p'.done == p.done + [Segment(p.current.value, n)] &&
                                   ClosesAt(t, stream, p.current.value, n))
            && (edge != Closed ==> p'.done == p.done)
  {
    var lo := From(p.done, |p.done|);
    match p.current
    case None =>
      assert RunMs(t, stream, true, lo, n + 1) ==
             if stream[n] then t.chunkMs + RunMs(t, stream, true, lo, n) else 0;
    case Some(start) =>
      assert RunMs(t, stream, false, start + 1, n + 1) ==
             if !stream[n] then t.chunkMs + RunMs(t, stream, false, start + 1, n) else 0;
  }

  lemma WellPlacedKept(t: Timing, stream: seq<bool>, n: nat, n': nat, done: seq<Segment>, done': seq<Segment>, k: nat)
    requires n <= n' <= |stream| && k < |done| <= |done'| && done'[..|done|] == done
    requires WellPlaced(t, stream, n, done, k)
    ensures WellPlaced(t, stream, n', done', k)
  {
    assert done[k] == done'[..|done|][k];
    if k > 0 { assert done[k - 1] == done'[..|done|][k - 1]; }
    assert From(done, k) == From(done', k);
  }

  lemma {:induction false} ListenSegments(t: Timing, stream: seq<bool>, n: nat)
    requires n <= |stream|
    ensures var (v, p) := Listen(t, stream, n);
            Segmented(t, stream, n, p) && Measures(t, stream, n, v, p) &&
            From(p.done, |p.done|) <= n
  {
    if n > 0 {
      ListenSegments(t, stream, n - 1);
      var (v, p) := Listen(t, stream, n - 1);
      TickKeepsMeasure(t, stream, n - 1, v, p);
      var p' := Listen(t, stream, n).1;
      assert p'.done[..|p.done|] == p.done;
      forall k | 0 <= k < |p'.done| ensures WellPlaced(t, stream, n, p'.done, k) {
        if k < |p.done| {
          WellPlacedKept(t, stream, n - 1, n, p.done, p'.done, k);
        } else if k > 0 {
          assert p'.done[k - 1] == p'.done[..|p.done|][k - 1];
        }
      }
    }
  }

  lemma SameSegment(t: Timing, stream: seq<bool>, lo: nat, a: Segment, b: Segment)
    requires a.start < |stream| && a.stop < |stream| && b.start < |stream| && b.stop < |stream|
    requires OpensAt(t, stream, lo, a.start) && OpensAt(t, stream, lo, b.start)
    requires ClosesAt(t, stream, a.start, a.stop) && ClosesAt(t, stream, b.start, b.stop)
    ensures a == b
  {
    assert a.start == b.start;
  }

  lemma SameFrom(p: seq<Segment>, q: seq<Segment>, k: nat)
    requires k <= |p| && k <= |q| && p[..k] == q[..k]
    ensures From(p, k) == From(q, k)
  {
    if k > 0 { assert p[k - 1] == p[..k][k - 1] == q[..k][k - 1]; }
  }

  lemma {:induction false} SameClosedSegments(t: Timing, stream: seq<bool>, n: nat, p: Parse, q: Parse, k: nat)
    requires n <= |stream| && Segmented(t, stream, n, p) && Segmented(t, stream, n, q)
    requires k <= |p.done| && k <= |q.done|
    ensures p.done[..k] == q.done[..k]
  {
    if k > 0 {
      SameClosedSegments(t, stream, n, p, q, k - 1);
      SameFrom(p.done, q.done, k - 1);
      assert WellPlaced(t, stream, n, p.done, k - 1) && WellPlaced(t, stream, n, q.done, k - 1);
      SameSegment(t, stream, From(p.done, k - 1), p.done[k - 1], q.done[k - 1]);
      assert p.done[..k] == p.done[..k - 1] + [p.done[k - 1]];
      assert q.done[..k] == q.done[..k - 1] + [q.done[k - 1]];
    }
  }

  // A stream with no room for a segment has none.
  lemma TailHasNoSegment(t: Timing, stream: seq<bool>, n: nat, lo: nat, current: Option<nat>, s: Segment)
    requires n <= |stream| && s.start < n && s.stop < n
    requires OpensAt(t, stream, lo, s.start) && ClosesAt(t, stream, s.start, s.stop)
    ensures !TailPlaced(t, stream, n, lo, current)
  {
    if current.Some? && current.value < n && OpensAt(t, stream, lo, current.value) {
      assert current.value == s.start;
    }
  }

  lemma NotShorter(t: Timing, stream: seq<bool>, n: nat, p: Parse, q: Parse)
    requires n <= |stream| && Segmented(t, stream, n, p) && Segmented(t, stream, n, q)
    ensures |p.done| >= |q.done|
  {
    var k := |p.done|;
    if k < |q.done| && WellPlaced(t, stream, n, q.done, k) {
      SameClosedSegments(t, stream, n, p, q, k);
      SameFrom(p.done, q.done, k);
      TailHasNoSegment(t, stream, n, From(p.done, k), p.current, q.done[k]);
    }
  }

  lemma SameTail(t: Timing, stream: seq<bool>, n: nat, lo: nat, a: Option<nat>, b: Option<nat>)
    requires n <= |stream| && TailPlaced(t, stream, n, lo, a) && TailPlaced(t, stream, n, lo, b)
    ensures a == b
  {
  }

  // For every stream of speech decisions, the counters find the one
  // segmentation in which each segment opens at the first chunk where a
  // consecutive run of speech reaches the minimum, and closes at the first
  // later chunk where a consecutive silence reaches the limit.
  lemma OnlineIsDeclarative(t: Timing, stream: seq<bool>, n: nat, p: Parse)
    requires n <= |stream|
    ensures Segmented(t, stream, n, p) <==> p == Listen(t, stream, n).1
  {
    ListenSegments(t, stream, n);
    var q := Listen(t, stream, n).1;
    if Segmented(t, stream, n, p) {
      NotShorter(t, stream, n, p, q);
      NotShorter(t, stream, n, q, p);
      SameClosedSegments(t, stream, n, p, q, |p.done|);
      assert p.done == p.done[..|p.done|] == q.done[..|q.done|] == q.done;
      SameTail(t, stream, n, From(p.done, |p.done|), p.current, q.current);
    }
  }

  // Segments are disjoint and ordered, and each spans more than one chunk.
  lemma {:induction false} SegmentsOrdered(t: Timing, stream: seq<bool>, n: nat, p: Parse, i: nat, j: nat)
    requires n <= |stream| && Segmented(t, stream, n, p)
    requires i < j < |p.done|
    ensures p.done[i].start < p.done[i].stop < p.done[j].start < p.done[j].stop
  {
    assert WellPlaced(t, stream, n, p.done, i) && WellPlaced(t, stream, n, p.done, j);
    if i + 1 < j {
      assert WellPlaced(t, stream, n, p.done, j - 1);
      SegmentsOrdered(t, stream, n, p, i, j - 1);
    }
  }
}
