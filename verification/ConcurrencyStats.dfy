// The concurrency measurement of scripts/mock_openai_client.py: how many
// requests a server really served at once.
module ConcurrencyStats {
  import opened Prelude

  // When a served request was in flight: from start, up to but not at end.
  datatype Span = Span(start: real, end: real)

  predicate WellTimed(spans: seq<Span>) {
    forall i :: 0 <= i < |spans| ==> spans[i].start <= spans[i].end
  }

  // How many spans are in flight at time t.
  function Overlap(spans: seq<Span>, t: real): nat {
    if spans == [] then 0
    else (if spans[0].start <= t < spans[0].end then 1 else 0) + Overlap(spans[1..], t)
  }

  ghost predicate IsPeakOverlap(spans: seq<Span>, n: nat) {
    (forall t :: Overlap(spans, t) <= n) && (exists t :: Overlap(spans, t) == n)
  }

  // ── the sweep line ───────────────────────────────────────────────

  datatype Edge = Edge(at: real, delta: int)

  // Ends sort before starts at an equal time.
  predicate NotAfter(a: Edge, b: Edge) {
    a.at < b.at || (a.at == b.at && a.delta <= b.delta)
  }

  predicate Sorted(es: seq<Edge>) {
    forall i, j :: 0 <= i < j < |es| ==> NotAfter(es[i], es[j])
  }

  function Starts(spans: seq<Span>): seq<Edge> {
    if spans == [] then [] else [Edge(spans[0].start, 1)] + Starts(spans[1..])
  }

  function Ends(spans: seq<Span>): seq<Edge> {
    if spans == [] then [] else [Edge(spans[0].end, -1)] + Ends(spans[1..])
  }

  function Insert(e: Edge, es: seq<Edge>): seq<Edge> {
    if es == [] || NotAfter(e, es[0]) then [e] + es else [es[0]] + Insert(e, es[1..])
  }

  function Sort(es: seq<Edge>): seq<Edge> {
    if es == [] then [] else Insert(es[0], Sort(es[1..]))
  }

  // The count after the first k edges, and the largest count reached by then.
  function Level(es: seq<Edge>, k: nat): int
    requires k <= |es|
  {
    if k == 0 then 0 else Level(es, k - 1) + es[k - 1].delta
  }

  function Crest(es: seq<Edge>, k: nat): nat
    requires k <= |es|
  {
    if k == 0 then 0 else Max(Crest(es, k - 1), Level(es, k))
  }

  function Peak(spans: seq<Span>): nat {
    var es := Sort(Starts(spans) + Ends(spans));
    Crest(es, |es|)
  }

  // ── sorting ──────────────────────────────────────────────────────

  lemma {:induction false} InsertSorted(e: Edge, es: seq<Edge>)
    requires Sorted(es)
    ensures Sorted(Insert(e, es))
    ensures multiset(Insert(e, es)) == multiset{e} + multiset(es)
  {
    if es == [] || NotAfter(e, es[0]) {
      forall i, j | 0 <= i < j < |[e] + es| ensures NotAfter(([e] + es)[i], ([e] + es)[j]) {
        if i == 0 && j > 1 { assert NotAfter(es[0], es[j - 1]); }
      }
    } else {
      assert es == [es[0]] + es[1..];
      InsertSorted(e, es[1..]);
      var rest := Insert(e, es[1..]);
      forall j | 0 <= j < |rest| ensures NotAfter(es[0], rest[j]) {
        assert rest[j] in multiset(rest);
        if rest[j] != e {
          assert rest[j] in es[1..];
        }
      }
    }
  }

  lemma {:induction false} SortSorts(es: seq<Edge>)
    ensures Sorted(Sort(es)) && multiset(Sort(es)) == multiset(es)
  {
    if es != [] {
      assert es == [es[0]] + es[1..];
      SortSorts(es[1..]);
      InsertSorted(es[0], Sort(es[1..]));
    }
  }

  // ── the net count up to a time ───────────────────────────────────

  function Net(es: seq<Edge>, t: real): int {
    if es == [] then 0 else (if es[0].at <= t then es[0].delta else 0) + Net(es[1..], t)
  }

  lemma {:induction false} NetConcat(a: seq<Edge>, b: seq<Edge>, t: real)
    ensures Net(a + b, t) == Net(a, t) + Net(b, t)
  {
    if a == [] {
      assert a + b == b;
    } else {
      assert (a + b)[1..] == a[1..] + b;
      NetConcat(a[1..], b, t);
    }
  }

  lemma {:induction false} NetInsert(e: Edge, es: seq<Edge>, t: real)
    ensures Net(Insert(e, es), t) == Net([e], t) + Net(es, t)
  {
    if es == [] || NotAfter(e, es[0]) {
      NetConcat([e], es, t);
    } else {
      NetInsert(e, es[1..], t);
      NetConcat([es[0]], Insert(e, es[1..]), t);
    }
  }

  lemma {:induction false} NetSort(es: seq<Edge>, t: real)
    ensures Net(Sort(es), t) == Net(es, t)
  {
    if es != [] {
      NetSort(es[1..], t);
      NetInsert(es[0], Sort(es[1..]), t);
    }
  }

  lemma {:induction false} NetIsOverlap(spans: seq<Span>, t: real)
    requires WellTimed(spans)
    ensures Net(Starts(spans), t) + Net(Ends(spans), t) == Overlap(spans, t)
  {
    if spans != [] {
      assert spans[0].start <= spans[0].end;
      assert forall i :: 0 <= i < |spans[1..]| ==> spans[1..][i] == spans[i + 1];
      NetIsOverlap(spans[1..], t);
    }
  }

  lemma {:induction false} NetPrefix(es: seq<Edge>, k: nat, t: real)
    requires k <= |es| && forall i :: 0 <= i < k ==> es[i].at <= t
    ensures Net(es, t) == Level(es, k) + Net(es[k..], t)
  {
    if k > 0 {
      NetPrefix(es, k - 1, t);
      assert es[k - 1..][1..] == es[k..];
    }
  }

  lemma {:induction false} NetZero(es: seq<Edge>, t: real)
    requires forall i :: 0 <= i < |es| ==> es[i].at > t
    ensures Net(es, t) == 0
  {
    if es != [] {
      assert forall i :: 0 <= i < |es[1..]| ==> es[1..][i] == es[i + 1];
      NetZero(es[1..], t);
    }
  }

  lemma {:induction false} NetNonNegative(es: seq<Edge>, t: real)
    requires forall i :: 0 <= i < |es| ==> es[i].at <= t ==> es[i].delta >= 0
    ensures Net(es, t) >= 0
  {
    if es != [] {
      assert forall i :: 0 <= i < |es[1..]| ==> es[1..][i] == es[i + 1];
      NetNonNegative(es[1..], t);
    }
  }

  function CountUpTo(es: seq<Edge>, t: real): (k: nat)
    ensures k <= |es|
  {
    if es != [] && es[0].at <= t then CountUpTo(es[1..], t) + 1 else 0
  }

  lemma {:induction false} CountSplits(es: seq<Edge>, t: real)
    requires Sorted(es)
    ensures forall i :: 0 <= i < |es| ==> (es[i].at <= t <==> i < CountUpTo(es, t))
  {
    if es != [] {
      assert forall i :: 0 <= i < |es[1..]| ==> es[1..][i] == es[i + 1];
      CountSplits(es[1..], t);
      forall i | 0 <= i < |es| ensures es[i].at <= t <==> i < CountUpTo(es, t) {
        if i > 0 {
          assert NotAfter(es[0], es[i]);
          assert es[i] == es[1..][i - 1];
        }
      }
    }
  }

  // The net count at any time is one of the levels the sweep passes.
  lemma NetIsLevel(es: seq<Edge>, t: real)
    requires Sorted(es)
    ensures Net(es, t) == Level(es, CountUpTo(es, t))
  {
    var k := CountUpTo(es, t);
    CountSplits(es, t);
    NetPrefix(es, k, t);
    NetZero(es[k..], t);
  }

  lemma {:induction false} CrestAbove(es: seq<Edge>, k: nat, n: nat)
    requires k <= n <= |es|
    ensures Level(es, k) <= Crest(es, n)
  {
    if k < n {
      CrestAbove(es, k, n - 1);
    }
  }

  // Every level is at most the net count at some time, unless it is negative.
  lemma {:induction false} LevelBelowNet(es: seq<Edge>, k: nat) returns (t: real)
    requires Sorted(es) && k <= |es|
    requires forall i :: 0 <= i < |es| ==> es[i].delta == 1 || es[i].delta == -1
    ensures Level(es, k) <= 0 || Level(es, k) <= Net(es, t)
  {
    t := 0.0;
    if k > 0 {
      if es[k - 1].delta == 1 {
        t := es[k - 1].at;
        forall i | 0 <= i < k ensures es[i].at <= t {
          if i < k - 1 { assert NotAfter(es[i], es[k - 1]); }
        }
        NetPrefix(es, k, t);
        forall i | 0 <= i < |es[k..]| && es[k..][i].at <= t ensures es[k..][i].delta >= 0 {
          assert NotAfter(es[k - 1], es[k + i]);
        }
        NetNonNegative(es[k..], t);
      } else {
        t := LevelBelowNet(es, k - 1);
      }
    }
  }

  lemma {:induction false} CrestBelowNet(es: seq<Edge>, k: nat) returns (t: real)
    requires Sorted(es) && k <= |es|
    requires forall i :: 0 <= i < |es| ==> es[i].delta == 1 || es[i].delta == -1
    ensures Crest(es, k) == 0 || Crest(es, k) <= Net(es, t)
  {
    t := 0.0;
    if k > 0 {
      t := CrestBelowNet(es, k - 1);
      if Level(es, k) > Crest(es, k - 1) {
        t := LevelBelowNet(es, k);
      }
    }
  }

  lemma {:induction false} UnitEdges(spans: seq<Span>)
    ensures forall e :: e in Starts(spans) + Ends(spans) ==> e.delta == 1 || e.delta == -1
  {
    if spans != [] {
      UnitEdges(spans[1..]);
    }
  }

  // Some time precedes every span.
  lemma {:induction false} QuietTime(spans: seq<Span>) returns (t: real)
    ensures Overlap(spans, t) == 0
    ensures forall i :: 0 <= i < |spans| ==> t < spans[i].start
  {
    t := 0.0;
    if spans != [] {
      var u := QuietTime(spans[1..]);
      t := if u < spans[0].start - 1.0 then u else spans[0].start - 1.0;
      assert forall i :: 1 <= i < |spans| ==> spans[i] == spans[1..][i - 1];
      BeforeAll(spans, t);
    }
  }

  lemma {:induction false} BeforeAll(spans: seq<Span>, t: real)
    requires forall i :: 0 <= i < |spans| ==> t < spans[i].start
    ensures Overlap(spans, t) == 0
  {
    if spans != [] {
      assert forall i :: 0 <= i < |spans[1..]| ==> spans[1..][i] == spans[i + 1];
      BeforeAll(spans[1..], t);
    }
  }

  // The sweep computes the true maximum overlap, for every multiset of spans:
  // touching spans do not overlap, and a zero-length span is never in flight.
  lemma PeakIsMaximumOverlap(spans: seq<Span>)
    requires WellTimed(spans)
    ensures IsPeakOverlap(spans, Peak(spans))
  {
    var raw := Starts(spans) + Ends(spans);
    var es := Sort(raw);
    SortSorts(raw);
    UnitEdges(spans);
    forall i | 0 <= i < |es| ensures es[i].delta == 1 || es[i].delta == -1 {
      assert es[i] in multiset(raw);
    }
    forall t ensures Overlap(spans, t) == Net(es, t) && Overlap(spans, t) <= Peak(spans) {
      NetSort(raw, t);
      NetConcat(Starts(spans), Ends(spans), t);
      NetIsOverlap(spans, t);
      NetIsLevel(es, t);
      CrestAbove(es, CountUpTo(es, t), |es|);
    }
    var t := CrestBelowNet(es, |es|);
    if Peak(spans) == 0 {
      t := QuietTime(spans);
    }
    assert Overlap(spans, t) == Peak(spans);
  }

  // ── workers and their ledger ─────────────────────────────────────

  datatype Ledger = Ledger(inflight: int, peakInflight: int, okSpans: seq<Span>)

  function Enter(l: Ledger): Ledger {
    l.(inflight := l.inflight + 1, peakInflight := Max(l.peakInflight, l.inflight + 1))
  }

  function Leave(l: Ledger, served: bool, started: real, ended: real): Ledger {
    l.(inflight := l.inflight - 1, okSpans := if served then l.okSpans + [Span(started, ended)] else l.okSpans)
  }

  // Where a worker is in its loop: it enters, reads the clock, makes the
  // request, reads the clock again, and leaves.
  datatype Phase = Resting | Entered | Requesting(start: real) | Returned(start: real, end: real)

  datatype World = World(clock: real, workers: seq<Phase>, ledger: Ledger)

  datatype Move =
    | Wait(elapsed: real)
    | DoEnter(w: nat)
    | DoStart(w: nat)
    | DoEnd(w: nat)
    | DoLeave(w: nat, status: int)

  // One atomic move; moves that a worker cannot make now do nothing.
  function Make(x: World, m: Move): World {
    match m
    case Wait(elapsed) => if elapsed >= 0.0 then x.(clock := x.clock + elapsed) else x
    case DoEnter(w) =>
      if w < |x.workers| && x.workers[w].Resting? then
        x.(workers := x.workers[w := Entered], ledger := Enter(x.ledger))
      else x
    case DoStart(w) =>
      if w < |x.workers| && x.workers[w].Entered? then
        x.(workers := x.workers[w := Requesting(x.clock)])
      else x
    case DoEnd(w) =>
      if w < |x.workers| && x.workers[w].Requesting? then
        x.(workers := x.workers[w := Returned(x.workers[w].start, x.clock)])
      else x
    case DoLeave(w, status) =>
      if w < |x.workers| && x.workers[w].Returned? then
        x.(workers := x.workers[w := Resting],
           ledger := Leave(x.ledger, status == 200, x.workers[w].start, x.workers[w].end))
      else x
  }

  function MakeAll(x: World, ms: seq<Move>): World
    decreases ms
  {
    if ms == [] then x else MakeAll(Make(x, ms[0]), ms[1..])
  }

  function Quiet(workers: nat): World {
    World(0.0, seq(workers, _ => Resting), Ledger(0, 0, []))
  }

  // The workers between enter and leave.
  function Active(ws: seq<Phase>): nat {
    if ws == [] then 0 else (if ws[0].Resting? then 0 else 1) + Active(ws[1..])
  }

  predicate CoversTime(p: Phase, t: real) {
    match p
    case Requesting(start) => start <= t
    case Returned(start, end) => start <= t < end
    case _ => false
  }

  // The unrecorded requests that cover time t.
  function Pending(ws: seq<Phase>, t: real): nat {
    if ws == [] then 0 else (if CoversTime(ws[0], t) then 1 else 0) + Pending(ws[1..], t)
  }

  predicate Timely(p: Phase, clock: real) {
    match p
    case Requesting(start) => start <= clock
    case Returned(start, end) => start <= end <= clock
    case _ => true
  }

  predicate WorldInv(x: World) {
    && x.ledger.inflight == Active(x.workers) && x.ledger.inflight <= x.ledger.peakInflight
    && WellTimed(x.ledger.okSpans)
    && (forall i :: 0 <= i < |x.ledger.okSpans| ==> x.ledger.okSpans[i].end <= x.clock)
    && (forall w :: 0 <= w < |x.workers| ==> Timely(x.workers[w], x.clock))
  }

  lemma {:induction false} ActiveUpdate(ws: seq<Phase>, w: nat, p: Phase)
    requires w < |ws|
    ensures Active(ws[w := p]) == Active(ws) - (if ws[w].Resting? then 0 else 1) + (if p.Resting? then 0 else 1)
  {
    if w > 0 {
      assert ws[w := p][1..] == ws[1..][w - 1 := p];
      ActiveUpdate(ws[1..], w - 1, p);
    } else {
      assert ws[w := p][1..] == ws[1..];
    }
  }

  lemma {:induction false} PendingUpdate(ws: seq<Phase>, w: nat, p: Phase, t: real)
    requires w < |ws|
    ensures Pending(ws[w := p], t) ==
            Pending(ws, t) - (if CoversTime(ws[w], t) then 1 else 0) + (if CoversTime(p, t) then 1 else 0)
  {
    if w > 0 {
      assert ws[w := p][1..] == ws[1..][w - 1 := p];
      PendingUpdate(ws[1..], w - 1, p, t);
    } else {
      assert ws[w := p][1..] == ws[1..];
    }
  }

  lemma {:induction false} PendingBelowActive(ws: seq<Phase>, t: real)
    ensures Pending(ws, t) <= Active(ws)
  {
    if ws != [] {
      PendingBelowActive(ws[1..], t);
    }
  }

  lemma {:induction false} OverlapAppend(spans: seq<Span>, s: Span, t: real)
    ensures Overlap(spans + [s], t) == Overlap(spans, t) + (if s.start <= t < s.end then 1 else 0)
  {
    if spans == [] {
      assert spans + [s] == [s];
    } else {
      assert (spans + [s])[1..] == spans[1..] + [s];
      OverlapAppend(spans[1..], s, t);
    }
  }

  lemma {:induction false} NothingAfterEnd(spans: seq<Span>, t: real)
    requires forall i :: 0 <= i < |spans| ==> spans[i].end <= t
    ensures Overlap(spans, t) == 0
  {
    if spans != [] {
      assert forall i :: 0 <= i < |spans[1..]| ==> spans[1..][i] == spans[i + 1];
      NothingAfterEnd(spans[1..], t);
    }
  }

  lemma MoveKeepsInv(x: World, m: Move)
    requires WorldInv(x)
    ensures WorldInv(Make(x, m))
  {
    match m
    case Wait(_) =>
    case DoEnter(w) => if w < |x.workers| { ActiveUpdate(x.workers, w, Entered); }
    case DoStart(w) => if w < |x.workers| { ActiveUpdate(x.workers, w, Requesting(x.clock)); }
    case DoEnd(w) =>
      if w < |x.workers| && x.workers[w].Requesting? {
        ActiveUpdate(x.workers, w, Returned(x.workers[w].start, x.clock));
      }
    case DoLeave(w, _) => if w < |x.workers| { ActiveUpdate(x.workers, w, Resting); }
  }

  // Recorded and unrecorded requests together never exceed the recorded peak,
  // at any time: a span lies inside its enter/leave interval.
  lemma MoveKeepsCover(x: World, m: Move, t: real)
    requires WorldInv(x) && Overlap(x.ledger.okSpans, t) + Pending(x.workers, t) <= x.ledger.peakInflight
    ensures var y := Make(x, m);
            Overlap(y.ledger.okSpans, t) + Pending(y.workers, t) <= y.ledger.peakInflight
  {
    match m
    case Wait(_) =>
    case DoEnter(w) => if w < |x.workers| { PendingUpdate(x.workers, w, Entered, t); }
    case DoStart(w) =>
      if w < |x.workers| && x.workers[w].Entered? {
        var y := Make(x, m);
        PendingUpdate(x.workers, w, Requesting(x.clock), t);
        MoveKeepsInv(x, m);
        if x.clock <= t {
          NothingAfterEnd(y.ledger.okSpans, t);
          PendingBelowActive(y.workers, t);
        }
      }
    case DoEnd(w) =>
      if w < |x.workers| && x.workers[w].Requesting? {
        PendingUpdate(x.workers, w, Returned(x.workers[w].start, x.clock), t);
      }
    case DoLeave(w, _) =>
      if w < |x.workers| && x.workers[w].Returned? {
        PendingUpdate(x.workers, w, Resting, t);
        OverlapAppend(x.ledger.okSpans, Span(x.workers[w].start, x.workers[w].end), t);
      }
  }

  lemma {:induction false} RunKeepsCover(x: World, ms: seq<Move>, t: real)
    requires WorldInv(x) && Overlap(x.ledger.okSpans, t) + Pending(x.workers, t) <= x.ledger.peakInflight
    ensures var y := MakeAll(x, ms);
            WorldInv(y) && Overlap(y.ledger.okSpans, t) + Pending(y.workers, t) <= y.ledger.peakInflight
    decreases ms
  {
    if ms != [] {
      MoveKeepsInv(x, ms[0]);
      MoveKeepsCover(x, ms[0], t);
      RunKeepsCover(Make(x, ms[0]), ms[1..], t);
    }
  }

  lemma {:induction false} QuietCounts(workers: nat, t: real)
    ensures Active(seq(workers, _ => Resting)) == 0 && Pending(seq(workers, _ => Resting), t) == 0
  {
    if workers > 0 {
      assert seq(workers, _ => Resting)[1..] == seq(workers - 1, _ => Resting);
      QuietCounts(workers - 1, t);
    }
  }

  // In every interleaving of any number of workers, what the sweep reports is
  // the peak number of requests served at once, and never exceeds the peak
  // number of requests in flight.
  lemma AcceptedNeverExceedsInflight(workers: nat, ms: seq<Move>)
    ensures var l := MakeAll(Quiet(workers), ms).ledger;
            IsPeakOverlap(l.okSpans, Peak(l.okSpans)) && Peak(l.okSpans) <= l.peakInflight
  {
    var l := MakeAll(Quiet(workers), ms).ledger;
    QuietCounts(workers, 0.0);
    RunKeepsCover(Quiet(workers), ms, 0.0);
    PeakIsMaximumOverlap(l.okSpans);
    var t :| Overlap(l.okSpans, t) == Peak(l.okSpans);
    QuietCounts(workers, t);
    RunKeepsCover(Quiet(workers), ms, t);
  }

  // ── what the ledger records ──────────────────────────────────────

  predicate ByWorker(m: Move, w: nat) {
    !m.Wait? && m.w == w
  }

  predicate WithoutWorker(ms: seq<Move>, w: nat) {
    forall i :: 0 <= i < |ms| ==> !ByWorker(ms[i], w)
  }

  // Others leave a worker where it is, and time goes on.
  lemma {:induction false} OthersWait(x: World, ms: seq<Move>, w: nat)
    requires w < |x.workers| && WithoutWorker(ms, w)
    ensures var y := MakeAll(x, ms);
            |y.workers| == |x.workers| && y.workers[w] == x.workers[w] && y.clock >= x.clock
    decreases ms
  {
    if ms != [] {
      assert !ByWorker(ms[0], w);
      assert forall i :: 0 <= i < |ms[1..]| ==> ms[1..][i] == ms[i + 1];
      OthersWait(Make(x, ms[0]), ms[1..], w);
    }
  }

  // Whatever the others do meanwhile, a request is recorded if and only if it
  // was answered with status 200, from the moment before it was sent to the
  // moment its answer was there.
  lemma RequestRecorded(x: World, w: nat, a: seq<Move>, b: seq<Move>, c: seq<Move>, status: int)
    requires w < |x.workers| && x.workers[w].Resting?
    requires WithoutWorker(a, w) && WithoutWorker(b, w) && WithoutWorker(c, w)
    ensures var sent := MakeAll(Make(x, DoEnter(w)), a);
            var answered := MakeAll(Make(sent, DoStart(w)), b);
            var leaving := MakeAll(Make(answered, DoEnd(w)), c);
            var left := Make(leaving, DoLeave(w, status));
            && left.ledger.okSpans == leaving.ledger.okSpans +
                 (if status == 200 then [Span(sent.clock, answered.clock)] else [])
            && left.ledger.inflight == leaving.ledger.inflight - 1 && left.workers[w].Resting?
  {
    OthersWait(Make(x, DoEnter(w)), a, w);
    var sent := MakeAll(Make(x, DoEnter(w)), a);
    OthersWait(Make(sent, DoStart(w)), b, w);
    var answered := MakeAll(Make(sent, DoStart(w)), b);
    OthersWait(Make(answered, DoEnd(w)), c, w);
  }

  // The recorded peak is the largest number of workers between enter and leave
  // at any moment of the run.
  lemma {:induction false} PeakIsReached(x: World, ms: seq<Move>)
    requires WorldInv(x)
    ensures var peak := MakeAll(x, ms).ledger.peakInflight;
            && peak >= x.ledger.peakInflight
            && (forall n :: 0 <= n <= |ms| ==> Active(MakeAll(x, ms[..n]).workers) <= peak)
            && (peak == x.ledger.peakInflight ||
                exists n :: 0 <= n <= |ms| && Active(MakeAll(x, ms[..n]).workers) == peak)
    decreases ms
  {
    if ms == [] {
      assert forall n :: 0 <= n <= |ms| ==> ms[..n] == [];
    } else {
      var y, rest := Make(x, ms[0]), ms[1..];
      MoveKeepsInv(x, ms[0]);
      PeakIsReached(y, rest);
      var peak := MakeAll(x, ms).ledger.peakInflight;
      assert ms[..0] == [];
      forall n | 1 <= n <= |ms| ensures MakeAll(x, ms[..n]) == MakeAll(y, rest[..n - 1]) {
        assert ms[..n][1..] == rest[..n - 1];
      }
      if y.ledger.peakInflight != x.ledger.peakInflight && peak == y.ledger.peakInflight {
        assert rest[..0] == [] && MakeAll(x, ms[..1]) == y;
      } else if peak != y.ledger.peakInflight {
        var n :| 0 <= n <= |rest| && Active(MakeAll(y, rest[..n]).workers) == peak;
        assert MakeAll(x, ms[..n + 1]) == MakeAll(y, rest[..n]);
      }
    }
  }

  // ── the ledger itself ────────────────────────────────────────────

  class Stats {
    var inflight: int
    var peakInflight: int
    var okSpans: seq<Span>

    function View(): Ledger
      reads this
    {
      Ledger(inflight, peakInflight, okSpans)
    }

    constructor ()
      ensures View() == Ledger(0, 0, [])
    {
      inflight, peakInflight, okSpans := 0, 0, [];
    }

    method EnterRequest()
      modifies this
      ensures View() == Enter(old(View()))
      ensures inflight == old(inflight) + 1 && okSpans == old(okSpans)
      ensures peakInflight == Max(old(peakInflight), inflight)
    {
      inflight := inflight + 1;
      peakInflight := Max(peakInflight, inflight);
    }

    method LeaveRequest(status: int, started: real, ended: real)
      modifies this
      ensures View() == Leave(old(View()), status == 200, started, ended)
      ensures inflight == old(inflight) - 1 && peakInflight == old(peakInflight)
      ensures okSpans == old(okSpans) + (if status == 200 then [Span(started, ended)] else [])
    {
      if status == 200 {
        okSpans := okSpans + [Span(started, ended)];
      }
      inflight := inflight - 1;
    }

    method PeakAccepted() returns (peak: nat)
      ensures peak == Peak(okSpans)
      ensures WellTimed(okSpans) ==> IsPeakOverlap(okSpans, peak)
    {
      if WellTimed(okSpans) {
        PeakIsMaximumOverlap(okSpans);
      }
      if okSpans == [] {
        return 0;
      }
      var events := Sort(Starts(okSpans) + Ends(okSpans));
      var cur: int := 0;
      peak := 0;
      for i := 0 to |events|
        invariant cur == Level(events, i) && peak == Crest(events, i)
      {
        cur := cur + events[i].delta;
        peak := Max(peak, cur);
      }
    }
  }
}
