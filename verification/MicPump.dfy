// The microphone pump of agent/ovs_agent/app_base.py (_mic_pump) and its
// pre-roll ring (agent/ovs_agent/audio/vad_gate.py): which captured chunks
// reach the speech service as real audio, and in which order.
//
// A chunk is known by its capture index. What it holds, and makeup gain, play
// no part here.
module MicPump {
  import opened Prelude

  // ── the pre-roll ring ────────────────────────────────────────────

  // A bounded queue: appending to a full one forgets its oldest element.
  function Push<T>(buf: seq<T>, max: nat, x: T): (b: seq<T>)
  {
    var all := buf + [x];
    if |all| > max then all[|all| - max..] else all
  }

  class PrerollRing<T> {
    const max: nat
    var buf: seq<T>

    constructor (max: nat)
      ensures this.max == Max(1, max) && buf == []
    {
      this.max := Max(1, max);
      buf := [];
    }

    method Append(x: T)
      modifies this
      ensures buf == Push(old(buf), max, x)
    {
      buf := buf + [x];
      if |buf| > max {
        buf := buf[|buf| - max..];
      }
    }

    method Drain() returns (out: seq<T>)
      modifies this
      ensures out == old(buf) && buf == []
    {
      if buf == [] {
        return [];
      }
      out := buf;
      buf := [];
    }

    method Clear()
      modifies this
      ensures buf == []
    {
      buf := [];
    }
  }

  // ── the pump over a stream of decisions ──────────────────────────

  // What happens to a captured chunk: dropped outright (asleep, reconnecting,
  // wake-word tail, a local tone), held back, or let through.
  datatype Decision = Drop | Shut | Open

  datatype Flow = Flow(ring: seq<nat>, sent: seq<nat>)

  function Pass(max: nat, f: Flow, d: Decision, at: nat): Flow {
    match d
    case Drop => f.(ring := [])
    case Shut => f.(ring := Push(f.ring, max, at))
    case Open => Flow([], f.sent + f.ring + [at])
  }

  function Pump(max: nat, ds: seq<Decision>): Flow {
    if ds == [] then Flow([], []) else Pass(max, Pump(max, ds[..|ds| - 1]), ds[|ds| - 1], |ds| - 1)
  }

  // The captures lo, lo + 1, ..., hi - 1.
  function Range(lo: nat, hi: nat): (r: seq<nat>)
    requires lo <= hi
    ensures |r| == hi - lo
    ensures forall k {:trigger r[k]} :: 0 <= k < |r| ==> r[k] == lo + k
  {
    seq(hi - lo, k requires 0 <= k < hi - lo => lo + k)
  }

  // How many chunks in a row were held back just before n.
  function ShutRun(ds: seq<Decision>, n: nat): (r: nat)
    requires n <= |ds|
    ensures r <= n
  {
    if n > 0 && ds[n - 1] == Shut then ShutRun(ds, n - 1) + 1 else 0
  }

  function Kept(max: nat, ds: seq<Decision>): (k: nat)
    ensures k <= |ds|
  {
    var r := ShutRun(ds, |ds|);
    if r < max then r else max
  }

  lemma {:induction false} ShutRunPrefix(ds: seq<Decision>, m: nat, n: nat)
    requires n <= m <= |ds|
    ensures ShutRun(ds[..m], n) == ShutRun(ds, n)
  {
    if n > 0 {
      assert ds[..m][n - 1] == ds[n - 1];
      ShutRunPrefix(ds, m, n - 1);
    }
  }

  // The ring holds the latest held-back chunks, an unbroken run that ends at
  // the present and never exceeds the limit.
  lemma {:induction false} RingIsRecent(max: nat, ds: seq<Decision>)
    requires max >= 1
    ensures Pump(max, ds).ring == Range(|ds| - Kept(max, ds), |ds|)
  {
    if ds != [] {
      var n := |ds| - 1;
      RingIsRecent(max, ds[..n]);
      ShutRunPrefix(ds, n, n);
    }
  }

  // Whenever the pump opens, what it replays is the unbroken block of chunks
  // held back just before, at most the pre-roll limit of them, followed by the
  // chunk itself.
  lemma OnsetReplaysPreroll(max: nat, ds: seq<Decision>)
    requires max >= 1
    ensures Pump(max, ds + [Open]).sent
            == Pump(max, ds).sent + Range(|ds| - Kept(max, ds), |ds| + 1)
    ensures Kept(max, ds) <= max
  {
    RingIsRecent(max, ds);
    assert (ds + [Open])[..|ds|] == ds;
    assert Range(|ds| - Kept(max, ds), |ds|) + [|ds|] == Range(|ds| - Kept(max, ds), |ds| + 1);
  }

  // Declaratively: a chunk is forwarded when it was let through, or held back
  // within the limit of the next chunk let through, with nothing dropped in
  // between.
  predicate Replayed(max: nat, ds: seq<Decision>, i: nat, k: nat)
    requires i < k < |ds|
  {
    ds[k] == Open && k - i <= max && forall j :: i <= j < k ==> ds[j] == Shut
  }

  predicate Forwarded(max: nat, ds: seq<Decision>, i: nat)
    requires i < |ds|
  {
    ds[i] == Open || exists k :: i < k < |ds| && Replayed(max, ds, i, k)
  }

  predicate Increasing(s: seq<nat>) {
    forall i, j :: 0 <= i < j < |s| ==> s[i] < s[j]
  }

  lemma {:induction false} ShutRunMeaning(ds: seq<Decision>, n: nat, i: nat)
    requires i < n <= |ds|
    ensures n - i <= ShutRun(ds, n) <==> forall j :: i <= j < n ==> ds[j] == Shut
  {
    if ds[n - 1] == Shut && i < n - 1 {
      ShutRunMeaning(ds, n - 1, i);
    }
  }

  lemma ForwardedGrows(max: nat, ds: seq<Decision>, i: nat)
    requires max >= 1 && ds != [] && i < |ds| - 1
    ensures var n := |ds| - 1;
            Forwarded(max, ds, i) <==>
            Forwarded(max, ds[..n], i) || (ds[n] == Open && i >= n - Kept(max, ds[..n]))
  {
    var n := |ds| - 1;
    var ds' := ds[..n];
    ShutRunPrefix(ds, n, n);
    ShutRunMeaning(ds, n, i);
    if Forwarded(max, ds, i) && ds[i] != Open {
      var k :| i < k < |ds| && Replayed(max, ds, i, k);
      if k < n {
        assert Replayed(max, ds', i, k);
      }
    }
    if Forwarded(max, ds', i) && ds[i] != Open {
      var k :| i < k < |ds'| && Replayed(max, ds', i, k);
      assert forall j :: i <= j < k ==> ds[j] == ds'[j];
      assert Replayed(max, ds, i, k);
    }
    if ds[n] == Open && i >= n - Kept(max, ds') {
      assert Replayed(max, ds, i, n);
    }
  }

  // A chunk behind an open one is never replayed again.
  lemma {:induction false} SentBeforeRing(max: nat, ds: seq<Decision>)
    requires max >= 1
    ensures forall x :: x in Pump(max, ds).sent ==> x < |ds| - Kept(max, ds)
  {
    if ds != [] {
      SentBeforeRing(max, ds[..|ds| - 1]);
      RingIsRecent(max, ds[..|ds| - 1]);
      ShutRunPrefix(ds, |ds| - 1, |ds| - 1);
    }
  }

  lemma IncreasingConcat(a: seq<nat>, b: seq<nat>, bound: nat)
    requires Increasing(a) && Increasing(b)
    requires (forall x :: x in a ==> x < bound) && (forall x :: x in b ==> x >= bound)
    ensures Increasing(a + b)
  {
    forall i, j | 0 <= i < j < |a + b| ensures (a + b)[i] < (a + b)[j] {
      if i < |a| <= j {
        assert (a + b)[i] in a && (a + b)[j] in b;
      }
    }
  }

  // Over every stream: real audio goes out in strictly increasing capture
  // order, so no chunk twice, and exactly the forwarded chunks go out.
  lemma {:induction false} RealAudioExactly(max: nat, ds: seq<Decision>)
    requires max >= 1
    ensures Increasing(Pump(max, ds).sent)
    ensures forall i: nat :: i in Pump(max, ds).sent <==> i < |ds| && Forwarded(max, ds, i)
  {
    if ds != [] {
      var n := |ds| - 1;
      var f, f' := Pump(max, ds[..n]), Pump(max, ds);
      RealAudioExactly(max, ds[..n]);
      RingIsRecent(max, ds[..n]);
      SentBeforeRing(max, ds[..n]);
      if ds[n] == Open {
        assert f'.sent == f.sent + (f.ring + [n]);
        IncreasingConcat(f.sent, f.ring + [n], n - Kept(max, ds[..n]));
      }
      forall i: nat ensures i in f'.sent <==> i < |ds| && Forwarded(max, ds, i) {
        if i < n {
          ForwardedGrows(max, ds, i);
          InRing(max, ds[..n], i);
        }
      }
    }
  }

  lemma InRing(max: nat, ds: seq<Decision>, i: nat)
    requires max >= 1
    ensures i in Pump(max, ds).ring <==> |ds| - Kept(max, ds) <= i < |ds|
  {
    RingIsRecent(max, ds);
    var lo := |ds| - Kept(max, ds);
    if lo <= i < |ds| {
      assert Range(lo, |ds|)[i - lo] == i;
    }
  }

  // ── the energy gate ──────────────────────────────────────────────

  datatype GateConfig = GateConfig(openRms: real, closeRms: real, hangoverMs: real, driveEos: bool, minSpeechMs: real)

  // A captured chunk: dropped, or measured at a moment in time.
  datatype Sound = Lost | Measured(rms: real, now: real)

  datatype Gate = Gate(open: Latch, openedAt: real, lastLoud: real)

  const CLOSED := Gate(Off, 0.0, 0.0)

  predicate Loud(cfg: GateConfig, x: Sound) {
    x.Measured? && x.rms >= cfg.openRms
  }

  // Quiet for long enough after the last loud chunk.
  predicate Lapsed(cfg: GateConfig, x: Sound, lastLoud: real) {
    x.Measured? && x.rms < cfg.openRms && x.rms < cfg.closeRms && (x.now - lastLoud) * 1000.0 >= cfg.hangoverMs
  }

  function Listen(cfg: GateConfig, g: Gate, x: Sound): Gate {
    if x.Lost? then CLOSED
    else if Loud(cfg, x) then Gate(On, if g.open.On? then g.openedAt else x.now, x.now)
    else if Lapsed(cfg, x, g.lastLoud) then g.(open := Off)
    else g
  }

  function GateAfter(cfg: GateConfig, xs: seq<Sound>): Gate {
    if xs == [] then CLOSED else Listen(cfg, GateAfter(cfg, xs[..|xs| - 1]), xs[|xs| - 1])
  }

  function Decide(g: Gate): Decision {
    if g.open.On? then Open else Shut
  }

  // Chunk j is the loud chunk that still holds the gate open after n chunks.
  predicate HoldsOpen(cfg: GateConfig, xs: seq<Sound>, j: nat, n: nat)
    requires j < n <= |xs|
  {
    && xs[j].Measured? && xs[j].rms >= cfg.openRms
    && forall i :: j < i < n ==>
         && xs[i].Measured? && xs[i].rms < cfg.openRms
         && (xs[i].rms < cfg.closeRms ==> (xs[i].now - xs[j].now) * 1000.0 < cfg.hangoverMs)
  }

  lemma {:induction false} LastLoudChunk(cfg: GateConfig, xs: seq<Sound>) returns (j: nat)
    requires GateAfter(cfg, xs).open.On?
    ensures j < |xs| && HoldsOpen(cfg, xs, j, |xs|) && GateAfter(cfg, xs).lastLoud == xs[j].now
  {
    var n := |xs| - 1;
    if Loud(cfg, xs[n]) {
      j := n;
    } else {
      j := LastLoudChunk(cfg, xs[..n]);
      assert forall i :: j < i < n ==> xs[..n][i] == xs[i];
      assert HoldsOpen(cfg, xs[..n], j, n);
    }
  }

  lemma {:induction false} HeldOpen(cfg: GateConfig, xs: seq<Sound>, j: nat)
    requires j < |xs| && HoldsOpen(cfg, xs, j, |xs|)
    ensures GateAfter(cfg, xs).open.On? && GateAfter(cfg, xs).lastLoud == xs[j].now
    decreases |xs|
  {
    var n := |xs| - 1;
    if j < n {
      assert forall i :: j <= i < n ==> xs[..n][i] == xs[i];
      HeldOpen(cfg, xs[..n], j);
    }
  }

  // Hysteresis, declaratively: the gate is open exactly when some loud chunk
  // has since been followed by no dropped chunk and by no quiet chunk later
  // than the hangover.
  lemma GateIsHysteresis(cfg: GateConfig, xs: seq<Sound>)
    ensures GateAfter(cfg, xs).open.On? <==> exists j :: 0 <= j < |xs| && HoldsOpen(cfg, xs, j, |xs|)
  {
    if GateAfter(cfg, xs).open.On? {
      var j := LastLoudChunk(cfg, xs);
    }
    if j :| 0 <= j < |xs| && HoldsOpen(cfg, xs, j, |xs|) {
      HeldOpen(cfg, xs, j);
    }
  }

  // Chunk i opened the gate, which has been open since.
  predicate OpensStretch(cfg: GateConfig, xs: seq<Sound>, i: nat)
    requires i < |xs|
  {
    && xs[i].Measured? && xs[i].rms >= cfg.openRms && GateAfter(cfg, xs[..i]).open.Off?
    && forall k :: i < k <= |xs| ==> GateAfter(cfg, xs[..k]).open.On?
  }

  lemma {:induction false} StretchOpened(cfg: GateConfig, xs: seq<Sound>) returns (i: nat)
    requires GateAfter(cfg, xs).open.On?
    ensures i < |xs| && OpensStretch(cfg, xs, i)
    decreases |xs|
  {
    var n := |xs| - 1;
    assert xs[..n + 1] == xs;
    if GateAfter(cfg, xs[..n]).open.Off? {
      i := n;
    } else {
      i := StretchOpened(cfg, xs[..n]);
      assert forall k :: 0 <= k <= n ==> xs[..n][..k] == xs[..k];
    }
  }

  lemma {:induction false} OpenedAtStretch(cfg: GateConfig, xs: seq<Sound>, i: nat)
    requires i < |xs| && OpensStretch(cfg, xs, i)
    ensures GateAfter(cfg, xs).openedAt == xs[i].now
    decreases |xs|
  {
    var n := |xs| - 1;
    assert xs[..n + 1] == xs;
    if i < n {
      assert forall k :: 0 <= k <= n ==> xs[..n][..k] == xs[..k];
      assert GateAfter(cfg, xs[..n]).open.On?;
      OpenedAtStretch(cfg, xs[..n], i);
    }
  }

  // A chunk ends the user's turn exactly when it is quiet for the hangover
  // after the last loud chunk j of a stretch that chunk i opened, and from i to
  // j the user spoke for long enough.
  predicate ClosesSegment(cfg: GateConfig, xs: seq<Sound>, x: Sound, i: nat, j: nat)
    requires i < |xs| && j < |xs|
  {
    && OpensStretch(cfg, xs, i) && HoldsOpen(cfg, xs, j, |xs|)
    && x.Measured? && x.rms < cfg.openRms && x.rms < cfg.closeRms
    && (x.now - xs[j].now) * 1000.0 >= cfg.hangoverMs
    && (xs[j].now - xs[i].now) * 1000.0 >= cfg.minSpeechMs
  }

  ghost predicate EndsSegment(cfg: GateConfig, xs: seq<Sound>, x: Sound) {
    cfg.driveEos && exists i, j :: 0 <= i < |xs| && 0 <= j < |xs| && ClosesSegment(cfg, xs, x, i, j)
  }

  lemma EndsTurnExactly(cfg: GateConfig, xs: seq<Sound>, x: Sound)
    requires x.Measured?
    ensures EndsTurn(cfg, GateAfter(cfg, xs), GateAfter(cfg, xs + [x])) <==> EndsSegment(cfg, xs, x)
  {
    assert (xs + [x])[..|xs|] == xs;
    if EndsTurn(cfg, GateAfter(cfg, xs), GateAfter(cfg, xs + [x])) {
      var i := StretchOpened(cfg, xs);
      var j := LastLoudChunk(cfg, xs);
      OpenedAtStretch(cfg, xs, i);
      assert ClosesSegment(cfg, xs, x, i, j);
    }
    if i, j :| 0 <= i < |xs| && 0 <= j < |xs| && ClosesSegment(cfg, xs, x, i, j) {
      HeldOpen(cfg, xs, j);
      OpenedAtStretch(cfg, xs, i);
    }
  }

  // ── the pump itself ──────────────────────────────────────────────

  // What is written to the service.
  datatype Frame = Real(index: nat) | Zeros | Eos

  function RealFrames(frames: seq<Frame>): seq<nat> {
    if frames == [] then []
    else RealFrames(frames[..|frames| - 1]) +
         (if frames[|frames| - 1].Real? then [frames[|frames| - 1].index] else [])
  }

  lemma RealAppend(frames: seq<Frame>, f: Frame)
    ensures RealFrames(frames + [f]) == RealFrames(frames) + (if f.Real? then [f.index] else [])
  {
    assert (frames + [f])[..|frames|] == frames;
  }

  lemma PumpStep(max: nat, ds: seq<Decision>, d: Decision)
    ensures Pump(max, ds + [d]) == Pass(max, Pump(max, ds), d, |ds|)
  {
    assert (ds + [d])[..|ds|] == ds;
  }

  class Pumping {
    const cfg: GateConfig
    const preroll: PrerollRing<nat>
    var captured: nat
    var gateOpen: bool
    var gateOpenedAt: real
    var gateLastLoud: real
    var wire: seq<Frame>
    ghost var heard: seq<Sound>            // what the gate was given
    ghost var decisions: seq<Decision>     // what became of each capture

    ghost function GateNow(): Gate
      reads this
    {
      Gate(Flag(gateOpen), gateOpenedAt, gateLastLoud)
    }

    // The chunks that wait, and the real audio sent.
    ghost function FlowNow(): Flow
      reads this, preroll
    {
      Flow(preroll.buf, RealFrames(wire))
    }

    // Ring and wire are those of the specification for the decisions taken; an
    // open gate leaves nothing to replay.
    ghost predicate Valid()
      reads this, preroll
    {
      && preroll.max >= 1 && captured == |decisions|
      && GateNow() == GateAfter(cfg, heard)
      && FlowNow() == Pump(preroll.max, decisions)
      && (gateOpen ==> preroll.buf == [])
    }

    constructor (cfg: GateConfig, prerollMax: nat)
      ensures Valid() && heard == [] && decisions == [] && fresh(preroll) && this.cfg == cfg
      ensures preroll.max == Max(1, prerollMax)
    {
      this.cfg := cfg;
      preroll := new PrerollRing<nat>(prerollMax);
      captured := 0;
      gateOpen, gateOpenedAt, gateLastLoud := false, 0.0, 0.0;
      wire := [];
      heard, decisions := [], [];
    }

    // A chunk that must not be heard also forgets what came before it.
    method DropChunk()
      requires Valid()
      modifies this, preroll
      ensures Valid() && wire == old(wire)
      ensures heard == old(heard) + [Lost] && decisions == old(decisions) + [Drop]
    {
      assert (heard + [Lost])[..|heard|] == heard;
      PumpStep(preroll.max, decisions, Drop);
      preroll.Clear();
      gateOpen := false;
      gateOpenedAt := 0.0;
      gateLastLoud := 0.0;
      captured := captured + 1;
      heard, decisions := heard + [Lost], decisions + [Drop];
    }

    method ReplayPreroll()
      modifies this`wire, preroll
      ensures preroll.buf == [] && RealFrames(wire) == RealFrames(old(wire)) + old(preroll.buf)
    {
      var buffered := preroll.Drain();
      for i := 0 to |buffered|
        invariant preroll.buf == [] && RealFrames(wire) == RealFrames(old(wire)) + buffered[..i]
      {
        RealAppend(wire, Real(buffered[i]));
        wire := wire + [Real(buffered[i])];
        assert buffered[..i + 1] == buffered[..i] + [buffered[i]];
      }
    }

    // With a client detector: stream while it hears speech, buffer otherwise.
    method VadChunk(speech: bool)
      requires Valid() && !gateOpen
      modifies this, preroll
      ensures Valid() && heard == old(heard) && !gateOpen
      ensures decisions == old(decisions) + [if speech then Open else Shut]
      ensures RealFrames(wire) == old(RealFrames(wire)) + if speech then old(preroll.buf) + [old(captured)] else []
    {
      ghost var d := if speech then Open else Shut;
      PumpStep(preroll.max, decisions, d);
      ConcatAssoc(RealFrames(wire), preroll.buf, [captured]);
      if speech {
        ReplayPreroll();
        RealAppend(wire, Real(captured));
        wire := wire + [Real(captured)];
      } else {
        preroll.Append(captured);
      }
      captured := captured + 1;
      decisions := decisions + [d];
    }

    // Open or close the gate on a measured chunk, replaying the pre-roll when
    // it opens; report whether this edge ends the user's turn.
    method UpdateGate(rms: real, now: real) returns (pendingEos: bool)
      requires Valid()
      modifies this`gateOpen, this`gateOpenedAt, this`gateLastLoud, this`wire, preroll
      ensures GateNow() == GateAfter(cfg, heard + [Measured(rms, now)])
      ensures var f := old(FlowNow()); FlowNow() == if gateOpen then Flow([], f.sent + f.ring) else f
      ensures pendingEos == EndsTurn(cfg, GateAfter(cfg, heard), GateAfter(cfg, heard + [Measured(rms, now)]))
    {
      assert (heard + [Measured(rms, now)])[..|heard|] == heard;
      pendingEos := false;
      if rms >= cfg.openRms {
        if !gateOpen {
          gateOpenedAt := now;
          ReplayPreroll();
        }
        gateOpen := true;
        gateLastLoud := now;
      } else if rms < cfg.closeRms {
        if (now - gateLastLoud) * 1000.0 >= cfg.hangoverMs {
          if gateOpen && cfg.driveEos && (gateLastLoud - gateOpenedAt) * 1000.0 >= cfg.minSpeechMs {
            pendingEos := true;
          }
          gateOpen := false;
        }
      }
    }

    // Send the chunk, or silence in its place while it waits in the ring.
    method Forward()
      modifies this`wire, preroll
      ensures wire == old(wire) + [if gateOpen then Real(captured) else Zeros]
      ensures var f := old(FlowNow());
              FlowNow() == if gateOpen then Flow(f.ring, f.sent + [captured])
                           else Flow(Push(f.ring, preroll.max, captured), f.sent)
    {
      if gateOpen {
        RealAppend(wire, Real(captured));
        wire := wire + [Real(captured)];
      } else {
        RealAppend(wire, Zeros);
        preroll.Append(captured);
        wire := wire + [Zeros];
      }
    }

    // A chunk through the gate, before the edge is acted on.
    method CarryChunk(rms: real, now: real) returns (pendingEos: bool)
      requires Valid()
      modifies this, preroll
      ensures Valid() && heard == old(heard) + [Measured(rms, now)]
      ensures decisions == old(decisions) + [Decide(GateAfter(cfg, heard))]
      ensures wire != [] && wire[|wire| - 1] == if gateOpen then Real(old(captured)) else Zeros
      ensures RealFrames(wire) == old(RealFrames(wire)) + if gateOpen then old(preroll.buf) + [old(captured)] else []
      ensures pendingEos == EndsTurn(cfg, GateAfter(cfg, old(heard)), GateAfter(cfg, heard))
    {
      ghost var d := Decide(GateAfter(cfg, heard + [Measured(rms, now)]));
      PumpStep(preroll.max, decisions, d);
      ConcatAssoc(RealFrames(wire), preroll.buf, [captured]);
      pendingEos := UpdateGate(rms, now);
      Forward();
      captured := captured + 1;
      heard := heard + [Measured(rms, now)];
      decisions := decisions + [d];
    }

    // A chunk through the gate. It is sent, after all that waited, exactly while
    // a loud chunk holds the gate open; an end of speech follows the chunk that
    // closes a segment.
    method GateChunk(rms: real, now: real)
      requires Valid()
      modifies this, preroll
      ensures Valid() && heard == old(heard) + [Measured(rms, now)]
      ensures decisions == old(decisions) + [Decide(GateAfter(cfg, heard))]
      ensures gateOpen <==> exists j :: 0 <= j < |heard| && HoldsOpen(cfg, heard, j, |heard|)
      ensures RealFrames(wire) == old(RealFrames(wire)) + if gateOpen then old(preroll.buf) + [old(captured)] else []
      ensures wire != []
      ensures wire[|wire| - 1] == Eos <==> EndsSegment(cfg, old(heard), Measured(rms, now))
    {
      EndsTurnExactly(cfg, heard, Measured(rms, now));
      var pendingEos := CarryChunk(rms, now);
      GateIsHysteresis(cfg, heard);
      if pendingEos {
        RealAppend(wire, Eos);
        wire := wire + [Eos];
      }
    }
  }

  // The gate closes on a segment long enough to end the user's turn.
  predicate EndsTurn(cfg: GateConfig, before: Gate, after: Gate) {
    cfg.driveEos && before.open.On? && after.open.Off? &&
    (before.lastLoud - before.openedAt) * 1000.0 >= cfg.minSpeechMs
  }
}
