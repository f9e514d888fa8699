// Streaming windows of the neural voice detector (agent/ovs_agent/vad.py).
//
// The network is a parameter: a pure function of the samples it is given and
// of its recurrent state. What is verified is the windowing around it.
module SileroVad {
  import opened Prelude

  function Window(sampleRate: int): nat { if sampleRate == 16000 then 512 else 256 }

  function Context(sampleRate: int): nat { if sampleRate == 16000 then 64 else 32 }

  // Windows of 32 ms behind 4 ms of context, at both rates the model knows.
  lemma WindowMs(sampleRate: int)
    requires sampleRate == 16000 || sampleRate == 8000
    ensures Window(sampleRate) * 1000 == 32 * sampleRate && Context(sampleRate) * 1000 == 4 * sampleRate
  {
  }

  datatype Net<!S> = Net(sampleRate: int, threshold: real, rest: S, run: (seq<real>, S) -> (real, S))
  {
    function Win(): (w: nat) ensures w > 0 { Window(sampleRate) }
    function Ctx(): (c: nat) ensures c <= Win() { Context(sampleRate) }
  }

  // The detector between calls.
  datatype Memory<S> = Memory(buf: seq<real>, ctx: seq<real>, state: S)

  // What a call leaves behind, the inputs it gave to the network, its verdict.
  datatype Heard<S> = Heard(mem: Memory<S>, inputs: seq<(seq<real>, S)>, speech: bool)

  function Zeros(n: nat): (z: seq<real>)
    ensures |z| == n
  {
    seq(n, _ => 0.0)
  }

  function Fresh<S>(net: Net<S>): Memory<S> {
    Memory([], Zeros(net.Ctx()), net.rest)
  }

  function Scale(pcm: seq<int>): (s: seq<real>)
    ensures |s| == |pcm| && forall i :: 0 <= i < |pcm| ==> s[i] * 32768.0 == pcm[i] as real
  {
    seq(|pcm|, i requires 0 <= i < |pcm| => pcm[i] as real / 32768.0)
  }

  // Consume every whole window in the buffer.
  function Drain<S>(net: Net<S>, m: Memory<S>): Heard<S>
    requires |m.ctx| == net.Ctx()
    decreases |m.buf|
  {
    if |m.buf| < net.Win() then Heard(m, [], false)
    else
      var x := m.ctx + m.buf[..net.Win()];
      var (prob, state') := net.run(x, m.state);
      var rest := Drain(net, Memory(m.buf[net.Win()..], x[|x| - net.Ctx()..], state'));
      Heard(rest.mem, [(x, m.state)] + rest.inputs, prob >= net.threshold || rest.speech)
  }

  // One call on whole samples.
  function Hear<S>(net: Net<S>, m: Memory<S>, samples: seq<real>): Heard<S>
    requires |m.ctx| == net.Ctx()
  {
    Drain(net, m.(buf := m.buf + samples))
  }

  // Several calls in a row: the memory threads through, the inputs append, the
  // verdicts are or-ed.
  function HearAll<S>(net: Net<S>, m: Memory<S>, chunks: seq<seq<real>>): (h: Heard<S>)
    requires |m.ctx| == net.Ctx()
    decreases |chunks|
  {
    if chunks == [] then Heard(m, [], false)
    else
      DrainShape(net, m.(buf := m.buf + chunks[0]));
      var first := Hear(net, m, chunks[0]);
      var rest := HearAll(net, first.mem, chunks[1..]);
      Heard(rest.mem, first.inputs + rest.inputs, first.speech || rest.speech)
  }

  function Flat(chunks: seq<seq<real>>): seq<real> {
    if chunks == [] then [] else chunks[0] + Flat(chunks[1..])
  }

  // Less than a window is left over, and the context keeps its width.
  lemma {:induction false} DrainShape<S>(net: Net<S>, m: Memory<S>)
    requires |m.ctx| == net.Ctx()
    ensures |Drain(net, m).mem.buf| < net.Win()
    ensures |Drain(net, m).mem.ctx| == net.Ctx()
    decreases |m.buf|
  {
    if |m.buf| >= net.Win() {
      var x := m.ctx + m.buf[..net.Win()];
      var (_, state') := net.run(x, m.state);
      DrainShape(net, Memory(m.buf[net.Win()..], x[|x| - net.Ctx()..], state'));
    }
  }

  // Draining now or together with what comes next is the same.
  lemma {:induction false} DrainLater<S>(net: Net<S>, m: Memory<S>, more: seq<real>)
    requires |m.ctx| == net.Ctx()
    ensures |Drain(net, m).mem.ctx| == net.Ctx()
    ensures var first := Drain(net, m);
            var second := Hear(net, first.mem, more);
            Drain(net, m.(buf := m.buf + more)) ==
              Heard(second.mem, first.inputs + second.inputs, first.speech || second.speech)
    decreases |m.buf|
  {
    if |m.buf| >= net.Win() {
      var w := net.Win();
      DropFirst(m.buf, more, w);
      var x := m.ctx + m.buf[..w];
      var (_, state') := net.run(x, m.state);
      var next := Memory(m.buf[w..], x[|x| - net.Ctx()..], state');
      DrainLater(net, next, more);
      assert next.(buf := next.buf + more) == Memory((m.buf + more)[w..], x[|x| - net.Ctx()..], state');
      var rest, second := Drain(net, next), Hear(net, Drain(net, next).mem, more);
      ConcatAssoc([(x, m.state)], rest.inputs, second.inputs);
    }
  }

  // Two calls are worth one call on both pieces.
  lemma HearTwice<S>(net: Net<S>, m: Memory<S>, a: seq<real>, b: seq<real>)
    requires |m.ctx| == net.Ctx()
    ensures |Hear(net, m, a).mem.ctx| == net.Ctx() && |Hear(net, m, a).mem.buf| < net.Win()
    ensures var first := Hear(net, m, a);
            var second := Hear(net, first.mem, b);
            Hear(net, m, a + b) ==
              Heard(second.mem, first.inputs + second.inputs, first.speech || second.speech)
  {
    DrainShape(net, m.(buf := m.buf + a));
    DrainLater(net, m.(buf := m.buf + a), b);
    assert m.buf + (a + b) == (m.buf + a) + b;
  }

  lemma HearNothing<S>(net: Net<S>, m: Memory<S>)
    requires |m.ctx| == net.Ctx() && |m.buf| < net.Win()
    ensures Hear(net, m, []) == Heard(m, [], false)
  {
    assert m.buf + [] == m.buf;
  }

  // Chunking does not matter: however a stream is cut, the detector ends with
  // the same memory, has given the network the same inputs, and the
  // disjunction of its verdicts is the one-shot verdict.
  lemma {:induction false} ChunkingInvariant<S>(net: Net<S>, m: Memory<S>, chunks: seq<seq<real>>)
    requires |m.ctx| == net.Ctx() && |m.buf| < net.Win()
    ensures HearAll(net, m, chunks) == Hear(net, m, Flat(chunks))
    decreases |chunks|
  {
    if chunks == [] {
      HearNothing(net, m);
    } else {
      HearTwice(net, m, chunks[0], Flat(chunks[1..]));
      ChunkingInvariant(net, Hear(net, m, chunks[0]).mem, chunks[1..]);
    }
  }

  // ── what the network sees ────────────────────────────────────────

  // The span of context and samples that window k covers.
  function Slice(line: seq<real>, k: nat, w: nat, c: nat): (x: seq<real>)
    requires (k + 1) * w + c <= |line|
  {
    WindowBounds(k, w);
    line[k * w..(k + 1) * w + c]
  }

  lemma WindowBounds(k: nat, w: nat)
    ensures 0 <= k * w && (k + 1) * w == k * w + w
  {
  }

  lemma SliceShift(line: seq<real>, k: nat, w: nat, c: nat)
    requires (k + 2) * w + c <= |line|
    ensures w <= |line| && (k + 1) * w + c <= |line| - w
    ensures Slice(line, k + 1, w, c) == Slice(line[w..], k, w, c)
  {
    WindowBounds(k, w);
    WindowBounds(k + 1, w);
    var lo := k * w;
    assert line[w..][lo..lo + w + c] == line[lo + w..lo + w + w + c];
  }

  // The inputs are the whole windows of the stream, each preceded by the
  // samples just before it, and the rest of the stream is left over.
  predicate Covers<S>(net: Net<S>, before: seq<real>, stream: seq<real>, h: Heard<S>)
    requires |before| == net.Ctx()
  {
    var w := net.Win();
    var q := |h.inputs|;
    && 0 <= q * w <= |stream| < (q + 1) * w
    && h.mem.buf == stream[q * w..]
    && forall k :: 0 <= k < q ==> CoversAt(net, before, stream, h, k)
  }

  predicate CoversAt<S>(net: Net<S>, before: seq<real>, stream: seq<real>, h: Heard<S>, k: nat)
    requires |before| == net.Ctx() && k < |h.inputs|
  {
    (k + 1) * net.Win() <= |stream| &&
    h.inputs[k].0 == Slice(before + stream, k, net.Win(), net.Ctx())
  }

  // Context and window are the front of the line; what comes next is the line
  // without its first window.
  lemma FirstWindow(ctx: seq<real>, buf: seq<real>, w: nat)
    requires |ctx| <= w <= |buf|
    ensures var x, line := ctx + buf[..w], ctx + buf;
            line[0..w + |ctx|] == x && line[w..] == x[|x| - |ctx|..] + buf[w..]
  {
  }

  lemma {:induction false} InputsAre<S>(net: Net<S>, m: Memory<S>)
    requires |m.ctx| == net.Ctx()
    ensures Covers(net, m.ctx, m.buf, Drain(net, m))
    decreases |m.buf|
  {
    var w, c := net.Win(), net.Ctx();
    if |m.buf| >= w {
      var x := m.ctx + m.buf[..w];
      var (_, state') := net.run(x, m.state);
      var next := Memory(m.buf[w..], x[|x| - c..], state');
      InputsAre(net, next);
      var rest, h := Drain(net, next), Drain(net, m);
      var q := |rest.inputs|;
      WindowBounds(q, w);
      WindowBounds(q + 1, w);
      var lo := q * w;
      TailSlices(m.buf, w, lo + w);
      var line := m.ctx + m.buf;
      FirstWindow(m.ctx, m.buf, w);
      forall k | 0 <= k < q + 1 ensures CoversAt(net, m.ctx, m.buf, h, k) {
        if k > 0 {
          assert CoversAt(net, next.ctx, next.buf, rest, k - 1);
          WindowBounds(k - 1, w);
          WindowBounds(k, w);
          SliceShift(line, k - 1, w, c);
        } else {
          assert 0 * w == 0 && (0 + 1) * w == w;
        }
      }
    }
  }

  // From a fresh detector, over any chunking of a whole stream.
  lemma StreamInputs<S>(net: Net<S>, chunks: seq<seq<real>>)
    ensures Covers(net, Zeros(net.Ctx()), Flat(chunks), HearAll(net, Fresh(net), chunks))
  {
    ChunkingInvariant(net, Fresh(net), chunks);
    assert [] + Flat(chunks) == Flat(chunks);
    InputsAre(net, Memory(Flat(chunks), Zeros(net.Ctx()), net.rest));
  }

  // ── what the verdict says ────────────────────────────────────────

  // The recurrent state before window k: what the network returned for the
  // window before, starting from the memory's.
  function StateAt<S>(net: Net<S>, line: seq<real>, rest: S, k: nat): S
    requires k * net.Win() + net.Ctx() <= |line|
  {
    if k == 0 then rest
    else
      WindowBounds(k - 1, net.Win());
      net.run(Slice(line, k - 1, net.Win(), net.Ctx()), StateAt(net, line, rest, k - 1)).1
  }

  // The network finds speech in window k of the line.
  predicate SpeechAt<S>(net: Net<S>, line: seq<real>, rest: S, k: nat)
    requires (k + 1) * net.Win() + net.Ctx() <= |line|
  {
    WindowBounds(k, net.Win());
    net.run(Slice(line, k, net.Win(), net.Ctx()), StateAt(net, line, rest, k)).0 >= net.threshold
  }

  // The inputs are chained: each state is what the network returned before, and
  // the last one is kept.
  predicate Chained<S(==)>(net: Net<S>, m: Memory<S>, h: Heard<S>) {
    && (h.inputs != [] ==> h.inputs[0].1 == m.state)
    && (forall k :: 0 < k < |h.inputs| ==> h.inputs[k].1 == net.run(h.inputs[k - 1].0, h.inputs[k - 1].1).1)
    && h.mem.state == if h.inputs == [] then m.state
                      else net.run(h.inputs[|h.inputs| - 1].0, h.inputs[|h.inputs| - 1].1).1
  }

  predicate Fires<S>(net: Net<S>, input: (seq<real>, S)) {
    net.run(input.0, input.1).0 >= net.threshold
  }

  // Speech is said exactly when the network finds it in some input.
  lemma {:induction false} DrainChained<S>(net: Net<S>, m: Memory<S>)
    requires |m.ctx| == net.Ctx()
    ensures Chained(net, m, Drain(net, m))
    ensures var h := Drain(net, m); h.speech <==> exists k :: 0 <= k < |h.inputs| && Fires(net, h.inputs[k])
    decreases |m.buf|
  {
    var w := net.Win();
    if |m.buf| >= w {
      var x := m.ctx + m.buf[..w];
      var (_, state') := net.run(x, m.state);
      var next := Memory(m.buf[w..], x[|x| - net.Ctx()..], state');
      DrainChained(net, next);
      var rest, h := Drain(net, next), Drain(net, m);
      assert h.inputs == [(x, m.state)] + rest.inputs;
      assert forall k :: 0 < k < |h.inputs| ==> h.inputs[k] == rest.inputs[k - 1];
      assert rest.inputs != [] ==> h.inputs[|h.inputs| - 1] == rest.inputs[|rest.inputs| - 1];
      if rest.speech {
        var k :| 0 <= k < |rest.inputs| && Fires(net, rest.inputs[k]);
        assert Fires(net, h.inputs[k + 1]);
      }
      assert Fires(net, h.inputs[0]) <==> net.run(x, m.state).0 >= net.threshold;
    }
  }

  lemma {:induction false} StatesAre<S>(net: Net<S>, m: Memory<S>, h: Heard<S>, k: nat)
    requires |m.ctx| == net.Ctx() && Covers(net, m.ctx, m.buf, h) && Chained(net, m, h) && k < |h.inputs|
    ensures (k + 1) * net.Win() + net.Ctx() <= |m.ctx + m.buf|
    ensures Fires(net, h.inputs[k]) <==> SpeechAt(net, m.ctx + m.buf, m.state, k)
    ensures h.inputs[k].1 == StateAt(net, m.ctx + m.buf, m.state, k)
  {
    assert CoversAt(net, m.ctx, m.buf, h, k);
    WindowBounds(k, net.Win());
    if k > 0 {
      StatesAre(net, m, h, k - 1);
      assert CoversAt(net, m.ctx, m.buf, h, k - 1);
      WindowBounds(k - 1, net.Win());
    }
  }

  predicate SpeechIn<S>(net: Net<S>, line: seq<real>, rest: S, k: nat) {
    (k + 1) * net.Win() + net.Ctx() <= |line| && SpeechAt(net, line, rest, k)
  }

  lemma WindowsFit(k: nat, q: nat, w: nat, n: nat)
    requires (k + 1) * w <= n < (q + 1) * w
    ensures k < q
  {
    if k > q { TimesStep(k + 1, q + 1, w); }
  }

  // One call says speech if and only if the network, on some whole window of
  // the buffer and the samples with its context, and in the state the windows
  // before it led to, reaches the threshold.
  lemma VerdictExactly<S>(net: Net<S>, m: Memory<S>)
    requires |m.ctx| == net.Ctx()
    ensures Drain(net, m).speech <==> exists k: nat :: SpeechIn(net, m.ctx + m.buf, m.state, k)
  {
    var h, line := Drain(net, m), m.ctx + m.buf;
    InputsAre(net, m);
    DrainChained(net, m);
    if h.speech {
      var k :| 0 <= k < |h.inputs| && Fires(net, h.inputs[k]);
      StatesAre(net, m, h, k);
      assert SpeechIn(net, line, m.state, k);
    }
    if k: nat :| SpeechIn(net, line, m.state, k) {
      WindowsFit(k, |h.inputs|, net.Win(), |m.buf|);
      StatesAre(net, m, h, k);
    }
  }

  // The same over a whole stream from a fresh detector, however it is cut.
  lemma StreamVerdict<S>(net: Net<S>, chunks: seq<seq<real>>)
    ensures HearAll(net, Fresh(net), chunks).speech <==>
              exists k: nat :: SpeechIn(net, Zeros(net.Ctx()) + Flat(chunks), net.rest, k)
  {
    ChunkingInvariant(net, Fresh(net), chunks);
    assert [] + Flat(chunks) == Flat(chunks);
    VerdictExactly(net, Memory(Flat(chunks), Zeros(net.Ctx()), net.rest));
  }

  // ── the detector itself ──────────────────────────────────────────

  class Detector<S> {
    const net: Net<S>
    var buf: seq<real>
    var ctx: seq<real>
    var state: S

    function View(): Memory<S>
      reads this
    {
      Memory(buf, ctx, state)
    }

    ghost predicate Valid()
      reads this
    {
      |ctx| == net.Ctx() && |buf| < net.Win()
    }

    constructor (net: Net<S>)
      ensures Valid() && this.net == net && View() == Fresh(net)
    {
      this.net := net;
      buf, ctx, state := [], Zeros(net.Ctx()), net.rest;
    }

    method Reset()
      modifies this
      ensures Valid() && View() == Fresh(net)
    {
      state := net.rest;
      ctx := Zeros(net.Ctx());
      buf := [];
    }

    method IsSpeech(pcm: seq<int>) returns (anySpeech: bool)
      requires Valid()
      modifies this
      ensures Valid()
      ensures View() == Hear(net, old(View()), Scale(pcm)).mem
      ensures anySpeech == Hear(net, old(View()), Scale(pcm)).speech
      ensures anySpeech <==> exists k: nat :: SpeechIn(net, old(ctx) + (old(buf) + Scale(pcm)), old(state), k)
    {
      VerdictExactly(net, Memory(buf + Scale(pcm), ctx, state));
      buf := buf + Scale(pcm);
      anySpeech := false;
      ghost var all := Drain(net, View());
      DrainShape(net, View());
      while |buf| >= net.Win()
        invariant |ctx| == net.Ctx()
        invariant Drain(net, View()).mem == all.mem
        invariant all.speech == (anySpeech || Drain(net, View()).speech)
      {
        var win := buf[..net.Win()];
        buf := buf[net.Win()..];
        var x := ctx + win;
        var (prob, next) := net.run(x, state);
        state := next;
        ctx := x[|x| - net.Ctx()..];
        if prob >= net.threshold {
          anySpeech := true;
        }
      }
    }
  }
}
