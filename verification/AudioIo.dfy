// Speaker playback of agent/ovs_agent/audio_io.py: a byte queue filled by the
// event loop, drained by the device callback, emptied when the assistant is
// interrupted, with a latch that drops the interrupted reply's late frames.
module AudioIo {
  import opened Prelude

  datatype Playback = Playback(
    buffer: seq<Byte>,          // queued for the device
    playing: Latch,             // a reply is streaming
    discard: Latch,             // drop reply frames until re-armed
    response: Option<string>,   // the response being accounted for
    deviceBytes: nat)           // its bytes handed to the device

  const SILENT := Playback([], Off, Off, None, 0)

  // ── one operation ────────────────────────────────────────────────

  predicate IsPlaying(p: Playback) {
    p.playing.On? || p.buffer != []
  }

  // A reply frame, already at the device rate.
  function Play(p: Playback, pcm: seq<Byte>): Playback {
    if p.discard.On? then p else p.(playing := On, buffer := p.buffer + pcm)
  }

  function Notify(p: Playback, pcm: seq<Byte>): Playback {
    p.(buffer := p.buffer + pcm)
  }

  function Stop(p: Playback): Playback {
    p.(buffer := [], playing := Off, discard := On)
  }

  function Arm(p: Playback): Playback {
    p.(discard := Off)
  }

  function MarkDone(p: Playback): Playback {
    p.(playing := Off)
  }

  function Begin(p: Playback, id: string): Playback {
    p.(response := Some(id), deviceBytes := 0)
  }

  // How many queued bytes a callback for needed bytes takes.
  function Taken(p: Playback, needed: nat): nat {
    if needed < |p.buffer| then needed else |p.buffer|
  }

  function Callback(p: Playback, needed: nat): Playback {
    var n := Taken(p, needed);
    p.(buffer := p.buffer[n..],
       deviceBytes := if p.response.Some? then p.deviceBytes + n else p.deviceBytes)
  }

  function Divide(n: nat, d: nat): nat
    requires d > 0
  {
    n / d
  }

  // The milliseconds of sound that bytes hold at the output rate.
  function PositionMs(p: Playback, id: Option<string>, outputRate: nat): nat {
    if id.Some? && id.value != "" && id != p.response then 0
    else Divide(p.deviceBytes * 1000, 2 * Max(1, outputRate))
  }

  // ── runs ─────────────────────────────────────────────────────────

  datatype Op =
    | OpPlay(pcm: seq<Byte>)
    | OpNotify(pcm: seq<Byte>)
    | OpCallback(needed: nat)
    | OpStop
    | OpArm
    | OpMarkDone
    | OpBegin(id: string)

  function Apply(p: Playback, op: Op): Playback {
    match op
    case OpPlay(pcm) => Play(p, pcm)
    case OpNotify(pcm) => Notify(p, pcm)
    case OpCallback(needed) => Callback(p, needed)
    case OpStop => Stop(p)
    case OpArm => Arm(p)
    case OpMarkDone => MarkDone(p)
    case OpBegin(id) => Begin(p, id)
  }

  function Run(p: Playback, ops: seq<Op>): Playback
    decreases ops
  {
    if ops == [] then p else Run(Apply(p, ops[0]), ops[1..])
  }

  // The queued bytes handed to the device over a run, in order.
  function Delivered(p: Playback, ops: seq<Op>): seq<Byte>
    decreases ops
  {
    if ops == [] then []
    else
      (if ops[0].OpCallback? then p.buffer[..Taken(p, ops[0].needed)] else [])
      + Delivered(Apply(p, ops[0]), ops[1..])
  }

  // The bytes a run accepts into the queue, in order.
  function Appended(p: Playback, ops: seq<Op>): seq<Byte>
    decreases ops
  {
    if ops == [] then []
    else
      (if ops[0].OpNotify? || (ops[0].OpPlay? && !p.discard.On?) then ops[0].pcm else [])
      + Appended(Apply(p, ops[0]), ops[1..])
  }

  // The number of queued bytes a run throws away.
  function Cleared(p: Playback, ops: seq<Op>): nat
    decreases ops
  {
    if ops == [] then 0
    else (if ops[0].OpStop? then |p.buffer| else 0) + Cleared(Apply(p, ops[0]), ops[1..])
  }

  predicate Without(ops: seq<Op>, bad: Op -> bool) {
    forall i :: 0 <= i < |ops| ==> !bad(ops[i])
  }

  // ── theorems over every run ──────────────────────────────────────

  // No byte is invented, duplicated or lost: what reached the device, what is
  // still queued and what was cleared add up to what was there and what came.
  lemma {:induction false} BytesConserved(p: Playback, ops: seq<Op>)
    ensures |Delivered(p, ops)| + |Run(p, ops).buffer| + Cleared(p, ops)
            == |p.buffer| + |Appended(p, ops)|
    decreases ops
  {
    if ops != [] {
      BytesConserved(Apply(p, ops[0]), ops[1..]);
    }
  }

  // While one response is accounted for, the counter is the number of bytes
  // delivered since it began.
  lemma {:induction false} CounterCounts(p: Playback, ops: seq<Op>)
    requires p.response.Some? && Without(ops, (op: Op) => op.OpBegin?)
    ensures Run(p, ops).response == p.response
    ensures Run(p, ops).deviceBytes == p.deviceBytes + |Delivered(p, ops)|
    decreases ops
  {
    if ops != [] {
      assert !ops[0].OpBegin?;
      assert forall i :: 0 <= i < |ops[1..]| ==> ops[1..][i] == ops[i + 1];
      CounterCounts(Apply(p, ops[0]), ops[1..]);
    }
  }

  // Since a response began: device bytes plus queued bytes equal the bytes
  // queued at that moment plus bytes appended minus bytes cleared.
  lemma ResponseConservation(p: Playback, id: string, ops: seq<Op>)
    requires Without(ops, (op: Op) => op.OpBegin?)
    ensures var q := Run(Begin(p, id), ops);
            q.deviceBytes + |q.buffer|
            == |p.buffer| + |Appended(Begin(p, id), ops)| - Cleared(Begin(p, id), ops)
  {
    CounterCounts(Begin(p, id), ops);
    BytesConserved(Begin(p, id), ops);
  }

  // First in, first out: with no stop in between, the device hears exactly the
  // queue followed by the arrivals, and the rest of that line is still queued.
  lemma {:induction false} FirstInFirstOut(p: Playback, ops: seq<Op>)
    requires Without(ops, (op: Op) => op.OpStop?)
    ensures Delivered(p, ops) + Run(p, ops).buffer == p.buffer + Appended(p, ops)
    decreases ops
  {
    if ops != [] {
      assert !ops[0].OpStop?;
      assert forall i :: 0 <= i < |ops[1..]| ==> ops[1..][i] == ops[i + 1];
      var p', rest := Apply(p, ops[0]), ops[1..];
      FirstInFirstOut(p', rest);
      var out, inn := OneOut(p, ops[0]);
      ConcatAssoc(out, Delivered(p', rest), Run(p', rest).buffer);
      ConcatAssoc(out, p'.buffer, Appended(p', rest));
      ConcatAssoc(p.buffer, inn, Appended(p', rest));
    }
  }

  // What one operation hands out followed by what it leaves is what there was
  // followed by what it takes in.
  lemma OneOut(p: Playback, op: Op) returns (out: seq<Byte>, inn: seq<Byte>)
    requires !op.OpStop?
    ensures out == if op.OpCallback? then p.buffer[..Taken(p, op.needed)] else []
    ensures inn == if op.OpNotify? || (op.OpPlay? && !p.discard.On?) then op.pcm else []
    ensures out + Apply(p, op).buffer == p.buffer + inn
  {
    out := if op.OpCallback? then p.buffer[..Taken(p, op.needed)] else [];
    inn := if op.OpNotify? || (op.OpPlay? && !p.discard.On?) then op.pcm else [];
  }

  function Notices(ops: seq<Op>): seq<Byte> {
    if ops == [] then [] else (if ops[0].OpNotify? then ops[0].pcm else []) + Notices(ops[1..])
  }

  // Once the latch is set, and until playback is re-armed, nothing but
  // notification tones enters the queue, whatever the service streams.
  lemma {:induction false} LatchHolds(p: Playback, ops: seq<Op>)
    requires p.discard.On? && Without(ops, (op: Op) => op.OpArm?)
    ensures Run(p, ops).discard.On?
    ensures Appended(p, ops) == Notices(ops)
    ensures Run(p, ops).playing.On? ==> p.playing.On?
    decreases ops
  {
    if ops != [] {
      assert !ops[0].OpArm?;
      assert forall i :: 0 <= i < |ops[1..]| ==> ops[1..][i] == ops[i + 1];
      LatchHolds(Apply(p, ops[0]), ops[1..]);
    }
  }

  // After an interruption, the device hears only tones until the next turn.
  lemma InterruptedReplyIsSilent(p: Playback, ops: seq<Op>)
    requires Without(ops, (op: Op) => op.OpArm?) && Without(ops, (op: Op) => op.OpStop?)
    ensures Delivered(Stop(p), ops) + Run(Stop(p), ops).buffer == Notices(ops)
    ensures !Run(Stop(p), ops).playing.On?
  {
    LatchHolds(Stop(p), ops);
    FirstInFirstOut(Stop(p), ops);
  }

  // The position is the milliseconds of 16-bit sound handed to the device,
  // rounded down; a response that is not being accounted for has none.
  lemma PositionIs(p: Playback, id: Option<string>, rate: nat)
    ensures var ms := PositionMs(p, id, rate);
            if id.Some? && id.value != "" && id != p.response then ms == 0
            else ms * (2 * Max(1, rate)) <= p.deviceBytes * 1000 < (ms + 1) * (2 * Max(1, rate))
  {
    DivideIs(p.deviceBytes * 1000, 2 * Max(1, rate));
  }

  lemma DivideIs(n: nat, d: nat)
    requires d > 0
    ensures Divide(n, d) * d <= n < (Divide(n, d) + 1) * d
  {
    var q := Divide(n, d);
    assert n == q * d + n % d;
    assert (q + 1) * d == q * d + d;
  }

  // Playback counts as playing exactly while a reply streams or sound is still
  // queued; when it does not, the device is given nothing but silence.
  lemma PlayingMeans(p: Playback, pcm: seq<Byte>, needed: nat)
    ensures !IsPlaying(p) ==> Taken(p, needed) == 0
    ensures p.discard.Off? ==> IsPlaying(Play(p, pcm)) && IsPlaying(Callback(Play(p, pcm), needed))
    ensures pcm != [] ==> IsPlaying(Notify(p, pcm))
    ensures !IsPlaying(Stop(p))
    ensures IsPlaying(Callback(MarkDone(p), needed)) <==> needed < |p.buffer|
  {
  }

  lemma DivideMonotone(a: nat, b: nat, d: nat)
    requires a <= b && d > 0
    ensures Divide(a, d) <= Divide(b, d)
  {
    var q, r := Divide(a, d), Divide(b, d);
    assert a == q * d + a % d && b == r * d + b % d;
    if q > r {
      TimesStep(q, r, d);
    }
  }

  // Within one response, at a fixed output rate, the reported position never
  // goes back.
  lemma {:induction false} PositionMonotone(p: Playback, ops: seq<Op>, id: Option<string>, rate: nat)
    requires Without(ops, (op: Op) => op.OpBegin?)
    ensures PositionMs(p, id, rate) <= PositionMs(Run(p, ops), id, rate)
    decreases ops
  {
    if ops != [] {
      assert !ops[0].OpBegin?;
      assert forall i :: 0 <= i < |ops[1..]| ==> ops[1..][i] == ops[i + 1];
      var p' := Apply(p, ops[0]);
      DivideMonotone(p.deviceBytes * 1000, p'.deviceBytes * 1000, 2 * Max(1, rate));
      PositionMonotone(p', ops[1..], id, rate);
    }
  }

  // ── the device itself ────────────────────────────────────────────

  class AudioIO {
    var outputRate: nat
    var playbackBuffer: seq<Byte>
    var playing: bool
    var discardPlayback: bool
    var playbackResponse: Option<string>
    var playbackDeviceBytes: nat

    function View(): Playback
      reads this
    {
      Playback(playbackBuffer, Flag(playing), Flag(discardPlayback), playbackResponse, playbackDeviceBytes)
    }

    constructor (outputRate: nat)
      ensures View() == SILENT && this.outputRate == outputRate
    {
      this.outputRate := outputRate;
      playbackBuffer := [];
      playing, discardPlayback := false, false;
      playbackResponse, playbackDeviceBytes := None, 0;
    }

    predicate Busy()
      reads this
    {
      playing || playbackBuffer != []
    }

    // The device callback fills the whole output block: first the queue's
    // prefix, then silence.
    method OutputCallback(outdata: array<Byte>)
      modifies this, outdata
      ensures View() == Callback(old(View()), outdata.Length) && outputRate == old(outputRate)
      ensures var n := Taken(old(View()), outdata.Length);
              outdata[..] == old(View().buffer)[..n] + seq(outdata.Length - n, _ => 0 as Byte)
    {
      var needed := outdata.Length;
      var n := if needed < |playbackBuffer| then needed else |playbackBuffer|;
      if n > 0 {
        forall i | 0 <= i < n {
          outdata[i] := playbackBuffer[i];
        }
        playbackBuffer := playbackBuffer[n..];
        if playbackResponse.Some? {
          playbackDeviceBytes := playbackDeviceBytes + n;
        }
      }
      if n < needed {
        forall i | n <= i < needed {
          outdata[i] := 0;
        }
      }
    }

    method PlayFrame(pcm: seq<Byte>)
      modifies this
      ensures View() == Play(old(View()), pcm) && outputRate == old(outputRate)
      ensures playbackBuffer == (if old(discardPlayback) then old(playbackBuffer) else old(playbackBuffer) + pcm)
      ensures playing == (old(playing) || !old(discardPlayback))
    {
      if discardPlayback {
        return;
      }
      playing := true;
      playbackBuffer := playbackBuffer + pcm;
    }

    method PlayNotification(pcm: seq<Byte>)
      modifies this
      ensures View() == Notify(old(View()), pcm) && outputRate == old(outputRate)
      ensures playbackBuffer == old(playbackBuffer) + pcm && playing == old(playing)
    {
      playbackBuffer := playbackBuffer + pcm;
    }

    method StopPlayback()
      modifies this
      ensures View() == Stop(old(View())) && outputRate == old(outputRate)
      ensures playbackBuffer == [] && !playing && discardPlayback
    {
      playbackBuffer := [];
      playing := false;
      discardPlayback := true;
    }

    method ArmForNextTurn()
      modifies this
      ensures View() == Arm(old(View())) && outputRate == old(outputRate)
      ensures !discardPlayback && playbackBuffer == old(playbackBuffer) && playing == old(playing)
    {
      discardPlayback := false;
    }

    method MarkPlaybackDone()
      modifies this
      ensures View() == MarkDone(old(View())) && outputRate == old(outputRate)
      ensures !playing && playbackBuffer == old(playbackBuffer)
    {
      playing := false;
    }

    method BeginResponsePlayback(id: string)
      modifies this
      ensures View() == Begin(old(View()), id) && outputRate == old(outputRate)
      ensures playbackResponse == Some(id) && playbackDeviceBytes == 0 && playbackBuffer == old(playbackBuffer)
    {
      playbackResponse := Some(id);
      playbackDeviceBytes := 0;
    }

    method PlaybackPositionMs(id: Option<string>) returns (ms: nat)
      ensures ms == PositionMs(View(), id, outputRate)
      ensures if id.Some? && id.value != "" && id != playbackResponse then ms == 0
              else ms * (2 * Max(1, outputRate)) <= playbackDeviceBytes * 1000 < (ms + 1) * (2 * Max(1, outputRate))
    {
      PositionIs(View(), id, outputRate);
      if id.Some? && id.value != "" && id != playbackResponse {
        return 0;
      }
      ms := Divide(playbackDeviceBytes * 1000, 2 * Max(1, outputRate));
    }
  }
}
