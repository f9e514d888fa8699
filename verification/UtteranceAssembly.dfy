// How a spoken utterance reaches the language model: the text that is routed,
// and the microphone segments that end a turn.
module UtteranceAssembly {
  import opened Prelude
  import opened AsrText
  import opened Conversation
  import opened TurnSafety
  import V = ClientVad
  import A = AudioIo

  // ── which segments belong together ───────────────────────────────

  // The final adds a segment to the utterance still open.
  predicate Accumulates(cfg: Config, s: State, e: Event) {
    e.Final? && s.conv != Sleeping && !Ignored(cfg, s, e) && MidUtterance(cfg, s) && Strip(Content(e)) != ""
  }

  // The event separates what was said before from what comes next: the
  // utterance is routed, the agent falls asleep, the transport fails or is
  // renewed, or the recogniser never answered.
  predicate Cuts(cfg: Config, s: State, e: Event) {
    || Routes(cfg, s, e)
    || (s.conv != Sleeping && Step(cfg, s, e).conv == Sleeping)
    || e.SlvError? || e.Reconnected?
    || (e.AsrTimeout? && s.asrTimer.On? && s.eosSent.On? && s.conv == Thinking)
  }

  // The segments heard since the last cut, in order of arrival.
  function OpenSegments(cfg: Config, events: seq<Event>): seq<string>
    decreases |events|
  {
    if events == [] then []
    else
      var pre := Reached(cfg, Before(events));
      var e := Last(events);
      if Cuts(cfg, pre, e) then []
      else OpenSegments(cfg, Before(events)) + (if Accumulates(cfg, pre, e) then [Content(e)] else [])
  }

  function PendingAfter(cfg: Config, s: State, e: Event): string {
    if Cuts(cfg, s, e) then "" else if Accumulates(cfg, s, e) then Join(s.pending, Content(e)) else s.pending
  }

  lemma RoutePending(cfg: Config, s: State, e: Event)
    requires e.Final?
    ensures Route(cfg, s, e).pending == ""
  {
  }

  lemma FinalPending(cfg: Config, s: State, e: Event)
    requires e.Final? && Inv(cfg, s)
    ensures Step(cfg, s, e).pending == PendingAfter(cfg, s, e)
  {
    if Routes(cfg, s, e) {
      RoutePending(cfg, Answered(s, e), e);
    } else {
      UnroutedPending(cfg, s, e);
    }
  }

  lemma UnroutedPending(cfg: Config, s: State, e: Event)
    requires e.Final? && Inv(cfg, s) && !Routes(cfg, s, e)
    ensures Step(cfg, s, e).pending == PendingAfter(cfg, s, e)
  {
  }

  lemma ReplyPending(cfg: Config, s: State, e: Event)
    requires ReplyEvent(e) && Inv(cfg, s)
    ensures Step(cfg, s, e).pending == PendingAfter(cfg, s, e)
  {
    if e.ResponseDone? || e.TtsDone? {
      DonePending(cfg, s, e);
    }
  }

  lemma DonePending(cfg: Config, s: State, e: Event)
    requires (e.ResponseDone? || e.TtsDone?) && Inv(cfg, s)
    ensures Step(cfg, s, e).pending == PendingAfter(cfg, s, e)
  {
    var t := s.(firstTts := Off, thinkingTimer := Off);
    if e.TtsDone? {
      FinishPending(cfg, t.(audio := A.MarkDone(t.audio)));
    } else if !e.toolCallOnly {
      FinishPending(cfg, t);
    }
  }

  // The end of a reply empties the buffer only by putting the agent to sleep.
  lemma FinishPending(cfg: Config, s: State)
    requires Inv(cfg, s)
    ensures var t := FinishTurn(cfg, s);
            t.pending == if s.conv != Sleeping && t.conv == Sleeping then "" else s.pending
  {
  }

  lemma RoomPending(cfg: Config, s: State, e: Event)
    requires FromTheRoom(e)
    ensures Step(cfg, s, e).pending == PendingAfter(cfg, s, e)
  {
    if e.VadChunk? {
      ChunkPending(cfg, s, e.isSpeech, e.env);
    }
  }

  lemma ChunkPending(cfg: Config, s: State, isSpeech: bool, env: Env)
    ensures var t := OnVadChunk(cfg, s, isSpeech, env);
            t.pending == s.pending && (t.conv == Sleeping <==> s.conv == Sleeping)
  {
  }

  lemma OtherPending(cfg: Config, s: State, e: Event)
    requires !e.Final? && !ReplyEvent(e) && !FromTheRoom(e) && Inv(cfg, s)
    ensures Step(cfg, s, e).pending == PendingAfter(cfg, s, e)
  {
  }

  // In every reachable state the buffer is the join of exactly those segments:
  // none is lost, and none crosses a cut.
  lemma {:induction false} PendingIsJoin(cfg: Config, events: seq<Event>)
    ensures Reached(cfg, events).pending == JoinAll(OpenSegments(cfg, events))
  {
    if events != [] {
      var pre, e := Reached(cfg, Before(events)), Last(events);
      PendingIsJoin(cfg, Before(events));
      ReachedInv(cfg, Before(events));
      StepPending(cfg, pre, e);
      var heard := OpenSegments(cfg, Before(events));
      if Cuts(cfg, pre, e) {
        assert OpenSegments(cfg, events) == [];
      } else if Accumulates(cfg, pre, e) {
        JoinAllAppend(heard, Content(e));
      } else {
        assert heard + [] == heard;
      }
    }
  }

  lemma StepPending(cfg: Config, s: State, e: Event)
    requires Inv(cfg, s)
    ensures Step(cfg, s, e).pending == PendingAfter(cfg, s, e)
  {
    if e.Final? {
      FinalPending(cfg, s, e);
    } else if ReplyEvent(e) {
      ReplyPending(cfg, s, e);
    } else if FromTheRoom(e) {
      RoomPending(cfg, s, e);
    } else {
      OtherPending(cfg, s, e);
    }
  }

  // ── what is routed ───────────────────────────────────────────────

  // A step appends to the log, and the utterances it appends are these.
  ghost predicate Utters(s: State, t: State, text: Option<string>) {
    && s.log <= t.log
    && forall u :: Utterance(u) in t.log[|s.log|..] <==> text == Some(u)
  }

  lemma DismissUtters(cfg: Config, s: State, text: string, spoken: bool)
    ensures Utters(s, Dismiss(cfg, s, text, spoken), None)
  {
    var log := Dismiss(cfg, s, text, spoken).log;
    assert log == s.log + [Abort] || log == s.log + [Abort, Abort] || log == s.log + [Abort, Farewell];
  }

  lemma AssembledUtters(cfg: Config, s: State, e: Event)
    requires e.Final?
    ensures Utters(s, Assembled(cfg, s, e), Some(FullText(s, e)))
  {
    var u := Utterance(FullText(s, e));
    var log := Assembled(cfg, s, e).log;
    assert log == s.log + [u] || log == s.log + [AbortKeepAsr, u];
  }

  lemma UttersThen(s: State, t: State, u: State, text: Option<string>)
    requires Utters(s, t, text) && Utters(t, u, None)
    ensures Utters(s, u, text)
  {
    assert u.log[|s.log|..] == t.log[|s.log|..] + u.log[|t.log|..];
  }

  lemma RouteUtters(cfg: Config, s: State, e: Event)
    requires e.Final?
    ensures Utters(s, Route(cfg, s, e), Some(FullText(s, e)))
  {
    var text := FullText(s, e);
    var w := Assembled(cfg, s, e);
    AssembledUtters(cfg, s, e);
    DismissUtters(cfg, w, text, e.spoken);
    UttersThen(s, w, Dismiss(cfg, w, text, e.spoken), Some(text));
    assert Utters(w, Answer(w, text), None);
    UttersThen(s, w, Answer(w, text), Some(text));
  }

  lemma FinalUtters(cfg: Config, s: State, e: Event)
    requires e.Final?
    ensures Utters(s, Step(cfg, s, e), if Routes(cfg, s, e) then Some(FullText(s, e)) else None)
  {
    var t := Answered(s, e);
    if Routes(cfg, s, e) {
      RouteUtters(cfg, t, e);
      assert Step(cfg, s, e) == Route(cfg, t, e) && FullText(t, e) == FullText(s, e) && t.log == s.log;
    } else {
      assert Step(cfg, s, e).log == s.log;
    }
  }

  lemma FinishUtters(cfg: Config, s: State)
    ensures var log := FinishTurn(cfg, s).log; log == s.log || log == s.log + [Abort]
  {
  }

  lemma ReplyUtters(cfg: Config, s: State, e: Event)
    requires ReplyEvent(e)
    ensures Utters(s, Step(cfg, s, e), None)
  {
    var log := Step(cfg, s, e).log;
    if e.ResponseDone? || e.TtsDone? {
      var t := s.(firstTts := Off, thinkingTimer := Off);
      FinishUtters(cfg, t);
      FinishUtters(cfg, t.(audio := A.MarkDone(t.audio)));
      assert log == s.log || log == s.log + [Abort];
    } else {
      assert log == s.log;
    }
  }

  lemma RoomUtters(cfg: Config, s: State, e: Event)
    requires FromTheRoom(e)
    ensures Utters(s, Step(cfg, s, e), None)
  {
    if e.VadChunk? {
      ChunkUtters(cfg, s, e.isSpeech, e.env);
    } else {
      var log := Step(cfg, s, e).log;
      assert log == s.log || log == s.log + [AsrEos] || log == s.log + [AbortKeepAsr];
    }
  }

  lemma ChunkUtters(cfg: Config, s: State, isSpeech: bool, env: Env)
    ensures Utters(s, OnVadChunk(cfg, s, isSpeech, env), None)
  {
    var log := OnVadChunk(cfg, s, isSpeech, env).log;
    assert log == s.log || log == s.log + [AsrEos] || log == s.log + [AbortKeepAsr];
  }

  lemma OtherUtters(cfg: Config, s: State, e: Event)
    requires !e.Final? && !ReplyEvent(e) && !FromTheRoom(e)
    ensures Utters(s, Step(cfg, s, e), None)
  {
    var log := Step(cfg, s, e).log;
    assert log == s.log || log == s.log + [AsrEos] || log == s.log + [Abort];
  }

  // At each utterance end, and only there, the routed text is the join in
  // arrival order of the segments since the last cut followed by the final,
  // and its words are theirs.
  lemma RoutedText(cfg: Config, events: seq<Event>, e: Event, text: string)
    ensures Reached(cfg, events).log <= Step(cfg, Reached(cfg, events), e).log
    ensures var s := Reached(cfg, events);
            var parts := OpenSegments(cfg, events) + [if e.Final? then Content(e) else ""];
            var uttered := Step(cfg, s, e).log[|s.log|..];
            && (Utterance(text) in uttered <==> Routes(cfg, s, e) && text == JoinAll(parts))
            && (Utterance(text) in uttered ==> Words(text) == AllWords(parts))
  {
    var s := Reached(cfg, events);
    var last := if e.Final? then Content(e) else "";
    PendingIsJoin(cfg, events);
    JoinAllAppend(OpenSegments(cfg, events), last);
    JoinAllWords(OpenSegments(cfg, events) + [last]);
    if e.Final? {
      FinalUtters(cfg, s, e);
    } else if ReplyEvent(e) {
      ReplyUtters(cfg, s, e);
    } else if FromTheRoom(e) {
      RoomUtters(cfg, s, e);
    } else {
      OtherUtters(cfg, s, e);
    }
  }

  lemma FirstSegment(cfg: Config, first: string, env: Env)
    requires cfg.alwaysOn && cfg.clientVad && !cfg.pushToTalk && cfg.driveEos
    requires cfg.vad.chunkMs >= cfg.vad.speechMinMs && !LowSignal(cfg, first)
    ensures var s := Step(cfg, Step(cfg, Init(cfg), VadChunk(true, env)), Final(first, false, false, true, env));
            && s.conv == Listening && s.pending == Strip(first) && s.eosSent.Off? && s.vadEosSent.Off?
            && s.vad.mode == V.Talking && s.vad.silenceMs == 0
            && s.awaitingReply.Off? && s.sleepAfterTurn.Off? && s.vadEcho.Off?
  {
    var s := Step(cfg, Init(cfg), VadChunk(true, env));
    assert s.conv == Listening && s.pending == "" && s.eosSent.Off? && s.vad.mode == V.Talking;
    var _, _ := StripDrops(first);
    StripFixed(Strip(first));
  }

  lemma AbandonedTurn(cfg: Config, s: State, env: Env)
    requires cfg.clientVad && !cfg.pushToTalk && cfg.driveEos && cfg.vad.chunkMs >= cfg.vad.silenceMs
    requires s.conv == Listening && s.vad.mode == V.Talking && s.vadEosSent.Off?
    ensures var t := Step(cfg, Step(cfg, s, VadChunk(false, env)), ThinkingTimeout);
            t.conv == Idle && t.pending == s.pending && t.eosSent.Off?
  {
    var t := Step(cfg, s, VadChunk(false, env));
    assert t.conv == Thinking && t.thinkingTimer.On? && t.pending == s.pending;
  }

  lemma {:induction false} SegmentsSpoken(cfg: Config, events: seq<Event>)
    ensures forall i :: 0 <= i < |OpenSegments(cfg, events)| ==> Strip(OpenSegments(cfg, events)[i]) != ""
    decreases |events|
  {
    if events != [] {
      SegmentsSpoken(cfg, Before(events));
    }
  }

  // Segments are never blank, so a buffer is empty only if there are none.
  lemma OpenSegmentsSpoken(cfg: Config, events: seq<Event>)
    ensures Reached(cfg, events).pending == "" <==> OpenSegments(cfg, events) == []
  {
    var segments := OpenSegments(cfg, events);
    PendingIsJoin(cfg, events);
    SegmentsSpoken(cfg, events);
    if segments != [] {
      assert JoinAll(segments) == Join(segments[0], JoinAll(segments[1..]));
    }
  }

  // However a wait ends in IDLE, the next turn starts clean if and only if no
  // segment was heard since the last cut, or this event is a cut.
  lemma WaitEndsClean(cfg: Config, events: seq<Event>, e: Event)
    requires Reached(cfg, events).conv == Thinking
    requires Step(cfg, Reached(cfg, events), e).conv == Idle
    ensures var s := Reached(cfg, events);
            Step(cfg, s, e).pending == "" <==>
              || OpenSegments(cfg, events) == []
              || Routes(cfg, s, e) || e.SlvError? || e.Reconnected?
              || (e.AsrTimeout? && s.asrTimer.On? && s.eosSent.On?)
  {
    ReachedInv(cfg, events);
    StepPending(cfg, Reached(cfg, events), e);
    OpenSegmentsSpoken(cfg, events);
  }

  // The thinking watchdog abandons a turn without a cut.
  lemma ThinkingTimeoutCuts(cfg: Config, events: seq<Event>)
    requires Reached(cfg, events).conv == Thinking && Reached(cfg, events).thinkingTimer.On?
    ensures var t := Step(cfg, Reached(cfg, events), ThinkingTimeout);
            t.conv == Idle && (t.pending == "" <==> OpenSegments(cfg, events) == [])
  {
    OpenSegmentsSpoken(cfg, events);
  }

  // Otherwise what was said in it is glued to the next utterance.
  lemma AbandonedTextLeaks(cfg: Config, first: string, second: string, env: Env)
    requires cfg.alwaysOn && cfg.clientVad && !cfg.pushToTalk && cfg.driveEos
    requires cfg.vad.chunkMs >= cfg.vad.speechMinMs && cfg.vad.chunkMs >= cfg.vad.silenceMs
    requires !LowSignal(cfg, first) && !LowSignal(cfg, second)
    ensures var abandoned := [VadChunk(true, env), Final(first, false, false, true, env), VadChunk(false, env), ThinkingTimeout];
            var s, e := Reached(cfg, abandoned), Final(second, false, false, true, env);
            s.conv == Idle && Routes(cfg, s, e) && FullText(s, e) == Join(first, second)
  {
    var a, b, c, d := VadChunk(true, env), Final(first, false, false, true, env), VadChunk(false, env), ThinkingTimeout;
    FirstSegment(cfg, first, env);
    AbandonedTurn(cfg, Step(cfg, Step(cfg, Init(cfg), a), b), env);
    ReachedByFour(cfg, a, b, c, d);
    var _, _ := StripDrops(first);
    StripFixed(Strip(first));
  }

  // The end of a reply does the same without any watchdog's help: it releases
  // the latch, so the recogniser's watchdog then drops nothing.
  lemma LateReplyLeaks(cfg: Config, first: string, second: string, env: Env)
    requires cfg.alwaysOn && cfg.clientVad && !cfg.pushToTalk && cfg.driveEos && !cfg.drainPlayback
    requires cfg.vad.chunkMs >= cfg.vad.speechMinMs && cfg.vad.chunkMs >= cfg.vad.silenceMs
    requires !LowSignal(cfg, first) && !LowSignal(cfg, second)
    ensures var waiting := [VadChunk(true, env), Final(first, false, false, true, env), VadChunk(false, env), TtsDone];
            var s, e := Reached(cfg, waiting + [AsrTimeout]), Final(second, false, false, true, env);
            s.conv == Idle && Routes(cfg, s, e) && FullText(s, e) == Join(first, second)
  {
    var a, b, c := VadChunk(true, env), Final(first, false, false, true, env), VadChunk(false, env);
    FirstSegment(cfg, first, env);
    var s := Step(cfg, Step(cfg, Init(cfg), a), b);
    UnansweredTurn(cfg, s, env);
    ReachedByFour(cfg, a, b, c, TtsDone);
    RunAppend(cfg, [a, b, c, TtsDone], AsrTimeout);
    var _, _ := StripDrops(first);
    StripFixed(Strip(first));
  }

  lemma UnansweredTurn(cfg: Config, s: State, env: Env)
    requires cfg.clientVad && !cfg.pushToTalk && cfg.driveEos && cfg.vad.chunkMs >= cfg.vad.silenceMs
    requires !cfg.drainPlayback && s.awaitingReply.Off? && s.sleepAfterTurn.Off? && s.vadEcho.Off?
    requires s.conv == Listening && s.vad.mode == V.Talking && s.vadEosSent.Off?
    ensures var t := Step(cfg, Step(cfg, Step(cfg, s, VadChunk(false, env)), TtsDone), AsrTimeout);
            t.conv == Idle && t.pending == s.pending && t.eosSent.Off?
  {
    var t := Step(cfg, s, VadChunk(false, env));
    assert t.conv == Thinking && t.pending == s.pending && t.awaitingReply.Off? && t.sleepAfterTurn.Off?;
    ReplyEndsWait(cfg, t);
  }

  lemma ReplyEndsWait(cfg: Config, s: State)
    requires !cfg.drainPlayback && s.awaitingReply.Off? && s.sleepAfterTurn.Off? && s.conv == Thinking
    ensures var t := Step(cfg, s, TtsDone);
            t.conv == Idle && t.pending == s.pending && t.eosSent.Off?
  {
  }

  // ── microphone segments ──────────────────────────────────────────

  function Stream(chunks: seq<Event>): (stream: seq<bool>)
    requires forall i :: 0 <= i < |chunks| ==> chunks[i].VadChunk?
    ensures |stream| == |chunks|
  {
    seq(|chunks|, i requires 0 <= i < |chunks| => chunks[i].isSpeech)
  }

  lemma {:induction false} ListenPrefix(t: V.Timing, a: seq<bool>, b: seq<bool>, n: nat)
    requires n <= |a| && n <= |b| && a[..n] == b[..n]
    ensures V.Listen(t, a, n) == V.Listen(t, b, n)
  {
    if n > 0 {
      assert a[n - 1] == a[..n][n - 1] == b[..n][n - 1];
      assert a[..n - 1] == a[..n][..n - 1] == b[..n][..n - 1];
      ListenPrefix(t, a, b, n - 1);
    }
  }

  lemma ChunkStep(cfg: Config, s: State, e: Event)
    requires e.VadChunk? && cfg.clientVad && !cfg.pushToTalk && s.conv != Sleeping
    ensures var t := Step(cfg, s, e);
            var (vad, edge) := V.Tick(cfg.vad, s.vad, e.isSpeech);
            t.vad == vad && t.conv != Sleeping && (edge != V.Closed ==> !(s.eosSent.Off? && t.eosSent.On?))
  {
  }

  // Over any stream of microphone chunks, the state machine's own counters are
  // the declarative segmentation, and each closed segment sends at most one
  // end-of-speech.
  lemma SegmentsEndTurns(cfg: Config, s: State, chunks: seq<Event>)
    requires forall i :: 0 <= i < |chunks| ==> chunks[i].VadChunk?
    requires cfg.clientVad && !cfg.pushToTalk && s.conv != Sleeping && s.vad == V.AT_REST
    ensures var t := Run(cfg, s, chunks);
            var (vad, parse) := V.Listen(cfg.vad, Stream(chunks), |chunks|);
            && t.conv != Sleeping && t.vad == vad
            && V.Segmented(cfg.vad, Stream(chunks), |chunks|, parse)
            && EosCount(t.log) <= EosCount(s.log) + |parse.done|
  {
    V.ListenSegments(cfg.vad, Stream(chunks), |chunks|);
    CountersFollow(cfg, s, chunks);
  }

  lemma {:induction false} CountersFollow(cfg: Config, s: State, chunks: seq<Event>)
    requires forall i :: 0 <= i < |chunks| ==> chunks[i].VadChunk?
    requires cfg.clientVad && !cfg.pushToTalk && s.conv != Sleeping && s.vad == V.AT_REST
    ensures var t := Run(cfg, s, chunks);
            var (vad, parse) := V.Listen(cfg.vad, Stream(chunks), |chunks|);
            t.conv != Sleeping && t.vad == vad && EosCount(t.log) <= EosCount(s.log) + |parse.done|
    decreases |chunks|
  {
    if chunks != [] {
      CountersFollow(cfg, s, Before(chunks));
      ListenChunk(cfg.vad, chunks);
      var pre := Run(cfg, s, Before(chunks));
      ChunkStep(cfg, pre, Last(chunks));
      ChunkEos(cfg, pre, Last(chunks));
    }
  }

  lemma ChunkEos(cfg: Config, s: State, e: Event)
    requires e.VadChunk? && cfg.clientVad && !cfg.pushToTalk && s.conv != Sleeping
    ensures EosCount(Step(cfg, s, e).log) <=
            EosCount(s.log) + if V.Tick(cfg.vad, s.vad, e.isSpeech).1 == V.Closed then 1 else 0
  {
    ChunkStep(cfg, s, e);
    StepLog(cfg, s, e);
  }

  // One more chunk, heard online; a closing edge closes an open segment.
  lemma ListenChunk(t: V.Timing, chunks: seq<Event>)
    requires chunks != [] && forall i :: 0 <= i < |chunks| ==> chunks[i].VadChunk?
    ensures var n := |chunks| - 1;
            var (v, p) := V.Listen(t, Stream(Before(chunks)), n);
            var (v', edge) := V.Tick(t, v, Last(chunks).isSpeech);
            var p' := V.Listen(t, Stream(chunks), n + 1).1;
            && V.Listen(t, Stream(chunks), n + 1).0 == v'
            && |p'.done| == |p.done| + if edge == V.Closed then 1 else 0
  {
    var n := |chunks| - 1;
    assert Stream(chunks)[..n] == Stream(Before(chunks))[..n];
    ListenPrefix(t, Stream(chunks), Stream(Before(chunks)), n);
    V.ListenSegments(t, Stream(chunks), n);
  }
}
