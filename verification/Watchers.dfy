// What ends a wait: the timers behind THINKING and BARGED_IN, and the exact
// steps that take the last one away.
module Watchers {
  import opened Prelude
  import opened AsrText
  import opened Conversation
  import opened TurnSafety
  import V = ClientVad
  import A = AudioIo

  // ── THINKING ─────────────────────────────────────────────────────

  // A wait has a timer or a drain that will end it.
  predicate Watched(s: State) {
    s.conv == Thinking ==> Rescued(s)
  }

  // Something other than the thinking watchdog is running.
  predicate OtherWatcher(s: State) {
    s.drain.On? || (s.asrTimer.On? && s.eosSent.On?)
  }

  // A reply announces itself, which stands the thinking watchdog down.
  predicate AnnouncementStandsDown(s: State, e: Event) {
    && s.conv == Thinking && !OtherWatcher(s)
    && ((e.TtsStarted? && !s.awaitingReply.On?) || e.ResponseCreated?)
  }

  // A tool-call response starts a wait, or goes on with one, without a timer.
  predicate ToolCallWaits(s: State, e: Event) {
    && e.ResponseDone? && e.toolCallOnly && !s.awaitingReply.On?
    && s.conv != BargedIn && !OtherWatcher(s)
  }

  // The user starts to speak while sound is still queued: the recogniser's
  // wait is cancelled, but the state stays.
  predicate OnsetCancelsWait(cfg: Config, s: State, e: Event) {
    && e.VadChunk? && cfg.clientVad && !cfg.pushToTalk
    && V.Tick(cfg.vad, s.vad, e.isSpeech).1 == V.Opened
    && s.conv == Thinking && s.eosSent.On? && A.IsPlaying(s.audio)
    && !s.thinkingTimer.On? && !s.drain.On?
  }

  predicate LosesWatch(cfg: Config, s: State, e: Event) {
    || AnnouncementStandsDown(s, e)
    || ToolCallWaits(s, e)
    || OnsetCancelsWait(cfg, s, e)
    || FarewellStrands(cfg, s, false, e)
  }

  lemma RoutedWatch(cfg: Config, s: State, e: Event)
    requires Watched(s) && Routes(cfg, s, e)
    ensures !Watched(Step(cfg, s, e)) <==> FarewellStrands(cfg, s, false, e)
  {
    var text := FullText(s, e);
    var t := Answered(s, e);
    var w := Assembled(cfg, t, e);
    assert Step(cfg, s, e) == Route(cfg, t, e) && FullText(t, e) == text;
    assert w.conv == s.conv && w.thinkingTimer == s.thinkingTimer && w.eosSent.Off?;
    assert w.drain == if Supersedes(cfg, s, e) then Off else s.drain;
    if Dismissal(cfg, text) {
      DismissGuard(cfg, w, text, e.spoken);
    }
  }

  lemma UnroutedWatch(cfg: Config, s: State, e: Event)
    requires Watched(s) && e.Final? && !Routes(cfg, s, e)
    ensures Watched(Step(cfg, s, e))
  {
  }

  lemma ReplyWatch(cfg: Config, s: State, e: Event)
    requires Watched(s) && ReplyEvent(e)
    ensures !Watched(Step(cfg, s, e)) <==> AnnouncementStandsDown(s, e) || ToolCallWaits(s, e)
  {
  }

  lemma RoomWatch(cfg: Config, s: State, e: Event)
    requires Watched(s) && FromTheRoom(e)
    ensures !Watched(Step(cfg, s, e)) <==> OnsetCancelsWait(cfg, s, e)
  {
    if e.VadChunk? {
      ChunkWatch(cfg, s, e);
    }
  }

  lemma ChunkWatch(cfg: Config, s: State, e: Event)
    requires Watched(s) && e.VadChunk?
    ensures !Watched(Step(cfg, s, e)) <==> OnsetCancelsWait(cfg, s, e)
  {
  }

  lemma OtherWatch(cfg: Config, s: State, e: Event)
    requires Watched(s) && !e.Final? && !ReplyEvent(e) && !FromTheRoom(e)
    ensures Watched(Step(cfg, s, e))
  {
  }

  // In every state and for every event and setting: a watched state becomes an
  // unwatched wait in exactly these four ways.
  lemma WatchLostExactly(cfg: Config, s: State, e: Event)
    requires Watched(s)
    ensures !Watched(Step(cfg, s, e)) <==> LosesWatch(cfg, s, e)
  {
    if Routes(cfg, s, e) {
      RoutedWatch(cfg, s, e);
    } else if e.Final? {
      UnroutedWatch(cfg, s, e);
    } else if ReplyEvent(e) {
      ReplyWatch(cfg, s, e);
    } else if FromTheRoom(e) {
      RoomWatch(cfg, s, e);
    } else {
      OtherWatch(cfg, s, e);
    }
  }

  // A run none of whose steps is one of these ends watched.
  lemma {:induction false} WatchedRun(cfg: Config, events: seq<Event>)
    requires forall i :: 0 <= i < |events| ==> !LosesWatch(cfg, Reached(cfg, events[..i]), events[i])
    ensures Watched(Reached(cfg, events))
    decreases |events|
  {
    if events != [] {
      var n := |events| - 1;
      forall i | 0 <= i < n ensures !LosesWatch(cfg, Reached(cfg, events[..n][..i]), events[..n][i]) {
        assert events[..n][..i] == events[..i];
      }
      WatchedRun(cfg, events[..n]);
      assert !LosesWatch(cfg, Reached(cfg, events[..n]), events[n]);
      WatchLostExactly(cfg, Reached(cfg, events[..n]), events[n]);
    }
  }

  // A run that ends in an onset over queued sound: the reply has announced
  // itself, so only the recogniser's timer was left.
  lemma OnsetExample(cfg: Config, env: Env, pcm: seq<Byte>)
    requires cfg.alwaysOn && cfg.clientVad && !cfg.pushToTalk && cfg.driveEos && pcm != []
    requires cfg.vad.chunkMs >= cfg.vad.speechMinMs && cfg.vad.chunkMs >= cfg.vad.silenceMs
    ensures var before := [VadChunk(true, env), VadChunk(false, env), TtsStarted(false), Tone(pcm)];
            var s, e := Reached(cfg, before), VadChunk(true, env);
            && s.conv == Thinking && Rescued(s) && OnsetCancelsWait(cfg, s, e)
            && Step(cfg, s, e).conv == Thinking && !Rescued(Step(cfg, s, e))
  {
    var a, b, c, d := VadChunk(true, env), VadChunk(false, env), TtsStarted(false), Tone(pcm);
    ReachedByFour(cfg, a, b, c, d);
    var s := Step(cfg, Init(cfg), a);
    assert s.conv == Listening && s.vad == V.Counters(V.Talking, cfg.vad.chunkMs, 0);
    assert s.eosSent.Off? && s.vadEosSent.Off? && s.vadEcho.Off? && s.awaitingReply.Off?;
    var t := Step(cfg, s, b);
    assert t.conv == Thinking && t.eosSent.On? && t.asrTimer.On? && t.vad == V.AT_REST;
    var u := Step(cfg, Step(cfg, t, c), d);
    assert u.audio.buffer != [] && u.drain.Off?;
    WatchLostExactly(cfg, u, a);
  }

  // ── BARGED_IN ────────────────────────────────────────────────────

  // An interrupting user who is not inside a microphone segment is timed.
  predicate Attended(cfg: Config, s: State) {
    cfg.driveEos && s.conv == BargedIn ==> s.bargeEos.Some? || s.vad.mode == V.Talking
  }

  // The fallback fires, but the connection it was armed on is gone.
  predicate FallbackLosesSocket(cfg: Config, s: State, e: Event) {
    && e.BargeTimeout? && !e.sameSocket
    && cfg.driveEos && s.conv == BargedIn && s.bargeEos.Some? && s.vad.mode == V.Quiet
    && !(s.vad.speechMs > 0 && s.bargeEos.value < MAX_DEFER_MS)
  }

  lemma RoutedLeavesBargeIn(cfg: Config, s: State, e: Event)
    requires Routes(cfg, s, e)
    ensures Step(cfg, s, e).conv != BargedIn
  {
    var t := Answered(s, e);
    var w := Assembled(cfg, t, e);
    assert Step(cfg, s, e) == Route(cfg, t, e);
    if Dismissal(cfg, FullText(t, e)) {
      DismissLeavesBargeIn(cfg, w, FullText(t, e), e.spoken);
    }
  }

  lemma DismissLeavesBargeIn(cfg: Config, s: State, text: string, spoken: bool)
    ensures Dismiss(cfg, s, text, spoken).conv != BargedIn
  {
  }

  lemma UnroutedAttended(cfg: Config, s: State, e: Event)
    requires Attended(cfg, s) && e.Final? && !Routes(cfg, s, e)
    ensures Attended(cfg, Step(cfg, s, e))
  {
  }

  lemma ReplyAttended(cfg: Config, s: State, e: Event)
    requires Attended(cfg, s) && ReplyEvent(e)
    ensures Attended(cfg, Step(cfg, s, e))
  {
  }

  lemma RoomAttended(cfg: Config, s: State, e: Event)
    requires Attended(cfg, s) && Inv(cfg, s) && FromTheRoom(e)
    ensures Attended(cfg, Step(cfg, s, e))
  {
    if e.VadChunk? {
      ChunkAttended(cfg, s, e);
    }
  }

  lemma ChunkAttended(cfg: Config, s: State, e: Event)
    requires Attended(cfg, s) && Inv(cfg, s) && e.VadChunk?
    ensures Attended(cfg, Step(cfg, s, e))
  {
  }

  lemma OtherAttended(cfg: Config, s: State, e: Event)
    requires Attended(cfg, s) && !e.Final? && !ReplyEvent(e) && !FromTheRoom(e)
    ensures !Attended(cfg, Step(cfg, s, e)) <==> FallbackLosesSocket(cfg, s, e)
  {
  }

  // With a driven end of speech, BARGED_IN is left without a timer and without
  // an open segment in exactly one way.
  lemma AttentionLostExactly(cfg: Config, s: State, e: Event)
    requires Inv(cfg, s) && Attended(cfg, s)
    ensures !Attended(cfg, Step(cfg, s, e)) <==> FallbackLosesSocket(cfg, s, e)
  {
    if Routes(cfg, s, e) {
      RoutedLeavesBargeIn(cfg, s, e);
    } else if e.Final? {
      UnroutedAttended(cfg, s, e);
    } else if ReplyEvent(e) {
      ReplyAttended(cfg, s, e);
    } else if FromTheRoom(e) {
      RoomAttended(cfg, s, e);
    } else {
      OtherAttended(cfg, s, e);
    }
  }

  // While the connection holds, no run strands in BARGED_IN.
  lemma {:induction false} BargedInNeverStrands(cfg: Config, events: seq<Event>)
    requires forall i :: 0 <= i < |events| ==> !(events[i].BargeTimeout? && !events[i].sameSocket)
    ensures Attended(cfg, Reached(cfg, events))
    decreases |events|
  {
    if events != [] {
      BargedInNeverStrands(cfg, Before(events));
      ReachedInv(cfg, Before(events));
      AttentionLostExactly(cfg, Reached(cfg, Before(events)), Last(events));
    }
  }

  // The fallback may defer to speech that has not become a segment, but not
  // for ever: the turn ends, in a watched THINKING.
  lemma {:induction false} FallbackEndsTurn(cfg: Config, s: State, fires: seq<Event>)
    requires s.conv == BargedIn && s.bargeEos.Some? && s.vad.mode == V.Quiet && cfg.vad.silenceMs >= 1
    requires forall i :: 0 <= i < |fires| ==> fires[i] == BargeTimeout(true)
    requires |fires| >= 1 && s.bargeEos.value + |fires| > MAX_DEFER_MS
    ensures exists n :: 0 < n <= |fires| && EndsWatched(cfg, s, fires[..n])
    decreases |fires|
  {
    var t := Step(cfg, s, fires[0]);
    RunOne(cfg, s, fires[0]);
    assert fires[..1] == [fires[0]];
    if t.conv == Thinking {
      assert EndsWatched(cfg, s, fires[..1]);
    } else {
      FallbackEndsTurn(cfg, t, fires[1..]);
      var n :| 0 < n <= |fires[1..]| && EndsWatched(cfg, t, fires[1..][..n]);
      assert [fires[0]] + fires[1..][..n] == fires[..n + 1];
      RunAfter(cfg, s, fires[0], fires[1..][..n]);
      assert EndsWatched(cfg, s, fires[..n + 1]);
    }
  }

  predicate EndsWatched(cfg: Config, s: State, events: seq<Event>) {
    Run(cfg, s, events).conv == Thinking && Run(cfg, s, events).thinkingTimer.On?
  }

  lemma {:induction false} RunAfter(cfg: Config, s: State, e: Event, events: seq<Event>)
    ensures Run(cfg, s, [e] + events) == Run(cfg, Step(cfg, s, e), events)
    decreases |events|
  {
    RunOne(cfg, s, e);
    var all := [e] + events;
    if events == [] {
      assert all == [e];
    } else {
      assert all[..|all| - 1] == [e] + events[..|events| - 1];
      RunAfter(cfg, s, e, events[..|events| - 1]);
    }
  }

  // An open segment ends the turn when it closes.
  lemma SegmentEndsTurn(cfg: Config, s: State, e: Event)
    requires Inv(cfg, s) && s.conv == BargedIn && s.vad.mode == V.Talking
    requires e.VadChunk? && cfg.clientVad && !cfg.pushToTalk
    requires V.Tick(cfg.vad, s.vad, e.isSpeech).1 == V.Closed
    ensures Step(cfg, s, e).conv == Thinking && Step(cfg, s, e).thinkingTimer.On?
    ensures cfg.driveEos ==> Step(cfg, s, e).eosSent.On?
  {
  }

  lemma FirstFrameSpeaks(cfg: Config, pcm: seq<Byte>)
    requires cfg.alwaysOn
    ensures var s := Reached(cfg, [TtsAudio(pcm)]);
            s.conv == Speaking && A.IsPlaying(s.audio) && s.vad == V.AT_REST
  {
    RunOne(cfg, Init(cfg), TtsAudio(pcm));
  }

  lemma PartialInterrupts(cfg: Config, s: State, text: string)
    requires s.conv == Speaking && A.IsPlaying(s.audio) && s.vad == V.AT_REST
    requires cfg.driveEos && Strip(text) != "" && |Strip(text)| >= cfg.bargeMinChars
    ensures var t := Step(cfg, s, Partial(text, Env(true, true)));
            t.conv == BargedIn && t.bargeEos == Some(0) && t.vad == V.AT_REST
  {
  }

  // The connection changes under a barge-in that a partial result triggered:
  // no timer and no segment is left.
  lemma LostSocketExample(cfg: Config, pcm: seq<Byte>, text: string)
    requires cfg.alwaysOn && cfg.driveEos && Strip(text) != "" && |Strip(text)| >= cfg.bargeMinChars
    ensures var events := [TtsAudio(pcm), Partial(text, Env(true, true)), BargeTimeout(false)];
            var s := Reached(cfg, events);
            s.conv == BargedIn && s.bargeEos == None && s.vad.mode == V.Quiet
  {
    var a, b, c := TtsAudio(pcm), Partial(text, Env(true, true)), BargeTimeout(false);
    FirstFrameSpeaks(cfg, pcm);
    RunAppend(cfg, [a], b);
    RunAppend(cfg, [a, b], c);
    assert [a] + [b] == [a, b] && [a, b] + [c] == [a, b, c];
    PartialInterrupts(cfg, Reached(cfg, [a]), text);
  }
}
