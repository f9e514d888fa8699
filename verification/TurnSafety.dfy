// What every run of the conversation state machine keeps.
module TurnSafety {
  import opened Prelude
  import opened AsrText
  import opened Conversation
  import V = ClientVad
  import A = AudioIo

  function Reached(cfg: Config, events: seq<Event>): State {
    Run(cfg, Init(cfg), events)
  }

  function Before(events: seq<Event>): seq<Event>
    requires events != []
  {
    events[..|events| - 1]
  }

  function Last(events: seq<Event>): Event
    requires events != []
  {
    events[|events| - 1]
  }

  lemma RunOne(cfg: Config, s: State, e: Event)
    ensures Run(cfg, s, [e]) == Step(cfg, s, e)
  {
    assert Run(cfg, s, [e][..0]) == s;
  }

  lemma RunAppend(cfg: Config, events: seq<Event>, e: Event)
    ensures Reached(cfg, events + [e]) == Step(cfg, Reached(cfg, events), e)
  {
    assert Before(events + [e]) == events;
  }

  lemma ReachedByFour(cfg: Config, a: Event, b: Event, c: Event, d: Event)
    ensures Reached(cfg, [a, b, c, d]) == Step(cfg, Step(cfg, Step(cfg, Step(cfg, Init(cfg), a), b), c), d)
  {
    assert [] + [a] == [a] && [a] + [b] == [a, b] && [a, b] + [c] == [a, b, c] && [a, b, c] + [d] == [a, b, c, d];
    RunAppend(cfg, [], a);
    RunAppend(cfg, [a], b);
    RunAppend(cfg, [a, b], c);
    RunAppend(cfg, [a, b, c], d);
  }

  // Everything the service sends about a reply.
  predicate ReplyEvent(e: Event) {
    ReplyTail(e) || e.ResponseCreated?
  }

  predicate FromTheRoom(e: Event) {
    e.Partial? || e.SpeechStarted? || e.VadChunk? || e.GateClosed? || e.DeviceCallback? || e.Tone?
  }

  // ── the invariant of every reachable state ───────────────────────

  predicate Inv(cfg: Config, s: State) {
    && (s.conv == BargedIn ==> !s.sleepAfterTurn.On?)
    && (s.conv == Sleeping ==> !s.llmTurn.On? && s.pending == "")
    && (!cfg.exitReply ==> !s.sleepAfterTurn.On?)
    && (s.vad.mode == V.Talking ==> !s.vadEosSent.On?)
  }

  lemma DismissKeepsInv(cfg: Config, s: State, text: string, spoken: bool)
    requires Inv(cfg, s)
    ensures Inv(cfg, Dismiss(cfg, s, text, spoken))
  {
  }

  lemma RouteKeepsInv(cfg: Config, s: State, e: Event)
    requires e.Final? && Inv(cfg, s) && s.conv != Sleeping
    ensures Inv(cfg, Route(cfg, s, e))
  {
    var w := Assembled(cfg, s, e);
    assert Inv(cfg, w);
    DismissKeepsInv(cfg, w, FullText(s, e), e.spoken);
  }

  lemma FinalKeepsInv(cfg: Config, s: State, e: Event)
    requires e.Final? && Inv(cfg, s)
    ensures Inv(cfg, OnFinal(cfg, s, e))
  {
    if Routes(cfg, s, e) {
      RouteKeepsInv(cfg, Answered(s, e), e);
    } else {
      UnroutedKeepsInv(cfg, s, e);
    }
  }

  lemma UnroutedKeepsInv(cfg: Config, s: State, e: Event)
    requires e.Final? && Inv(cfg, s) && !Routes(cfg, s, e)
    ensures Inv(cfg, OnFinal(cfg, s, e))
  {
  }

  lemma VadKeepsInv(cfg: Config, s: State, isSpeech: bool, env: Env)
    requires Inv(cfg, s)
    ensures Inv(cfg, OnVadChunk(cfg, s, isSpeech, env))
  {
  }

  lemma FinishKeepsInv(cfg: Config, s: State)
    requires Inv(cfg, s)
    ensures Inv(cfg, FinishTurn(cfg, s))
  {
  }

  lemma ReplyKeepsInv(cfg: Config, s: State, e: Event)
    requires Inv(cfg, s) && ReplyTail(e)
    ensures Inv(cfg, Step(cfg, s, e))
  {
    if e.ResponseDone? || e.TtsDone? {
      DoneKeepsInv(cfg, s, e);
    }
  }

  lemma DoneKeepsInv(cfg: Config, s: State, e: Event)
    requires Inv(cfg, s) && (e.ResponseDone? || e.TtsDone?)
    ensures Inv(cfg, Step(cfg, s, e))
  {
    var t := s.(firstTts := Off, thinkingTimer := Off);
    if e.ResponseDone? {
      FinishKeepsInv(cfg, t);
    } else {
      FinishKeepsInv(cfg, t.(audio := A.MarkDone(t.audio)));
    }
  }

  lemma RoomKeepsInv(cfg: Config, s: State, e: Event)
    requires Inv(cfg, s) && FromTheRoom(e)
    ensures Inv(cfg, Step(cfg, s, e))
  {
    if e.VadChunk? {
      VadKeepsInv(cfg, s, e.isSpeech, e.env);
    }
  }

  lemma StepKeepsInv(cfg: Config, s: State, e: Event)
    requires Inv(cfg, s)
    ensures Inv(cfg, Step(cfg, s, e))
  {
    if e.Final? {
      FinalKeepsInv(cfg, s, e);
    } else if ReplyTail(e) {
      ReplyKeepsInv(cfg, s, e);
    } else if FromTheRoom(e) {
      RoomKeepsInv(cfg, s, e);
    }
  }

  lemma {:induction false} ReachedInv(cfg: Config, events: seq<Event>)
    ensures Inv(cfg, Reached(cfg, events))
  {
    if events != [] {
      ReachedInv(cfg, Before(events));
      StepKeepsInv(cfg, Reached(cfg, Before(events)), Last(events));
    }
  }

  // ── THINKING never strands ───────────────────────────────────────

  // Evidence that a reply is on its way.
  predicate ReplySign(s: State, e: Event) {
    (e.TtsStarted? && !s.awaitingReply.On?) || e.ResponseCreated? ||
    (e.ResponseDone? && e.toolCallOnly && !s.awaitingReply.On?)
  }

  // A reply has announced itself since THINKING was entered.
  predicate Announced(cfg: Config, events: seq<Event>)
    decreases |events|
  {
    if events == [] then false
    else
      var pre := Reached(cfg, Before(events));
      && Step(cfg, pre, Last(events)).conv == Thinking
      && (ReplySign(pre, Last(events)) || (pre.conv == Thinking && Announced(cfg, Before(events))))
  }

  // Some timer or task will end the wait.
  predicate Rescued(s: State) {
    s.thinkingTimer.On? || (s.asrTimer.On? && s.eosSent.On?) || s.drain.On?
  }

  predicate Guarded(cfg: Config, s: State, announced: bool) {
    s.conv == Thinking ==>
      announced || s.thinkingTimer.On? || s.drain.On? || (GateEos(cfg) && s.asrTimer.On? && s.eosSent.On?)
  }

  predicate AnnouncedAfter(cfg: Config, s: State, announced: bool, e: Event) {
    Step(cfg, s, e).conv == Thinking && (ReplySign(s, e) || (s.conv == Thinking && announced))
  }

  // The only way to lose the guard: a farewell answers an exit intent while
  // nothing but the recogniser's timer, or the drain of the reply that is
  // being superseded, was watching the wait.
  predicate FarewellStrands(cfg: Config, s: State, announced: bool, e: Event) {
    && Routes(cfg, s, e) && s.conv == Thinking
    && (cfg.exitIntent(FullText(s, e)) || (cfg.stopToSleep && cfg.stopIntent(FullText(s, e))))
    && cfg.exitReply && e.spoken
    && !announced && !s.thinkingTimer.On? && (s.drain.On? ==> Supersedes(cfg, s, e))
  }

  lemma DismissGuard(cfg: Config, s: State, text: string, spoken: bool)
    ensures var t := Dismiss(cfg, s, text, spoken);
            && t.thinkingTimer == s.thinkingTimer && t.eosSent == s.eosSent
            && (t.conv == Thinking ==>
                  && s.conv == Thinking && cfg.exitReply && spoken && t.drain == s.drain
                  && (cfg.exitIntent(text) || cfg.stopToSleep))
            && (s.conv == Thinking && cfg.exitReply && spoken && (cfg.exitIntent(text) || cfg.stopToSleep) ==>
                  t.conv == Thinking)
  {
  }

  lemma FinalGuard(cfg: Config, s: State, announced: bool, e: Event)
    requires Guarded(cfg, s, announced) && Routes(cfg, s, e)
    ensures !Guarded(cfg, Step(cfg, s, e), AnnouncedAfter(cfg, s, announced, e))
            <==> FarewellStrands(cfg, s, announced, e)
  {
    var text := FullText(s, e);
    var t := Answered(s, e);
    var w := Assembled(cfg, t, e);
    assert Step(cfg, s, e) == Route(cfg, t, e) && FullText(t, e) == text;
    assert w.conv == s.conv && w.thinkingTimer == s.thinkingTimer && w.eosSent.Off?;
    assert w.drain == if Supersedes(cfg, s, e) then Off else s.drain;
    if Dismissal(cfg, text) {
      DismissGuard(cfg, w, text, e.spoken);
    }
  }

  lemma ReplyGuard(cfg: Config, s: State, announced: bool, e: Event)
    requires Guarded(cfg, s, announced) && ReplyEvent(e)
    ensures Guarded(cfg, Step(cfg, s, e), AnnouncedAfter(cfg, s, announced, e))
  {
  }

  lemma RoomGuard(cfg: Config, s: State, announced: bool, e: Event)
    requires Guarded(cfg, s, announced) && FromTheRoom(e)
    ensures Guarded(cfg, Step(cfg, s, e), AnnouncedAfter(cfg, s, announced, e))
  {
  }

  lemma IgnoredGuard(cfg: Config, s: State, announced: bool, e: Event)
    requires Guarded(cfg, s, announced) && e.Final? && !Routes(cfg, s, e)
    ensures Guarded(cfg, Step(cfg, s, e), AnnouncedAfter(cfg, s, announced, e))
  {
  }

  lemma OtherGuard(cfg: Config, s: State, announced: bool, e: Event)
    requires Guarded(cfg, s, announced) && !e.Final? && !ReplyEvent(e) && !FromTheRoom(e)
    ensures Guarded(cfg, Step(cfg, s, e), AnnouncedAfter(cfg, s, announced, e))
  {
  }

  // In every state and for every event, the guard is lost exactly then.
  lemma GuardLostExactly(cfg: Config, s: State, announced: bool, e: Event)
    requires Guarded(cfg, s, announced)
    ensures !Guarded(cfg, Step(cfg, s, e), AnnouncedAfter(cfg, s, announced, e))
            <==> FarewellStrands(cfg, s, announced, e)
  {
    var kept := Guarded(cfg, Step(cfg, s, e), AnnouncedAfter(cfg, s, announced, e));
    if Routes(cfg, s, e) {
      FinalGuard(cfg, s, announced, e);
    } else if e.Final? {
      IgnoredGuard(cfg, s, announced, e);
    } else if ReplyEvent(e) {
      ReplyGuard(cfg, s, announced, e);
    } else if FromTheRoom(e) {
      RoomGuard(cfg, s, announced, e);
    } else {
      OtherGuard(cfg, s, announced, e);
    }
  }

  // Without a farewell, over every run and every other setting: a THINKING
  // state in which no reply has announced itself is watched, and the watcher's
  // firing leads to IDLE.
  lemma {:induction false} ThinkingNeverStrands(cfg: Config, events: seq<Event>)
    requires !cfg.exitReply
    ensures Guarded(cfg, Reached(cfg, events), Announced(cfg, events))
    ensures var s := Reached(cfg, events);
            s.conv == Thinking && !Announced(cfg, events) ==> Rescued(s)
  {
    if events != [] {
      ThinkingNeverStrands(cfg, Before(events));
      var pre := Reached(cfg, Before(events));
      GuardLostExactly(cfg, pre, Announced(cfg, Before(events)), Last(events));
    }
  }

  // Whichever watcher fires, the wait ends in IDLE; a drain that completes
  // with a farewell pending puts the agent to sleep instead.
  lemma WatchersReachIdle(cfg: Config, events: seq<Event>)
    requires Reached(cfg, events).conv == Thinking
    ensures var s := Reached(cfg, events);
            && (s.thinkingTimer.On? ==> Step(cfg, s, ThinkingTimeout).conv == Idle)
            && (s.asrTimer.On? && s.eosSent.On? ==> Step(cfg, s, AsrTimeout).conv == Idle)
            && (s.drain.On? ==> Step(cfg, s, DrainTick(true)).conv == if s.sleepAfterTurn.On? then Sleeping else Idle)
            && (!cfg.exitReply ==> !s.sleepAfterTurn.On?)
  {
    ReachedInv(cfg, events);
  }

  // An answer that announces itself before anything else watches the wait: if
  // the service then falls silent, THINKING has no timer at all. (Watchers
  // says when this happens.)
  lemma AnnouncedReplyIsUnwatched(cfg: Config, text: string, env: Env)
    requires cfg.alwaysOn && !LowSignal(cfg, text) && !Dismissal(cfg, Join("", text))
    ensures var s := Reached(cfg, [Final(text, false, true, true, env), TtsStarted(false)]);
            s.conv == Thinking && !Rescued(s)
  {
    var final := Final(text, false, true, true, env);
    var events := [final, TtsStarted(false)];
    assert Before(events) == [final] && Before([final]) == [];
    RunOne(cfg, Init(cfg), final);
  }

  // With a farewell the guard can be lost: the gate ended the turn, so only
  // the recogniser's timer was running, and the final that cancels it is an
  // exit intent.
  lemma FarewellExample(cfg: Config, text: string)
    requires cfg.alwaysOn && GateEos(cfg) && cfg.exitReply
    requires !LowSignal(cfg, text) && cfg.exitIntent(Join("", text))
    ensures var events := [GateClosed, Final(text, false, true, true, Env(true, true))];
            var s := Reached(cfg, events);
            s.conv == Thinking && !Announced(cfg, events) && !Rescued(s)
  {
    var final := Final(text, false, true, true, Env(true, true));
    var events := [GateClosed, final];
    assert Before(events) == [GateClosed] && Before([GateClosed]) == [];
    RunOne(cfg, Init(cfg), GateClosed);
  }

  // ── barge-in ─────────────────────────────────────────────────────

  // From BARGED_IN, no sequence of reply events leaves the state or queues PCM.
  lemma {:induction false} BargedInHolds(cfg: Config, s: State, events: seq<Event>)
    requires s.conv == BargedIn && !s.sleepAfterTurn.On?
    requires forall i :: 0 <= i < |events| ==> ReplyEvent(events[i])
    ensures var t := Run(cfg, s, events);
            t.conv == BargedIn && !t.sleepAfterTurn.On? && t.audio.buffer == s.audio.buffer &&
            t.pending == s.pending && t.log == s.log
  {
    if events != [] {
      assert ReplyEvent(Last(events));
      BargedInHolds(cfg, s, Before(events));
    }
  }

  // ... whatever led to BARGED_IN.
  lemma InterruptedReplyCannotResume(cfg: Config, history: seq<Event>, events: seq<Event>)
    requires Reached(cfg, history).conv == BargedIn
    requires forall i :: 0 <= i < |events| ==> ReplyEvent(events[i])
    ensures var s, t := Reached(cfg, history), Run(cfg, Reached(cfg, history), events);
            t.conv == BargedIn && t.audio.buffer == s.audio.buffer
  {
    ReachedInv(cfg, history);
    BargedInHolds(cfg, Reached(cfg, history), events);
  }

  // ── superseding a reply ──────────────────────────────────────────

  // A user turn that arrives while a reply is audible silences it and starts
  // a watched wait.
  lemma SupersedingTurn(cfg: Config, s: State, e: Event)
    requires Routes(cfg, s, e) && Supersedes(cfg, s, e) && !Dismissal(cfg, FullText(s, e))
    ensures var t := Step(cfg, s, e);
            && t.awaitingReply.On? && t.audio.buffer == [] && t.audio.discard.On? && !A.IsPlaying(t.audio)
            && t.conv == Thinking && t.thinkingTimer.On? && !t.drain.On?
            && t.log == s.log + [AbortKeepAsr, Utterance(FullText(s, e)), LlmTurn(FullText(s, e))]
  {
    assert Step(cfg, s, e) == Route(cfg, Answered(s, e), e);
    assert FullText(Answered(s, e), e) == FullText(s, e);
  }

  // No event starts the new reply or dispatches another user turn.
  predicate StillWaiting(cfg: Config, s: State, events: seq<Event>) {
    forall i :: 0 <= i < |events| ==>
      !events[i].ReplyTextSent? && !Routes(cfg, Run(cfg, s, events[..i]), events[i])
  }

  // The reply bytes a run lets into the playback queue.
  function ReplyBytes(cfg: Config, s: State, events: seq<Event>): nat
    decreases |events|
  {
    if events == [] then 0
    else
      var pre := Run(cfg, s, Before(events));
      ReplyBytes(cfg, s, Before(events)) +
      if Last(events).TtsAudio? then |Step(cfg, pre, Last(events)).audio.buffer| - |pre.audio.buffer| else 0
  }

  lemma WaitingStep(cfg: Config, s: State, e: Event)
    requires s.awaitingReply.On? && !e.ReplyTextSent? && !Routes(cfg, s, e)
    ensures Step(cfg, s, e).awaitingReply.On?
    ensures ReplyTail(e) ==> Step(cfg, s, e) == s
  {
  }

  lemma {:induction false} WaitingHolds(cfg: Config, s: State, events: seq<Event>)
    requires s.awaitingReply.On? && StillWaiting(cfg, s, events)
    ensures Run(cfg, s, events).awaitingReply.On?
    ensures ReplyBytes(cfg, s, events) == 0
  {
    if events != [] {
      var n := |events| - 1;
      var init := Before(events);
      WaitsInPrefix(cfg, s, events, n);
      WaitingHolds(cfg, s, init);
      assert !events[n].ReplyTextSent? && !Routes(cfg, Run(cfg, s, events[..n]), events[n]);
      WaitingStep(cfg, Run(cfg, s, init), events[n]);
    }
  }

  lemma WaitsInPrefix(cfg: Config, s: State, events: seq<Event>, n: nat)
    requires n <= |events| && StillWaiting(cfg, s, events)
    ensures StillWaiting(cfg, s, events[..n])
  {
    forall i | 0 <= i < n
      ensures !events[..n][i].ReplyTextSent? && !Routes(cfg, Run(cfg, s, events[..n][..i]), events[..n][i])
    {
      assert events[..n][..i] == events[..i];
    }
  }

  lemma TailChangesNothing(cfg: Config, s: State, events: seq<Event>, i: nat)
    requires i < |events| && ReplyTail(events[i]) && Run(cfg, s, events[..i]).awaitingReply.On?
    ensures Run(cfg, s, events[..i + 1]) == Run(cfg, s, events[..i])
  {
    assert Before(events[..i + 1]) == events[..i];
  }

  // Until then none of the old reply's frames is queued, even if a noise final
  // re-arms playback, and none of its events changes anything.
  lemma SupersededReplyIsSilent(cfg: Config, s: State, events: seq<Event>)
    requires s.awaitingReply.On? && StillWaiting(cfg, s, events)
    ensures Run(cfg, s, events).awaitingReply.On?
    ensures ReplyBytes(cfg, s, events) == 0
    ensures forall i :: 0 <= i < |events| && ReplyTail(events[i]) ==>
              Run(cfg, s, events[..i + 1]) == Run(cfg, s, events[..i])
  {
    WaitingHolds(cfg, s, events);
    forall i | 0 <= i < |events| && ReplyTail(events[i])
      ensures Run(cfg, s, events[..i + 1]) == Run(cfg, s, events[..i])
    {
      WaitsInPrefix(cfg, s, events, i);
      WaitingHolds(cfg, s, events[..i]);
      TailChangesNothing(cfg, s, events, i);
    }
  }

  // ── sleep ────────────────────────────────────────────────────────

  // What ends a sleep. Besides a successful wake-up, reply frames do: they are
  // not gated by the state.
  predicate EndsSleep(cfg: Config, s: State, e: Event) {
    || (e.Wake? && e.connected)
    || (!s.awaitingReply.On? &&
        ((e.TtsAudio? && !s.dropSentence.On? && !s.firstTts.On?) || (e.ResponseDone? && e.toolCallOnly) ||
         ((e.TtsDone? || e.ResponseDone?) && !s.sleepAfterTurn.On? && !DrainsFirst(cfg, s, e))))
    || (e.DrainTick? && s.drain.On? && !s.sleepAfterTurn.On? && (e.expired || !A.IsPlaying(s.audio)))
  }

  // The end of the reply is put off until the queued sound has played.
  predicate DrainsFirst(cfg: Config, s: State, e: Event) {
    cfg.drainPlayback && if e.TtsDone? then s.audio.buffer != [] else A.IsPlaying(s.audio)
  }

  lemma SleepEndsExactly(cfg: Config, events: seq<Event>, e: Event)
    requires Reached(cfg, events).conv == Sleeping
    ensures var s := Reached(cfg, events);
            Step(cfg, s, e).conv != Sleeping <==> EndsSleep(cfg, s, e)
  {
    ReachedInv(cfg, events);
    var s := Reached(cfg, events);
    if ReplyEvent(e) {
      ReplyInSleep(cfg, s, e);
    } else {
      OtherInSleep(cfg, s, e);
    }
  }

  lemma ReplyInSleep(cfg: Config, s: State, e: Event)
    requires Inv(cfg, s) && s.conv == Sleeping && ReplyEvent(e)
    ensures Step(cfg, s, e).conv != Sleeping <==> EndsSleep(cfg, s, e)
  {
  }

  lemma OtherInSleep(cfg: Config, s: State, e: Event)
    requires Inv(cfg, s) && s.conv == Sleeping && !ReplyEvent(e)
    ensures Step(cfg, s, e).conv != Sleeping <==> EndsSleep(cfg, s, e)
  {
  }

  // ... as they do in every setting.
  lemma ReplyFrameWakes(cfg: Config, pcm: seq<Byte>)
    ensures Reached(cfg, [SleepRequest]).conv == Sleeping
    ensures Reached(cfg, [SleepRequest, TtsAudio(pcm)]).conv == Speaking
    ensures !cfg.alwaysOn ==> Reached(cfg, []).conv == Sleeping && Reached(cfg, [TtsAudio(pcm)]).conv == Speaking
  {
    RunOne(cfg, Init(cfg), SleepRequest);
    RunOne(cfg, Init(cfg), TtsAudio(pcm));
    RunAppend(cfg, [SleepRequest], TtsAudio(pcm));
    assert [SleepRequest] + [TtsAudio(pcm)] == [SleepRequest, TtsAudio(pcm)];
  }

  // ── one end-of-speech per turn ───────────────────────────────────

  function EosCount(log: seq<Action>): nat {
    multiset(log)[AsrEos]
  }

  lemma EosAppend(log: seq<Action>, a: Action)
    ensures EosCount(log + [a]) == EosCount(log) + (if a == AsrEos then 1 else 0)
  {
  }

  // How often a run closes a turn by clearing the end-of-speech latch.
  function Clears(cfg: Config, events: seq<Event>): nat
    decreases |events|
  {
    if events == [] then 0
    else
      var pre := Reached(cfg, Before(events));
      Clears(cfg, Before(events)) +
      if pre.eosSent.On? && !Step(cfg, pre, Last(events)).eosSent.On? then 1 else 0
  }

  // No action other than an end-of-speech counts.
  lemma EosAppendOthers(log: seq<Action>, a: Action, b: Action)
    requires a != AsrEos && b != AsrEos
    ensures EosCount(log + [a]) == EosCount(log) == EosCount(log + [a] + [b])
  {
    EosAppend(log, a);
    EosAppend(log + [a], b);
  }

  lemma DismissLog(cfg: Config, s: State, text: string, spoken: bool)
    ensures EosCount(Dismiss(cfg, s, text, spoken).log) == EosCount(s.log)
    ensures Dismiss(cfg, s, text, spoken).eosSent == s.eosSent
  {
    EosAppendOthers(s.log, Abort, Abort);
    EosAppendOthers(s.log, Abort, Farewell);
    var log := Dismiss(cfg, s, text, spoken).log;
    assert log == s.log + [Abort] || log == s.log + [Abort] + [Abort] || log == s.log + [Abort] + [Farewell];
  }

  lemma AssembledLog(cfg: Config, s: State, e: Event)
    requires e.Final?
    ensures EosCount(Assembled(cfg, s, e).log) == EosCount(s.log) && Assembled(cfg, s, e).eosSent.Off?
  {
    var text := FullText(s, e);
    EosAppendOthers(s.log, AbortKeepAsr, Utterance(text));
    EosAppend(s.log, Utterance(text));
  }

  lemma RouteLog(cfg: Config, s: State, e: Event)
    requires e.Final?
    ensures EosCount(Route(cfg, s, e).log) == EosCount(s.log) && Route(cfg, s, e).eosSent.Off?
  {
    var text := FullText(s, e);
    AssembledLog(cfg, s, e);
    DismissLog(cfg, Assembled(cfg, s, e), text, e.spoken);
    EosAppend(Assembled(cfg, s, e).log, LlmTurn(text));
  }

  predicate EosCounted(s: State, t: State) {
    EosCount(t.log) == EosCount(s.log) + (if s.eosSent.Off? && t.eosSent.On? then 1 else 0)
  }

  lemma FinalLog(cfg: Config, s: State, e: Event)
    requires e.Final?
    ensures EosCounted(s, OnFinal(cfg, s, e))
  {
    var t := Answered(s, e);
    if Routes(cfg, s, e) {
      assert OnFinal(cfg, s, e) == Route(cfg, t, e);
      RouteLog(cfg, t, e);
    } else {
      assert OnFinal(cfg, s, e).log == s.log;
    }
  }

  lemma VadLog(cfg: Config, s: State, isSpeech: bool, env: Env)
    ensures EosCounted(s, OnVadChunk(cfg, s, isSpeech, env))
  {
    EosAppend(s.log, AbortKeepAsr);
    EosAppend(s.log, AsrEos);
  }

  lemma ReplyLog(cfg: Config, s: State, e: Event)
    requires ReplyEvent(e)
    ensures EosCounted(s, Step(cfg, s, e))
  {
    EosAppend(s.log, Abort);
  }

  lemma RoomLog(cfg: Config, s: State, e: Event)
    requires FromTheRoom(e)
    ensures EosCounted(s, Step(cfg, s, e))
  {
    if e.VadChunk? {
      VadLog(cfg, s, e.isSpeech, e.env);
    } else {
      EosAppend(s.log, AbortKeepAsr);
      EosAppend(s.log, AsrEos);
    }
  }

  lemma OtherLog(cfg: Config, s: State, e: Event)
    requires !e.Final? && !ReplyEvent(e) && !FromTheRoom(e)
    ensures EosCounted(s, Step(cfg, s, e))
  {
    EosAppend(s.log, Abort);
    EosAppend(s.log, AsrEos);
  }

  // A step sends at most one end-of-speech, and exactly when it takes the latch.
  lemma StepLog(cfg: Config, s: State, e: Event)
    ensures EosCounted(s, Step(cfg, s, e))
  {
    if e.Final? {
      FinalLog(cfg, s, e);
    } else if ReplyEvent(e) {
      ReplyLog(cfg, s, e);
    } else if FromTheRoom(e) {
      RoomLog(cfg, s, e);
    } else {
      OtherLog(cfg, s, e);
    }
  }

  // Every asr_eos sent is the one of its turn: their number is the number of
  // times the latch was released, plus one if it is still held.
  lemma {:induction false} OneEosPerTurn(cfg: Config, events: seq<Event>)
    ensures EosCount(Reached(cfg, events).log) ==
            Clears(cfg, events) + (if Reached(cfg, events).eosSent.On? then 1 else 0)
  {
    if events != [] {
      OneEosPerTurn(cfg, Before(events));
      StepLog(cfg, Reached(cfg, Before(events)), Last(events));
    }
  }
}
