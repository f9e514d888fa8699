// The agent object of agent/ovs_agent/app_base.py: the handlers update the
// latches in place, in the order the program does. Each is proved against the
// state machine of Conversation; the object remembers the events it handled,
// and what every run of that machine keeps is what the object promises.
module BaseApp {
  import opened Prelude
  import opened AsrText
  import opened Conversation
  import opened Effects
  import opened EffectSteps
  import opened Muting
  import opened Standby
  import opened TurnSafety
  import opened UtteranceAssembly
  import opened Watchers
  import V = ClientVad
  import A = AudioIo

  class App {
    const cfg: Config
    const audio: A.AudioIO

    var conv: ConvState
    var eosSentThisTurn: Latch
    var asrWatchdog: Latch
    var thinkingWatchdog: Latch
    var stallWatchdog: Latch
    var sleepTask: Latch
    var playbackDrain: Latch
    var bargeinEos: Option<nat>
    var firstTtsSeen: Latch
    var dropCurrentTtsSentence: Latch
    var awaitingNewReply: Latch
    var sleepAfterAssistantTurn: Latch
    var inWakeGreeting: Latch
    var llmTurnTask: Latch
    var pendingAsrUtteranceText: string
    var vadMode: V.Mode
    var vadSpeechMs: nat
    var vadSilenceMs: nat
    var vadEosSent: Latch
    var vadEchoSegment: Latch
    var log: seq<Action>
    ghost var history: seq<Event>          // every event handled so far

    // The object is in the state its history leads to.
    ghost predicate Valid()
      reads this, audio
    {
      View() == Reached(cfg, history)
    }

    // What the user can rely on, whatever happened.
    ghost predicate Promises()
      reads this, audio
    {
      Kept(cfg, View(), history)
    }

    function View(): State
      reads this, audio
    {
      State(conv, eosSentThisTurn, asrWatchdog, thinkingWatchdog, stallWatchdog,
            sleepTask, playbackDrain, bargeinEos, firstTtsSeen, dropCurrentTtsSentence,
            awaitingNewReply, sleepAfterAssistantTurn, inWakeGreeting, llmTurnTask,
            pendingAsrUtteranceText, V.Counters(vadMode, vadSpeechMs, vadSilenceMs), vadEosSent,
            vadEchoSegment, audio.View(), log)
    }

    constructor (cfg: Config, outputRate: nat)
      ensures this.cfg == cfg && View() == Init(cfg) && fresh(audio)
      ensures history == [] && Valid() && Promises()
    {
      this.cfg := cfg;
      audio := new A.AudioIO(outputRate);
      conv := if cfg.alwaysOn then Idle else Sleeping;
      eosSentThisTurn, asrWatchdog, thinkingWatchdog, stallWatchdog, sleepTask, playbackDrain :=
        Off, Off, Off, Off, Off, Off;
      bargeinEos := None;
      firstTtsSeen, dropCurrentTtsSentence, awaitingNewReply, sleepAfterAssistantTurn, inWakeGreeting, llmTurnTask :=
        Off, Off, Off, Off, Off, Off;
      pendingAsrUtteranceText := "";
      vadMode, vadSpeechMs, vadSilenceMs, vadEosSent, vadEchoSegment := V.Quiet, 0, 0, Off, Off;
      log := [];
      history := [];
      new;
      RunsKeep(cfg, []);
    }

    // ── shared pieces ──────────────────────────────────────────────

    method SetState(next: ConvState)
      modifies this
      ensures View() == old(View()).(conv := next)
    {
      if next == conv {
        return;
      }
      conv := next;
    }

    method ArmSleepTimer()
      modifies this
      ensures View() == ResetSleepTimer(cfg, old(View()))
    {
      if cfg.alwaysOn {
        return;
      }
      sleepTask := On;
    }

    // Cancel the language model's turn and tell the service to stop.
    method AbortTurn()
      modifies this
      ensures View() == old(View()).(llmTurn := Off, log := old(View()).log + [Abort])
    {
      llmTurnTask := Off;
      log := log + [Abort];
    }

    // The recogniser owes no final for this turn any more.
    method DropEos()
      modifies this
      ensures View() == old(View()).(eosSent := Off, asrTimer := Off)
    {
      eosSentThisTurn := Off;
      asrWatchdog := Off;
    }

    // Nothing of the turn is left over: no half utterance, no reply to come.
    method ForgetTurn()
      modifies this
      ensures View() == old(View()).(pending := "", drain := Off, firstTts := Off)
    {
      pendingAsrUtteranceText := "";
      playbackDrain := Off;
      firstTtsSeen := Off;
    }

    method GoToSleep()
      modifies this, audio
      ensures View() == Sleep(old(View()))
    {
      if conv == Sleeping {
        return;
      }
      AbortTurn();
      audio.StopPlayback();
      ForgetTurn();
      SetState(Sleeping);
      sleepTask := Off;
    }

    method SendAsrEosOnce() returns (sent: bool)
      modifies this
      ensures View() == SendEos(old(View())) && sent == old(eosSentThisTurn).Off?
    {
      if eosSentThisTurn.On? {
        return false;
      }
      eosSentThisTurn := On;
      log := log + [AsrEos];
      asrWatchdog := On;
      return true;
    }

    method CompleteAssistantTurn()
      modifies this, audio
      ensures View() == CompleteTurn(cfg, old(View()))
    {
      if sleepAfterAssistantTurn.On? {
        sleepAfterAssistantTurn := Off;
        GoToSleep();
        return;
      }
      inWakeGreeting := Off;
      if conv != BargedIn {
        SetState(Idle);
        ArmSleepTimer();
      }
    }

    // Stop the reply but let the recogniser go on with the user's words.
    method HushReply()
      modifies this, audio
      ensures View() == old(View()).(llmTurn := Off, audio := A.Stop(old(View()).audio),
                                     log := old(View()).log + [AbortKeepAsr])
    {
      llmTurnTask := Off;
      audio.StopPlayback();
      log := log + [AbortKeepAsr];
    }

    method ClearReplyLatches()
      modifies this
      ensures View() == old(View()).(firstTts := Off, sleepAfterTurn := Off, greeting := Off)
    {
      firstTtsSeen := Off;
      sleepAfterAssistantTurn := Off;
      inWakeGreeting := Off;
    }

    method ArmBargeinFallback()
      modifies this
      ensures View() == old(View()).(bargeEos := if cfg.driveEos && old(vadMode) != V.Talking then Some(0) else None)
    {
      bargeinEos := None;
      if !cfg.driveEos || vadMode == V.Talking {
        return;
      }
      bargeinEos := Some(0);
    }

    method InterruptCurrentTurn()
      modifies this, audio
      ensures View() == Interrupt(cfg, old(View()))
    {
      HushReply();
      DropEos();
      ClearReplyLatches();
      ArmBargeinFallback();
    }

    method AccumulateAsrSegment(text: string)
      modifies this
      ensures View() == old(View()).(pending := if Strip(text) == "" then old(pendingAsrUtteranceText)
                                                else Join(old(pendingAsrUtteranceText), text))
    {
      var segment := Strip(text);
      if segment == "" {
        return;
      }
      var _, _ := StripDrops(text);
      StripFixed(segment);
      pendingAsrUtteranceText := Join(pendingAsrUtteranceText, segment);
    }

    method TakePendingAsrUtterance() returns (pending: string)
      modifies this
      ensures pending == old(pendingAsrUtteranceText) && View() == old(View()).(pending := "")
    {
      pending := pendingAsrUtteranceText;
      pendingAsrUtteranceText := "";
    }

    // ── recognition results ────────────────────────────────────────

    method DispatchPartial(e: Event)
      requires e.Partial?
      modifies this, audio
      ensures View() == OnPartial(cfg, old(View()), e)
    {
      if conv == Sleeping {
        return;
      }
      var text := Strip(e.text);
      if text == "" {
        return;
      }
      if conv == Idle || conv == Listening {
        if cfg.stallFallback {
          stallWatchdog := On;
        }
      }
      if |text| < cfg.bargeMinChars {
        return;
      }
      if !e.env.settled {
        return;
      }
      var busy := audio.Busy();
      if (conv == Speaking || conv == BargedIn) && busy && e.env.bargeIn {
        if conv == Speaking {
          SetState(BargedIn);
        }
        InterruptCurrentTurn();
      }
    }

    method DispatchSpeechStarted(e: Event)
      requires e.SpeechStarted?
      modifies this, audio
      ensures View() == OnSpeechStarted(cfg, old(View()), e)
    {
      var busy := audio.Busy();
      if conv == Speaking && busy && e.env.bargeIn && e.env.settled {
        SetState(BargedIn);
        InterruptCurrentTurn();
      }
    }

    // Stay up to speak a farewell; without one there is nothing to wait for.
    method SayFarewell(spoken: bool)
      modifies this, audio
      ensures var s := old(View());
              var u := s.(audio := A.Arm(s.audio), conv := if s.conv == BargedIn then Idle else s.conv);
              View() == if spoken then u.(sleepAfterTurn := On, log := u.log + [Farewell])
                        else u.(sleepAfterTurn := Off)
    {
      sleepAfterAssistantTurn := On;
      audio.ArmForNextTurn();
      if conv == BargedIn {
        SetState(Idle);
      }
      if spoken {
        log := log + [Farewell];
      } else {
        sleepAfterAssistantTurn := Off;
      }
    }

    method DismissUser(text: string, spoken: bool)
      modifies this, audio
      ensures View() == Dismiss(cfg, old(View()), text, spoken)
    {
      awaitingNewReply := Off;
      var shouldSleep := cfg.exitIntent(text) || cfg.stopToSleep;
      AbortTurn();
      audio.StopPlayback();
      if shouldSleep {
        if cfg.exitReply {
          SayFarewell(spoken);
          if spoken {
            return;
          }
        }
        GoToSleep();
        return;
      }
      SetState(Idle);
      ArmSleepTimer();
    }

    method IgnoreNoiseFinal(hadPendingEos: bool)
      modifies this, audio
      ensures View() == IgnoreNoise(cfg, old(View()), hadPendingEos)
    {
      audio.ArmForNextTurn();
      if (conv == Listening || conv == BargedIn) && pendingAsrUtteranceText == "" {
        SetState(Idle);
        ArmSleepTimer();
      } else if conv == Thinking && hadPendingEos {
        SetState(Idle);
        ArmSleepTimer();
      }
    }

    // The utterance is complete: hush a superseded reply and listen afresh.
    // An interrupted reply's frames are still to come; otherwise let the next
    // reply be heard.
    method SupersedeReply(env: Env)
      modifies this, audio
      ensures var s := old(View());
              View() == if A.IsPlaying(s.audio) && env.bargeIn && !cfg.serverLoop
                        then Interrupt(cfg, s.(drain := Off)).(awaitingReply := On)
                        else s.(awaitingReply := Off, audio := A.Arm(s.audio))
    {
      var busy := audio.Busy();
      if busy && env.bargeIn && !cfg.serverLoop {
        playbackDrain := Off;
        InterruptCurrentTurn();
        awaitingNewReply := On;
      } else {
        awaitingNewReply := Off;
        audio.ArmForNextTurn();
      }
    }

    method ResetVad()
      modifies this
      ensures View() == old(View()).(vad := V.AT_REST)
    {
      vadMode := V.Quiet;
      vadSpeechMs := 0;
      vadSilenceMs := 0;
    }

    method AssembleUtterance(e: Event) returns (text: string)
      requires e.Final?
      modifies this, audio
      ensures View() == Assembled(cfg, old(View()), e) && text == FullText(old(View()), e)
    {
      var pending := TakePendingAsrUtterance();
      text := Join(pending, Content(e));
      SupersedeReply(e.env);
      ResetVad();
      vadEosSent := Off;
      eosSentThisTurn := Off;
      log := log + [Utterance(text)];
    }

    method RouteUtterance(e: Event)
      requires e.Final?
      modifies this, audio
      ensures View() == Route(cfg, old(View()), e)
    {
      var text := AssembleUtterance(e);
      var dismissed := cfg.stopIntent(text) || cfg.exitIntent(text);
      if dismissed {
        DismissUser(text, e.spoken);
        return;
      }
      AnswerUser(text);
    }

    method AnswerUser(text: string)
      modifies this
      ensures View() == Answer(old(View()), text)
    {
      SetState(Thinking);
      thinkingWatchdog := On;
      llmTurnTask := On;
      log := log + [LlmTurn(text)];
    }

    // Any final at all stands the recogniser's timers down.
    method StandDown() returns (hadPendingEos: bool)
      modifies this
      ensures View() == old(View()).(asrTimer := Off, stallTimer := Off, eosSent := Off)
      ensures hadPendingEos == old(eosSentThisTurn).On?
    {
      asrWatchdog := Off;
      stallWatchdog := Off;
      hadPendingEos := eosSentThisTurn.On?;
      eosSentThisTurn := Off;
    }

    method IgnoreDuplicate()
      modifies this
      ensures View() == if old(conv) == Thinking then ResetSleepTimer(cfg, old(View()).(conv := Idle)) else old(View())
    {
      if conv == Thinking {
        SetState(Idle);
        ArmSleepTimer();
      }
    }

    method DispatchFinal(e: Event)
      requires e.Final?
      modifies this, audio
      ensures View() == OnFinal(cfg, old(View()), e)
    {
      if conv == Sleeping {
        if e.renewed {
          firstTtsSeen := Off;
        }
        return;
      }
      ghost var s := View();
      var hadPendingEos := StandDown();
      if e.duplicate && pendingAsrUtteranceText == "" {
        IgnoreDuplicate();
        return;
      }
      if e.renewed {
        firstTtsSeen := Off;
      }
      assert View() == Answered(s, e);
      var lowSignal := Strip(e.text) == "" || cfg.noise(e.text);
      var stopOrExit := cfg.stopIntent(e.text) || cfg.exitIntent(e.text);
      var ignored := lowSignal && !stopOrExit && !(hadPendingEos && pendingAsrUtteranceText != "");
      assert ignored == Ignored(cfg, s, e);
      if ignored {
        IgnoreNoiseFinal(hadPendingEos);
        return;
      }
      if cfg.driveEos && !hadPendingEos && (conv == Listening || conv == BargedIn) {
        AccumulateAsrSegment(Content(e));
        return;
      }
      RouteUtterance(e);
    }

    // ── the reply ──────────────────────────────────────────────────

    method DispatchTtsAudio(pcm: seq<Byte>)
      modifies this, audio
      ensures View() == OnTtsAudio(old(View()), pcm)
    {
      if dropCurrentTtsSentence.On? {
        return;
      }
      if conv == BargedIn {
        return;
      }
      if !firstTtsSeen.On? {
        firstTtsSeen := On;
        SetState(Speaking);
      }
      audio.PlayFrame(pcm);
    }

    method EndTurn()
      modifies this, audio
      ensures View() == CompleteTurn(cfg, old(View())).(firstTts := Off, eosSent := Off)
    {
      CompleteAssistantTurn();
      firstTtsSeen := Off;
      eosSentThisTurn := Off;
    }

    method FinishAssistantTurn()
      modifies this, audio
      ensures View() == FinishTurn(cfg, old(View()))
    {
      if conv != BargedIn {
        playbackDrain := Off;
        var busy := audio.Busy();
        if cfg.drainPlayback && busy {
          playbackDrain := On;
          return;
        }
      }
      EndTurn();
    }

    method DispatchResponseDone(toolCallOnly: bool)
      modifies this, audio
      ensures View() == OnResponseDone(cfg, old(View()), toolCallOnly)
    {
      firstTtsSeen := Off;
      thinkingWatchdog := Off;
      if toolCallOnly {
        if conv != BargedIn {
          SetState(Thinking);
        }
        return;
      }
      FinishAssistantTurn();
    }

    method DispatchTtsDone()
      modifies this, audio
      ensures View() == OnTtsDone(cfg, old(View()))
    {
      firstTtsSeen := Off;
      thinkingWatchdog := Off;
      audio.MarkPlaybackDone();
      FinishAssistantTurn();
    }

    method DispatchError()
      modifies this
      ensures View() == OnError(old(View()))
    {
      asrWatchdog := Off;
      thinkingWatchdog := Off;
      pendingAsrUtteranceText := "";
      llmTurnTask := Off;
      if conv != Sleeping {
        SetState(Idle);
      }
    }

    // One event from the speech service.
    method DispatchOne(e: Event)
      requires FromService(e)
      modifies this, audio
      ensures View() == Step(cfg, old(View()), e)
    {
      if awaitingNewReply.On? && ReplyTail(e) {
        return;
      }
      match e
      case Partial(_, _) => DispatchPartial(e);
      case SpeechStarted(_) => DispatchSpeechStarted(e);
      case Final(_, _, _, _, _) => DispatchFinal(e);
      case TtsStarted(repeated) =>
        thinkingWatchdog := Off;
        dropCurrentTtsSentence := Flag(repeated);
      case ResponseCreated(id) =>
        audio.BeginResponsePlayback(id);
        thinkingWatchdog := Off;
      case TtsAudio(pcm) => DispatchTtsAudio(pcm);
      case TtsSentenceDone => dropCurrentTtsSentence := Off;
      case ResponseAudioDone => audio.MarkPlaybackDone();
      case ResponseDone(toolCallOnly) => DispatchResponseDone(toolCallOnly);
      case TtsDone => DispatchTtsDone();
      case SlvError => DispatchError();
      case Informational =>
    }

    // ── microphone ─────────────────────────────────────────────────

    method BeginSegment()
      modifies this
      ensures View() == old(View()).(vadEosSent := Off, vadEcho := Off, bargeEos := None)
    {
      vadEosSent := Off;
      vadEchoSegment := Off;
      bargeinEos := None;
    }

    method VadSpeechStarted(env: Env)
      modifies this, audio
      ensures View() == OnVadOpened(cfg, old(View()), env)
    {
      BeginSegment();
      if conv == Thinking && eosSentThisTurn.On? {
        DropEos();
      }
      var busy := audio.Busy();
      if busy && conv == Speaking && env.bargeIn && env.settled {
        SetState(BargedIn);
        InterruptCurrentTurn();
      } else if busy && conv == Speaking && env.bargeIn {
        vadEchoSegment := On;
      } else if busy {
      } else {
        SetState(Listening);
      }
    }

    method VadSpeechEnded()
      modifies this
      ensures View() == OnVadClosed(cfg, old(View()))
    {
      if vadEchoSegment.On? && conv == Speaking {
        vadEosSent := On;
      } else if !vadEosSent.On? {
        if cfg.driveEos {
          var _ := SendAsrEosOnce();
        }
        SetState(Thinking);
        thinkingWatchdog := On;
        vadEosSent := On;
      }
    }

    // Add a speech chunk to the quiet counters; the run may now be long enough.
    method CountSpeech() returns (onset: bool)
      requires vadMode == V.Quiet
      modifies this
      ensures var (vad, edge) := V.Tick(cfg.vad, old(View()).vad, true);
              View() == old(View()).(vad := vad) && onset == edge.Opened?
    {
      vadSpeechMs := vadSpeechMs + cfg.vad.chunkMs;
      onset := vadSpeechMs >= cfg.vad.speechMinMs;
      if onset {
        vadMode := V.Talking;
        vadSilenceMs := 0;
      }
    }

    method QuietChunk(isSpeech: bool, env: Env)
      requires cfg.clientVad && !cfg.pushToTalk && conv != Sleeping && vadMode == V.Quiet
      modifies this, audio
      ensures View() == OnVadChunk(cfg, old(View()), isSpeech, env)
    {
      if isSpeech {
        var onset := CountSpeech();
        if onset {
          VadSpeechStarted(env);
        }
      } else {
        vadSpeechMs := 0;
      }
    }

    // Add a silent chunk to an open segment; the pause may now be long enough.
    method CountSilence() returns (over: bool)
      requires vadMode == V.Talking
      modifies this
      ensures View() == old(View()).(vad := old(View()).vad.(silenceMs := old(vadSilenceMs) + cfg.vad.chunkMs))
      ensures over == (vadSilenceMs >= cfg.vad.silenceMs)
    {
      vadSilenceMs := vadSilenceMs + cfg.vad.chunkMs;
      over := vadSilenceMs >= cfg.vad.silenceMs;
    }

    method TalkingChunk(isSpeech: bool, env: Env)
      requires cfg.clientVad && !cfg.pushToTalk && conv != Sleeping && vadMode == V.Talking
      modifies this
      ensures View() == OnVadChunk(cfg, old(View()), isSpeech, env)
    {
      if isSpeech {
        vadSilenceMs := 0;
      } else {
        SilentChunk(env);
      }
    }

    method SilentChunk(env: Env)
      requires cfg.clientVad && !cfg.pushToTalk && conv != Sleeping && vadMode == V.Talking
      modifies this
      ensures View() == OnVadChunk(cfg, old(View()), false, env)
    {
      ClosedKeepsCounters(cfg, View(), vadSilenceMs + cfg.vad.chunkMs);
      var over := CountSilence();
      if over {
        VadSpeechEnded();
        ResetVad();
      }
    }

    method UpdateVad(isSpeech: bool, env: Env)
      requires cfg.clientVad
      modifies this, audio
      ensures View() == OnVadChunk(cfg, old(View()), isSpeech, env)
    {
      if conv == Sleeping {
        return;
      }
      if cfg.pushToTalk {
        return;
      }
      if vadMode == V.Quiet {
        QuietChunk(isSpeech, env);
      } else {
        TalkingChunk(isSpeech, env);
      }
    }

    method GateEdgeEos()
      requires GateEos(cfg)
      modifies this
      ensures View() == OnGateClosed(cfg, old(View()))
    {
      if conv == Sleeping {
        return;
      }
      var sent := SendAsrEosOnce();
      if sent {
        SetState(Thinking);
      }
    }

    // ── timers and transport ───────────────────────────────────────

    method AsrFinalWatchdog()
      modifies this
      ensures View() == OnAsrTimeout(old(View()))
    {
      if !asrWatchdog.On? {
        return;
      }
      asrWatchdog := Off;
      if !eosSentThisTurn.On? {
        return;
      }
      if conv != Thinking {
        eosSentThisTurn := Off;
        return;
      }
      pendingAsrUtteranceText := "";
      eosSentThisTurn := Off;
      SetState(Idle);
    }

    method GiveUpTurn()
      modifies this
      ensures var s := old(View());
              View() == s.(llmTurn := Off, firstTts := Off, eosSent := Off, log := s.log + [Abort])
    {
      AbortTurn();
      firstTtsSeen := Off;
      eosSentThisTurn := Off;
    }

    method ThinkingWatchdog()
      modifies this
      ensures View() == OnThinkingTimeout(cfg, old(View()))
    {
      if !thinkingWatchdog.On? {
        return;
      }
      thinkingWatchdog := Off;
      if conv != Thinking {
        return;
      }
      GiveUpTurn();
      SetState(Idle);
      ArmSleepTimer();
    }

    method StallEosWatchdog()
      modifies this
      ensures View() == OnStallTimeout(old(View()))
    {
      if !stallWatchdog.On? {
        return;
      }
      stallWatchdog := Off;
      if conv != Idle && conv != Listening {
        return;
      }
      var _ := SendAsrEosOnce();
    }

    method SleepAfter()
      modifies this, audio
      ensures View() == OnSleepTimeout(old(View()))
    {
      if !sleepTask.On? {
        return;
      }
      sleepTask := Off;
      if conv == Idle {
        GoToSleep();
      }
    }

    method BargeinEosFallback(sameSocket: bool)
      modifies this
      ensures View() == OnBargeTimeout(cfg, old(View()), sameSocket)
    {
      if bargeinEos == None {
        return;
      }
      var deferred := bargeinEos.value;
      bargeinEos := None;
      if vadMode == V.Talking {
        return;
      }
      if conv != BargedIn {
        return;
      }
      if vadSpeechMs > 0 && deferred < MAX_DEFER_MS {
        bargeinEos := Some(deferred + cfg.vad.silenceMs);
        return;
      }
      if !sameSocket {
        return;
      }
      var _ := SendAsrEosOnce();
      SetState(Thinking);
      thinkingWatchdog := On;
    }

    method PlaybackDrain(expired: bool)
      modifies this, audio
      ensures View() == OnDrainTick(cfg, old(View()), expired)
    {
      if !playbackDrain.On? {
        return;
      }
      var busy := audio.Busy();
      if conv != BargedIn && busy && !expired {
        return;
      }
      playbackDrain := Off;
      CompleteAssistantTurn();
    }

    method DispatchReconnected()
      modifies this
      ensures View() == OnReconnected(old(View()))
    {
      firstTtsSeen := Off;
      DropEos();
      pendingAsrUtteranceText := "";
      if conv == Thinking || conv == BargedIn {
        SetState(Idle);
      }
    }

    // ── the language model and the user ────────────────────────────

    method ReplyTextGoesOut()
      modifies this, audio
      ensures View() == OnReplyTextSent(old(View()))
    {
      if !awaitingNewReply.On? {
        return;
      }
      awaitingNewReply := Off;
      audio.ArmForNextTurn();
    }

    method LlmTurnFailed()
      modifies this
      ensures View() == OnLlmFailed(cfg, old(View()))
    {
      if !llmTurnTask.On? {
        return;
      }
      llmTurnTask := Off;
      SetState(Idle);
      ArmSleepTimer();
    }

    method WakeUp(connected: bool, greeted: Option<bool>)
      modifies this, audio
      ensures View() == OnWake(cfg, old(View()), connected, greeted)
    {
      if conv != Sleeping {
        return;
      }
      if !connected {
        return;
      }
      audio.ArmForNextTurn();
      SetState(Idle);
      ArmSleepTimer();
      if greeted.Some? {
        inWakeGreeting := Flag(greeted.value);
      }
    }

    // ── whole runs ─────────────────────────────────────────────────

    method PlayBlock(needed: nat)
      modifies audio
      ensures View() == old(View()).(audio := A.Callback(old(View()).audio, needed))
    {
      var outdata := new Byte[needed](_ => 0);
      audio.OutputCallback(outdata);
    }

    method FromTheDevices(e: Event)
      requires FromDevice(e)
      modifies this, audio
      ensures View() == Step(cfg, old(View()), e)
    {
      match e
      case VadChunk(isSpeech, env) =>
        if cfg.clientVad {
          UpdateVad(isSpeech, env);
        }
      case GateClosed =>
        if GateEos(cfg) {
          GateEdgeEos();
        }
      case DeviceCallback(needed) => PlayBlock(needed);
      case Tone(pcm) => audio.PlayNotification(pcm);
    }

    method FromAWatchdog(e: Event)
      requires Watchdog(e)
      modifies this
      ensures View() == Step(cfg, old(View()), e)
    {
      match e
      case AsrTimeout => AsrFinalWatchdog();
      case ThinkingTimeout => ThinkingWatchdog();
      case StallTimeout => StallEosWatchdog();
    }

    method FromATimer(e: Event)
      requires Timer(e)
      modifies this, audio
      ensures View() == Step(cfg, old(View()), e)
    {
      match e
      case SleepTimeout => SleepAfter();
      case BargeTimeout(sameSocket) => BargeinEosFallback(sameSocket);
      case DrainTick(expired) => PlaybackDrain(expired);
    }

    method FromInside(e: Event)
      requires !FromService(e) && !FromDevice(e) && !Watchdog(e) && !Timer(e)
      modifies this, audio
      ensures View() == Step(cfg, old(View()), e)
    {
      match e
      case Reconnected => DispatchReconnected();
      case ReplyTextSent => ReplyTextGoesOut();
      case LlmFailed => LlmTurnFailed();
      case LlmFinished => llmTurnTask := Off;
      case SleepRequest => GoToSleep();
      case Wake(connected, greeted) => WakeUp(connected, greeted);
    }

    method React(e: Event)
      modifies this, audio
      ensures View() == Step(cfg, old(View()), e)
    {
      if FromService(e) {
        DispatchOne(e);
      } else if FromDevice(e) {
        FromTheDevices(e);
      } else if Watchdog(e) {
        FromAWatchdog(e);
      } else if Timer(e) {
        FromATimer(e);
      } else {
        FromInside(e);
      }
    }

    // One event. Whatever happened before, the event has exactly its lawful
    // effects and the object keeps its promises; it loses the watch over a wait,
    // over an interrupting user, or over its own rest, in the known ways only.
    // Once interrupted, a reply stays silent; an answer that goes out is heard.
    method Handle(e: Event)
      requires Valid()
      modifies this, audio
      ensures Valid() && history == old(history) + [e] && Promises()
      ensures old(Watched(View())) ==> (!Watched(View()) <==> LosesWatch(cfg, old(View()), e))
      ensures old(Attended(cfg, View())) ==> (!Attended(cfg, View()) <==> FallbackLosesSocket(cfg, old(View()), e))
      ensures old(conv) == BargedIn && ReplyEvent(e) ==>
                conv == BargedIn && audio.playbackBuffer == old(audio.playbackBuffer)
      ensures Lawful(cfg, old(View()), e, View())
      ensures old(Resting(cfg, View())) ==> (!Resting(cfg, View()) <==> StaysUp(cfg, old(View()), e))
      ensures old(llmTurnTask).On? && e.TtsAudio? && Unhindered(old(View())) ==>
                audio.playbackBuffer == old(audio.playbackBuffer) + e.pcm
      ensures old(awaitingNewReply).On? && e.ReplyTextSent? && old(dropCurrentTtsSentence).Off? ==> Open(View())
    {
      ReachedInv(cfg, history);
      ModelTurnNeverMuted(cfg, history);
      HandledStep(cfg, View(), e);
      HandledReply(cfg, View(), e);
      Record(e);
      RunsKeep(cfg, history);
    }

    // React to an event and remember it.
    method Record(e: Event)
      requires Valid()
      modifies this, audio
      ensures Valid() && history == old(history) + [e] && View() == Step(cfg, old(View()), e)
    {
      ghost var past := history;
      RunAppend(cfg, past, e);
      React(e);
      history := past + [e];
    }

    // Any sequence of events.
    method HandleAll(events: seq<Event>)
      requires Valid()
      modifies this, audio
      ensures Valid() && history == old(history) + events && Promises()
    {
      for i := 0 to |events|
        invariant Valid() && history == old(history) + events[..i]
      {
        ConcatAssoc(old(history), events[..i], [events[i]]);
        assert events[..i + 1] == events[..i] + [events[i]];
        Record(events[i]);
      }
      assert events[..|events|] == events;
      RunsKeep(cfg, history);
    }
  }

  // What every run keeps.
  ghost predicate Kept(cfg: Config, s: State, history: seq<Event>) {
    && Inv(cfg, s)
    && (!cfg.exitReply ==> Guarded(cfg, s, Announced(cfg, history)))
    && s.pending == JoinAll(OpenSegments(cfg, history))
    && EosCount(s.log) == Clears(cfg, history) + (if s.eosSent.On? then 1 else 0)
    && Audible(s)
  }

  lemma RunsKeep(cfg: Config, history: seq<Event>)
    ensures Kept(cfg, Reached(cfg, history), history)
  {
    ReachedInv(cfg, history);
    if !cfg.exitReply {
      ThinkingNeverStrands(cfg, history);
    }
    PendingIsJoin(cfg, history);
    OneEosPerTurn(cfg, history);
    ModelTurnNeverMuted(cfg, history);
  }

  // What one event can do to a wait and to an interruption.
  lemma HandledStep(cfg: Config, s: State, e: Event)
    requires Inv(cfg, s)
    ensures Watched(s) ==> (!Watched(Step(cfg, s, e)) <==> LosesWatch(cfg, s, e))
    ensures Attended(cfg, s) ==> (!Attended(cfg, Step(cfg, s, e)) <==> FallbackLosesSocket(cfg, s, e))
    ensures s.conv == BargedIn && ReplyEvent(e) ==>
              Step(cfg, s, e).conv == BargedIn && Step(cfg, s, e).audio.buffer == s.audio.buffer
  {
    if Watched(s) {
      WatchLostExactly(cfg, s, e);
    }
    if Attended(cfg, s) {
      AttentionLostExactly(cfg, s, e);
    }
    if s.conv == BargedIn && ReplyEvent(e) {
      BargedInHolds(cfg, s, [e]);
      RunOne(cfg, s, e);
    }
  }

  // Neither a superseded reply, nor a repeated sentence, nor an interruption is
  // in the way of a reply frame.
  predicate Unhindered(s: State) {
    s.awaitingReply.Off? && s.dropSentence.Off? && s.conv != BargedIn
  }

  // What one event does, and what it means for the reply and for the way to sleep.
  lemma HandledReply(cfg: Config, s: State, e: Event)
    requires Audible(s)
    ensures Lawful(cfg, s, e, Step(cfg, s, e))
    ensures Resting(cfg, s) ==> (!Resting(cfg, Step(cfg, s, e)) <==> StaysUp(cfg, s, e))
    ensures s.llmTurn.On? && e.TtsAudio? && Unhindered(s) ==> Step(cfg, s, e).audio.buffer == s.audio.buffer + e.pcm
    ensures s.awaitingReply.On? && e.ReplyTextSent? && s.dropSentence.Off? ==> Open(Step(cfg, s, e))
  {
    StepLawful(cfg, s, e);
    if Resting(cfg, s) {
      StandbyLostExactly(cfg, s, e);
    }
    if s.llmTurn.On? && e.TtsAudio? && Unhindered(s) {
      FrameIsQueued(cfg, s, e.pcm);
    }
    if s.awaitingReply.On? && e.ReplyTextSent? {
      TextOpens(cfg, s);
    }
  }

  predicate FromService(e: Event) {
    e.Partial? || e.SpeechStarted? || e.Final? || ReplyTail(e) || e.ResponseCreated? || e.SlvError? || e.Informational?
  }

  predicate FromDevice(e: Event) {
    e.VadChunk? || e.GateClosed? || e.DeviceCallback? || e.Tone?
  }

  predicate Watchdog(e: Event) {
    e.AsrTimeout? || e.ThinkingTimeout? || e.StallTimeout?
  }

  predicate Timer(e: Event) {
    e.SleepTimeout? || e.BargeTimeout? || e.DrainTick?
  }

  // What the end of a segment does has nothing to do with the counters.
  lemma ClosedKeepsCounters(cfg: Config, s: State, silenceMs: nat)
    ensures OnVadClosed(cfg, s.(vad := s.vad.(silenceMs := silenceMs))).(vad := V.AT_REST) ==
            OnVadClosed(cfg, s).(vad := V.AT_REST)
  {
  }
}
