// The state machine of Conversation, read the other way round. Its handlers say
// event by event what happens to the state; here each effect says what causes
// it: when a conversation state is entered, when sound is queued, silenced or
// muted, what is sent out, when the language model runs, when a timer starts or
// stops. A final that completes an utterance touches nearly everything and is
// described outright.
module Effects {
  import opened Prelude
  import opened AsrText
  import opened Conversation
  import opened TurnSafety
  import V = ClientVad
  import A = AudioIo

  // ── what happens ─────────────────────────────────────────────────

  predicate Listens(cfg: Config, s: State, e: Event) {
    e.VadChunk? && cfg.clientVad && !cfg.pushToTalk && s.conv != Sleeping
  }

  // A microphone segment opens or closes.
  predicate Onset(cfg: Config, s: State, e: Event) {
    Listens(cfg, s, e) && V.Tick(cfg.vad, s.vad, e.isSpeech).1 == V.Opened
  }

  predicate Pause(cfg: Config, s: State, e: Event) {
    Listens(cfg, s, e) && V.Tick(cfg.vad, s.vad, e.isSpeech).1 == V.Closed
  }

  // The segment that closes is the user's, and not yet acted on.
  predicate EndsSpeech(cfg: Config, s: State, e: Event) {
    Pause(cfg, s, e) && !(s.vadEcho.On? && s.conv == Speaking) && s.vadEosSent.Off?
  }

  predicate GateEnds(cfg: Config, s: State, e: Event) {
    e.GateClosed? && cfg.energyGate && cfg.gateDrivesEos && !cfg.clientVad && s.conv != Sleeping && s.eosSent.Off?
  }

  // The barge-in fallback waits for a run of speech to become a segment, or
  // ends the turn.
  predicate FallbackDefers(s: State, e: Event) {
    && e.BargeTimeout? && s.bargeEos.Some? && s.conv == BargedIn && s.vad.mode == V.Quiet
    && s.vad.speechMs > 0 && s.bargeEos.value < 5000
  }

  predicate FallbackEnds(s: State, e: Event) {
    && e.BargeTimeout? && e.sameSocket && s.bargeEos.Some? && s.conv == BargedIn && s.vad.mode == V.Quiet
    && !FallbackDefers(s, e)
  }

  // The user may speak over the reply, and it has played long enough.
  predicate MayInterrupt(s: State, env: Env) {
    A.IsPlaying(s.audio) && env.bargeIn && env.settled
  }

  predicate Interrupts(cfg: Config, s: State, e: Event) {
    match e
    case Partial(text, env) =>
      s.conv in {Speaking, BargedIn} && MayInterrupt(s, env) && Strip(text) != "" && |Strip(text)| >= cfg.bargeMinChars
    case SpeechStarted(env) => s.conv == Speaking && MayInterrupt(s, env)
    case VadChunk(_, env) => Onset(cfg, s, e) && s.conv == Speaking && MayInterrupt(s, env)
    case _ => false
  }

  // The last frame of a reply that is not superseded.
  predicate ReplyEnds(s: State, e: Event) {
    s.awaitingReply.Off? && (e.TtsDone? || (e.ResponseDone? && !e.toolCallOnly))
  }

  predicate Drained(s: State, e: Event) {
    e.DrainTick? && s.drain.On? && (s.conv == BargedIn || !A.IsPlaying(s.audio) || e.expired)
  }

  // The assistant's turn is over.
  predicate Completes(cfg: Config, s: State, e: Event) {
    (ReplyEnds(s, e) && (s.conv == BargedIn || !DrainsFirst(cfg, s, e))) || Drained(s, e)
  }

  predicate FallsAsleep(cfg: Config, s: State, e: Event) {
    s.conv != Sleeping &&
    (e.SleepRequest? || (e.SleepTimeout? && s.sleepTimer.On? && s.conv == Idle) ||
     (Completes(cfg, s, e) && s.sleepAfterTurn.On?))
  }

  // The thinking watchdog, or the recogniser's, gives the turn up.
  predicate GivesUp(s: State, e: Event) {
    e.ThinkingTimeout? && s.thinkingTimer.On? && s.conv == Thinking
  }

  predicate Unanswered(s: State, e: Event) {
    e.AsrTimeout? && s.asrTimer.On? && s.eosSent.On? && s.conv == Thinking
  }

  // A final that reaches an agent that is awake ...
  predicate Heard(s: State, e: Event) {
    e.Final? && s.conv != Sleeping
  }

  // ... repeats what is known, or ...
  predicate Repeats(s: State, e: Event) {
    e.Final? && e.duplicate && s.pending == ""
  }

  predicate Means(cfg: Config, text: string) {
    cfg.stopIntent(text) || cfg.exitIntent(text) || (Strip(text) != "" && !cfg.noise(text))
  }

  // ... is only noise, or ...
  predicate Noise(cfg: Config, s: State, e: Event) {
    Heard(s, e) && !Repeats(s, e) && !Means(cfg, e.text) && (s.eosSent.Off? || s.pending == "")
  }

  // ... completes an utterance: the user has been asked to stop, or nobody has
  // to ask. Any other is a segment of an utterance still open.
  predicate Completed(cfg: Config, s: State, e: Event) {
    Heard(s, e) && !Repeats(s, e) && !Noise(cfg, s, e) &&
    (s.eosSent.On? || !cfg.driveEos || (s.conv != Listening && s.conv != BargedIn))
  }

  function Words(s: State, e: Event): string
    requires e.Final?
  {
    Join(s.pending, if e.duplicate then "" else e.text)
  }

  // The user takes over from a reply that is still audible.
  predicate TakesOver(cfg: Config, s: State, e: Event)
    requires e.Final?
  {
    (s.audio.playing.On? || s.audio.buffer != []) && e.env.bargeIn && !cfg.serverLoop
  }

  predicate NoiseEnds(cfg: Config, s: State, e: Event) {
    Noise(cfg, s, e) &&
    ((s.conv in {Listening, BargedIn} && s.pending == "") || (s.conv == Thinking && s.eosSent.On?))
  }

  predicate Wakes(s: State, e: Event) {
    e.Wake? && e.connected && s.conv == Sleeping
  }

  predicate ModelFails(s: State, e: Event) {
    e.LlmFailed? && s.llmTurn.On?
  }

  // A reply frame that is not dropped before it reaches playback.
  predicate Frame(s: State, e: Event) {
    e.TtsAudio? && s.awaitingReply.Off? && s.dropSentence.Off? && s.conv != BargedIn
  }

  // ── entering a state ─────────────────────────────────────────────

  predicate EntersIdle(cfg: Config, s: State, e: Event) {
    || NoiseEnds(cfg, s, e) || (Repeats(s, e) && s.conv == Thinking)
    || (Completes(cfg, s, e) && s.sleepAfterTurn.Off? && s.conv != BargedIn)
    || (e.SlvError? && s.conv != Sleeping) || (e.Reconnected? && s.conv in {Thinking, BargedIn})
    || Unanswered(s, e) || GivesUp(s, e) || ModelFails(s, e) || Wakes(s, e)
  }

  predicate EntersThinking(cfg: Config, s: State, e: Event) {
    || EndsSpeech(cfg, s, e) || GateEnds(cfg, s, e) || FallbackEnds(s, e)
    || (e.ResponseDone? && e.toolCallOnly && s.awaitingReply.Off? && s.conv != BargedIn)
  }

  function ConvAfter(cfg: Config, s: State, e: Event): ConvState {
    if EntersIdle(cfg, s, e) then Idle
    else if Onset(cfg, s, e) && !A.IsPlaying(s.audio) then Listening
    else if EntersThinking(cfg, s, e) then Thinking
    else if Frame(s, e) && s.firstTts.Off? then Speaking
    else if Interrupts(cfg, s, e) then BargedIn
    else if FallsAsleep(cfg, s, e) then Sleeping
    else s.conv
  }

  predicate ConvLaw(cfg: Config, s: State, e: Event, t: State) {
    t.conv == ConvAfter(cfg, s, e)
  }

  // ── sound ────────────────────────────────────────────────────────

  predicate Silences(cfg: Config, s: State, e: Event) {
    Interrupts(cfg, s, e) || FallsAsleep(cfg, s, e)
  }

  predicate Rearms(cfg: Config, s: State, e: Event) {
    (e.ReplyTextSent? && s.awaitingReply.On?) || Noise(cfg, s, e) || Wakes(s, e)
  }

  // The queue grows by audible frames and by tones, shrinks from the front by
  // what the device takes, and is emptied by what silences the agent.
  function QueueAfter(cfg: Config, s: State, e: Event): seq<Byte> {
    if Silences(cfg, s, e) then []
    else if Frame(s, e) && s.audio.discard.Off? then s.audio.buffer + e.pcm
    else if e.Tone? then s.audio.buffer + e.pcm
    else if e.DeviceCallback? then s.audio.buffer[Min(e.needed, |s.audio.buffer|)..]
    else s.audio.buffer
  }

  // The bytes of the current response that have reached the device.
  function HeardAfter(s: State, e: Event): nat {
    if e.ResponseCreated? then 0
    else if e.DeviceCallback? && s.audio.response.Some? then s.audio.deviceBytes + Min(e.needed, |s.audio.buffer|)
    else s.audio.deviceBytes
  }

  predicate QueueLaw(cfg: Config, s: State, e: Event, t: State) {
    && t.audio.buffer == QueueAfter(cfg, s, e)
    && t.audio.response == (if e.ResponseCreated? then Some(e.id) else s.audio.response)
    && t.audio.deviceBytes == HeardAfter(s, e)
  }

  // The reply's end is marked; what is queued may still play.
  predicate Marks(s: State, e: Event) {
    (e.TtsDone? || e.ResponseAudioDone?) && s.awaitingReply.Off?
  }

  predicate MuteLaw(cfg: Config, s: State, e: Event, t: State) {
    && t.audio.discard == Flag(Silences(cfg, s, e) || (s.audio.discard.On? && !Rearms(cfg, s, e)))
    && t.audio.playing == Flag(!Silences(cfg, s, e) && !Marks(s, e) &&
                               (s.audio.playing.On? || (Frame(s, e) && s.audio.discard.Off?)))
  }

  // ── what is sent out ─────────────────────────────────────────────

  predicate SendsEos(cfg: Config, s: State, e: Event) {
    s.eosSent.Off? &&
    ((EndsSpeech(cfg, s, e) && cfg.driveEos) || GateEnds(cfg, s, e) || FallbackEnds(s, e) ||
     (e.StallTimeout? && s.stallTimer.On? && s.conv in {Idle, Listening}))
  }

  // The service hears of every interruption and sleep.
  function Sent(cfg: Config, s: State, e: Event): seq<Action> {
    if Interrupts(cfg, s, e) then [AbortKeepAsr]
    else if FallsAsleep(cfg, s, e) || GivesUp(s, e) then [Abort]
    else if SendsEos(cfg, s, e) then [AsrEos]
    else []
  }

  // ... and a greeting is spoken from the wake-up to the end of its turn.
  predicate OutputLaw(cfg: Config, s: State, e: Event, t: State) {
    && t.log == s.log + Sent(cfg, s, e)
    && t.greeting == (if Wakes(s, e) && e.greeted.Some? then Flag(e.greeted.value)
                      else Flag(s.greeting.On? && !Interrupts(cfg, s, e) &&
                                !(Completes(cfg, s, e) && s.sleepAfterTurn.Off?)))
  }

  // ── tasks, latches and timers ────────────────────────────────────

  // A fresh segment replaces the one a wait is for.
  predicate Renews(cfg: Config, s: State, e: Event) {
    Onset(cfg, s, e) && s.conv == Thinking && s.eosSent.On?
  }

  predicate ReplyShows(s: State, e: Event) {
    e.ResponseCreated? || (s.awaitingReply.Off? && (e.TtsStarted? || e.TtsDone? || e.ResponseDone?))
  }

  predicate RestartsSleep(cfg: Config, s: State, e: Event) {
    && !cfg.alwaysOn
    && (|| NoiseEnds(cfg, s, e) || (Repeats(s, e) && s.conv == Thinking)
        || (Completes(cfg, s, e) && s.sleepAfterTurn.Off? && s.conv != BargedIn)
        || GivesUp(s, e) || ModelFails(s, e) || Wakes(s, e))
  }

  // When the language model stops, and when an old reply is no longer awaited.
  predicate TaskLaw(cfg: Config, s: State, e: Event, t: State) {
    && (t.llmTurn == Flag(
          s.llmTurn.On? && !Silences(cfg, s, e) && !GivesUp(s, e) && !e.SlvError? && !e.LlmFailed? && !e.LlmFinished?))
    && (t.awaitingReply == Flag(s.awaitingReply.On? && !e.ReplyTextSent?))
  }

  // What is remembered of the reply.
  predicate ReplyLaw(cfg: Config, s: State, e: Event, t: State) {
    && (t.sleepAfterTurn == Flag(s.sleepAfterTurn.On? && !Interrupts(cfg, s, e) && !Completes(cfg, s, e)))
    && (t.firstTts == Flag(
          || Frame(s, e)
          || (s.firstTts.On? && !Silences(cfg, s, e) && !GivesUp(s, e) && !e.Reconnected? &&
              !((e.TtsDone? || e.ResponseDone?) && s.awaitingReply.Off?) &&
              !(e.Final? && e.renewed && (s.conv == Sleeping || !Repeats(s, e))))))
    && t.dropSentence ==
         (if e.TtsStarted? && s.awaitingReply.Off? then Flag(e.repeated)
          else if e.TtsSentenceDone? && s.awaitingReply.Off? then Off else s.dropSentence)
  }

  // When the recogniser owes a final, and is timed for it.
  predicate EosLaw(cfg: Config, s: State, e: Event, t: State) {
    && (t.eosSent == Flag(
          || SendsEos(cfg, s, e)
          || (s.eosSent.On? && !Interrupts(cfg, s, e) && !Heard(s, e) && !Renews(cfg, s, e) && !GivesUp(s, e) &&
              !e.Reconnected? && !(e.AsrTimeout? && s.asrTimer.On?) && !(ReplyEnds(s, e) && Completes(cfg, s, e)))))
    && (t.asrTimer == Flag(
          || SendsEos(cfg, s, e)
          || (s.asrTimer.On? && !Interrupts(cfg, s, e) && !Heard(s, e) && !Renews(cfg, s, e) &&
              !e.SlvError? && !e.Reconnected? && !e.AsrTimeout?)))
  }

  // A segment that neither closes the utterance nor is noise is kept for it.
  function PendingAfter(cfg: Config, s: State, e: Event): string {
    if Heard(s, e) && !Repeats(s, e) && !Noise(cfg, s, e) then
      (if e.duplicate || Strip(e.text) == "" then s.pending else Words(s, e))
    else if FallsAsleep(cfg, s, e) || Unanswered(s, e) || e.SlvError? || e.Reconnected? then ""
    else s.pending
  }

  // What is waited for: the rest of an utterance, a reply, the end of one.
  predicate WaitLaw(cfg: Config, s: State, e: Event, t: State) {
    && t.pending == PendingAfter(cfg, s, e)
    && (t.thinkingTimer == Flag(
          || EndsSpeech(cfg, s, e) || FallbackEnds(s, e)
          || (s.thinkingTimer.On? && !ReplyShows(s, e) && !e.SlvError? && !e.ThinkingTimeout?)))
    && (t.drain == Flag(
          || (ReplyEnds(s, e) && s.conv != BargedIn && DrainsFirst(cfg, s, e))
          || (s.drain.On? && !FallsAsleep(cfg, s, e) && !Drained(s, e) && !(ReplyEnds(s, e) && s.conv != BargedIn))))
  }

  // When the way to sleep, and a stalled recogniser, are timed.
  predicate StandbyLaw(cfg: Config, s: State, e: Event, t: State) {
    && (t.sleepTimer == Flag(
          RestartsSleep(cfg, s, e) || (s.sleepTimer.On? && !FallsAsleep(cfg, s, e) && !e.SleepTimeout?)))
    && (t.stallTimer == Flag(
          || (e.Partial? && cfg.stallFallback && s.conv in {Idle, Listening} && Strip(e.text) != "")
          || (s.stallTimer.On? && !Heard(s, e) && !e.StallTimeout?)))
  }

  // ── the detector and its latches ─────────────────────────────────

  // An onset over the reply, too early to be anything but its echo.
  predicate Echoes(cfg: Config, s: State, e: Event) {
    Onset(cfg, s, e) && s.conv == Speaking && A.IsPlaying(s.audio) && e.env.bargeIn && !e.env.settled
  }

  function FallbackAfter(cfg: Config, s: State, e: Event): Option<nat> {
    if Interrupts(cfg, s, e) then (if cfg.driveEos && !Onset(cfg, s, e) && s.vad.mode == V.Quiet then Some(0) else None)
    else if Onset(cfg, s, e) then None
    else if e.BargeTimeout? && s.bargeEos.Some? then
      (if FallbackDefers(s, e) then Some(s.bargeEos.value + cfg.vad.silenceMs) else None)
    else s.bargeEos
  }

  predicate DetectorLaw(cfg: Config, s: State, e: Event, t: State) {
    && t.vad == (if Listens(cfg, s, e) then V.Tick(cfg.vad, s.vad, e.isSpeech).0 else s.vad)
    && t.vadEosSent == Flag(Pause(cfg, s, e) || (s.vadEosSent.On? && !Onset(cfg, s, e)))
    && t.vadEcho == Flag(Echoes(cfg, s, e) || (s.vadEcho.On? && !Onset(cfg, s, e)))
    && t.bargeEos == FallbackAfter(cfg, s, e)
  }

  // ── a completed utterance ───────────────────────────────────────────────

  datatype Outcome = Replies | Stays | Farewells | Leaves

  // A dismissal that ends the conversation ends it with a farewell, if one can
  // be spoken; any other stops the reply and no more.
  function OutcomeOf(cfg: Config, text: string, spoken: bool): Outcome {
    if !cfg.stopIntent(text) && !cfg.exitIntent(text) then Replies
    else if !cfg.exitIntent(text) && !cfg.stopToSleep then Stays
    else if cfg.exitReply && spoken then Farewells
    else Leaves
  }

  function Reaction(o: Outcome, text: string): seq<Action> {
    match o
    case Replies => [LlmTurn(text)]
    case Stays => [Abort]
    case Farewells => [Abort, Farewell]
    case Leaves => [Abort, Abort]
  }

  // The recogniser starts afresh, whatever the utterance was.
  predicate FreshEar(s: State, t: State) {
    && t.pending == "" && t.vad == V.AT_REST && t.vadEosSent.Off? && t.vadEcho == s.vadEcho
    && t.eosSent.Off? && t.asrTimer.Off? && t.stallTimer.Off?
  }

  predicate RoutedConv(cfg: Config, s: State, o: Outcome, t: State) {
    && t.conv == (match o
                  case Replies => Thinking
                  case Stays => Idle
                  case Farewells => if s.conv == BargedIn then Idle else s.conv
                  case Leaves => Sleeping)
    && t.thinkingTimer == (if o == Replies then On else s.thinkingTimer)
    && t.sleepTimer == (if o == Leaves then Off else if o == Stays && !cfg.alwaysOn then On else s.sleepTimer)
  }

  // A superseded reply is cut; an answer in its place is heard once its text
  // goes out, any other at once.
  predicate RoutedSound(s: State, hushed: bool, o: Outcome, t: State) {
    var cut := hushed || o != Replies;
    && t.audio.buffer == (if cut then [] else s.audio.buffer)
    && t.audio.playing == (if cut then Off else s.audio.playing)
    && t.audio.discard == Flag(cut && o != Farewells)
    && t.audio.response == s.audio.response && t.audio.deviceBytes == s.audio.deviceBytes
    && t.awaitingReply == Flag(hushed && o == Replies)
  }

  predicate RoutedReply(cfg: Config, s: State, e: Event, hushed: bool, o: Outcome, t: State)
    requires e.Final?
  {
    && t.llmTurn == Flag(o == Replies)
    && t.drain == Flag(s.drain.On? && !hushed && o != Leaves)
    && t.firstTts == Flag(s.firstTts.On? && !hushed && !e.renewed && o != Leaves)
    && t.sleepAfterTurn == Flag(o == Farewells || (s.sleepAfterTurn.On? && !hushed && !(o == Leaves && cfg.exitReply)))
    && t.dropSentence == s.dropSentence
    && t.greeting == Flag(s.greeting.On? && !hushed)
    && t.bargeEos == (if !hushed then s.bargeEos
                      else if cfg.driveEos && s.vad.mode == V.Quiet then Some(0) else None)
  }

  predicate RoutedTo(cfg: Config, s: State, e: Event, t: State)
    requires e.Final?
  {
    var text := Words(s, e);
    var hushed := TakesOver(cfg, s, e);
    var o := OutcomeOf(cfg, text, e.spoken);
    && FreshEar(s, t) && RoutedConv(cfg, s, o, t) && RoutedSound(s, hushed, o, t)
    && RoutedReply(cfg, s, e, hushed, o, t)
    && t.log == s.log + (if hushed then [AbortKeepAsr] else []) + [Utterance(text)] + Reaction(o, text)
  }

  // ── every effect of every event ──────────────────────────────────

  predicate Lawful(cfg: Config, s: State, e: Event, t: State) {
    if Completed(cfg, s, e) then RoutedTo(cfg, s, e, t)
    else
      && ConvLaw(cfg, s, e, t) && QueueLaw(cfg, s, e, t) && MuteLaw(cfg, s, e, t) && OutputLaw(cfg, s, e, t)
      && TaskLaw(cfg, s, e, t) && ReplyLaw(cfg, s, e, t) && EosLaw(cfg, s, e, t) && WaitLaw(cfg, s, e, t)
      && StandbyLaw(cfg, s, e, t) && DetectorLaw(cfg, s, e, t)
  }
}
