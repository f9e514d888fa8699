// The voice-turn state machine of agent/ovs_agent/app_base.py.
//
// One value holds every latch, timer and buffer a turn depends on. Each event
// (a frame from the speech service, a microphone chunk, a timer, a user
// action) is one atomic step. The service may send anything in any order.
module Conversation {
  import opened Prelude
  import opened AsrText
  import V = ClientVad
  import A = AudioIo

  datatype ConvState = Idle | Listening | Thinking | Speaking | BargedIn | Sleeping

  datatype Config = Config(
    alwaysOn: bool,
    clientVad: bool,              // a client detector is running
    pushToTalk: bool,             // explicit end of speech only
    vad: V.Timing,
    driveEos: bool,               // client_vad_drive_eos
    energyGate: bool,
    gateDrivesEos: bool,
    drainPlayback: bool,
    stallFallback: bool,
    serverLoop: bool,
    stopToSleep: bool,
    exitReply: bool,              // a farewell is configured and can be spoken
    bargeMinChars: int,
    noise: string -> bool,        // one visible character, or a filler word
    stopIntent: string -> bool,
    exitIntent: string -> bool)

  // The gate's closing edge ends the turn only without a client detector.
  predicate GateEos(cfg: Config) {
    !cfg.clientVad && cfg.energyGate && cfg.gateDrivesEos
  }

  datatype Action =
    | AsrEos
    | Abort
    | AbortKeepAsr
    | Utterance(text: string)     // a complete user utterance
    | LlmTurn(text: string)       // ... that the language model answers
    | Farewell

  datatype State = State(
    conv: ConvState,
    eosSent: Latch,                // asr_eos was sent this turn
    asrTimer: Latch,
    thinkingTimer: Latch,
    stallTimer: Latch,
    sleepTimer: Latch,
    drain: Latch,                  // a turn completes when playback drains
    bargeEos: Option<nat>,        // armed fallback, and how long it has waited
    firstTts: Latch,
    dropSentence: Latch,
    awaitingReply: Latch,          // a superseded reply's tail is being dropped
    sleepAfterTurn: Latch,
    greeting: Latch,
    llmTurn: Latch,
    pending: string,              // segments of the utterance still open
    vad: V.Counters,
    vadEosSent: Latch,
    vadEcho: Latch,
    audio: A.Playback,
    log: seq<Action>)

  // What the surroundings decide: may the user interrupt in this mode, and has
  // the reply played long enough not to be its own echo.
  datatype Env = Env(bargeIn: bool, settled: bool)

  datatype Event =
    // from the speech service
    | Partial(text: string, env: Env)
    | SpeechStarted(env: Env)
    | Final(text: string, duplicate: bool, renewed: bool, spoken: bool, env: Env)
    | TtsStarted(repeated: bool)
    | ResponseCreated(id: string)
    | TtsAudio(pcm: seq<Byte>)
    | TtsSentenceDone
    | ResponseAudioDone
    | ResponseDone(toolCallOnly: bool)
    | TtsDone
    | SlvError
    | Informational
    // from the microphone and the speaker
    | VadChunk(isSpeech: bool, env: Env)
    | GateClosed
    | DeviceCallback(needed: nat)
    | Tone(pcm: seq<Byte>)
    // timers and transport
    | AsrTimeout
    | ThinkingTimeout
    | StallTimeout
    | SleepTimeout
    | BargeTimeout(sameSocket: bool)
    | DrainTick(expired: bool)
    | Reconnected
    // the language model and the user
    | ReplyTextSent
    | LlmFailed
    | LlmFinished
    | SleepRequest
    | Wake(connected: bool, greeted: Option<bool>)   // None: no wake reply configured

  function Init(cfg: Config): State {
    State(if cfg.alwaysOn then Idle else Sleeping, Off, Off, Off, Off, Off, Off, None,
          Off, Off, Off, Off, Off, Off, "", V.AT_REST, Off, Off, A.SILENT, [])
  }

  // ── pieces shared by several handlers ────────────────────────────

  function ResetSleepTimer(cfg: Config, s: State): State {
    if cfg.alwaysOn then s else s.(sleepTimer := On)
  }

  function Sleep(s: State): State {
    if s.conv == Sleeping then s
    else s.(llmTurn := Off, audio := A.Stop(s.audio), pending := "", drain := Off,
            firstTts := Off, conv := Sleeping, sleepTimer := Off, log := s.log + [Abort])
  }

  function SendEos(s: State): State {
    if s.eosSent.On? then s
    else s.(eosSent := On, asrTimer := On, log := s.log + [AsrEos])
  }

  function CompleteTurn(cfg: Config, s: State): State {
    if s.sleepAfterTurn.On? then Sleep(s.(sleepAfterTurn := Off))
    else
      var t := s.(greeting := Off);
      if s.conv == BargedIn then t else ResetSleepTimer(cfg, t.(conv := Idle))
  }

  function Interrupt(cfg: Config, s: State): State {
    s.(llmTurn := Off, audio := A.Stop(s.audio), eosSent := Off, asrTimer := Off,
       firstTts := Off, sleepAfterTurn := Off, greeting := Off,
       bargeEos := if cfg.driveEos && s.vad.mode != V.Talking then Some(0) else None,
       log := s.log + [AbortKeepAsr])
  }

  // ── recognition results ──────────────────────────────────────────

  predicate LowSignal(cfg: Config, text: string) {
    Strip(text) == "" || cfg.noise(text)
  }

  predicate Dismissal(cfg: Config, text: string) {
    cfg.stopIntent(text) || cfg.exitIntent(text)
  }

  // A close-out final that repeats streamed text adds nothing.
  function Content(e: Event): string
    requires e.Final?
  {
    if e.duplicate then "" else e.text
  }

  // The final carries no utterance: it is repeated, or noise that closes nothing.
  predicate Ignored(cfg: Config, s: State, e: Event)
    requires e.Final?
  {
    || (e.duplicate && s.pending == "")
    || (LowSignal(cfg, e.text) && !Dismissal(cfg, e.text) && !(s.eosSent.On? && s.pending != ""))
  }

  // The final is one segment of an utterance that only the agent can end.
  predicate MidUtterance(cfg: Config, s: State) {
    cfg.driveEos && !s.eosSent.On? && s.conv in {Listening, BargedIn}
  }

  // The final ends the utterance.
  predicate Routes(cfg: Config, s: State, e: Event) {
    e.Final? && s.conv != Sleeping && !Ignored(cfg, s, e) && !MidUtterance(cfg, s)
  }

  predicate Supersedes(cfg: Config, s: State, e: Event)
    requires e.Final?
  {
    A.IsPlaying(s.audio) && e.env.bargeIn && !cfg.serverLoop
  }

  function FullText(s: State, e: Event): string
    requires e.Final?
  {
    Join(s.pending, Content(e))
  }

  function IgnoreNoise(cfg: Config, s: State, hadEos: bool): State {
    var t := s.(audio := A.Arm(s.audio));
    if (s.conv in {Listening, BargedIn} && s.pending == "") || (s.conv == Thinking && hadEos) then
      ResetSleepTimer(cfg, t.(conv := Idle))
    else t
  }

  function Dismiss(cfg: Config, s: State, text: string, spoken: bool): State {
    var t := s.(awaitingReply := Off, llmTurn := Off, audio := A.Stop(s.audio), log := s.log + [Abort]);
    if !cfg.exitIntent(text) && !cfg.stopToSleep then ResetSleepTimer(cfg, t.(conv := Idle))
    else if !cfg.exitReply then Sleep(t)
    else
      var u := t.(audio := A.Arm(t.audio), conv := if t.conv == BargedIn then Idle else t.conv);
      if spoken then u.(sleepAfterTurn := On, log := u.log + [Farewell])
      else Sleep(u.(sleepAfterTurn := Off))
  }

  // Any final at all stands the recogniser's timers down.
  function Answered(s: State, e: Event): State
    requires e.Final?
  {
    var t := s.(asrTimer := Off, stallTimer := Off, eosSent := Off);
    if e.renewed then t.(firstTts := Off) else t
  }

  // The utterance is complete: hush a reply that still plays, or let the next
  // one be heard, and start listening afresh.
  function Assembled(cfg: Config, s: State, e: Event): State
    requires e.Final?
  {
    var t := s.(pending := "");
    var u := if Supersedes(cfg, s, e) then Interrupt(cfg, t.(drain := Off)).(awaitingReply := On)
             else t.(awaitingReply := Off, audio := A.Arm(t.audio));
    u.(vad := V.AT_REST, vadEosSent := Off, eosSent := Off, log := u.log + [Utterance(FullText(s, e))])
  }

  function Answer(s: State, text: string): State {
    s.(conv := Thinking, thinkingTimer := On, llmTurn := On, log := s.log + [LlmTurn(text)])
  }

  function Route(cfg: Config, s: State, e: Event): State
    requires e.Final?
  {
    var text := FullText(s, e);
    if Dismissal(cfg, text) then Dismiss(cfg, Assembled(cfg, s, e), text, e.spoken)
    else Answer(Assembled(cfg, s, e), text)
  }

  function OnFinal(cfg: Config, s: State, e: Event): State
    requires e.Final?
  {
    if s.conv == Sleeping then (if e.renewed then s.(firstTts := Off) else s)
    else if e.duplicate && s.pending == "" then
      var t := Answered(s, e.(renewed := false));
      if s.conv == Thinking then ResetSleepTimer(cfg, t.(conv := Idle)) else t
    else
      var t := Answered(s, e);
      if Ignored(cfg, s, e) then IgnoreNoise(cfg, t, s.eosSent.On?)
      else if MidUtterance(cfg, s) then
        t.(pending := if Strip(Content(e)) == "" then t.pending else Join(t.pending, Content(e)))
      else Route(cfg, t, e)
  }

  function OnPartial(cfg: Config, s: State, e: Event): State
    requires e.Partial?
  {
    var text := Strip(e.text);
    if s.conv == Sleeping || text == "" then s
    else
      var t := if cfg.stallFallback && s.conv in {Idle, Listening} then s.(stallTimer := On) else s;
      if |text| < cfg.bargeMinChars || !e.env.settled then t
      else if s.conv in {Speaking, BargedIn} && A.IsPlaying(s.audio) && e.env.bargeIn then
        Interrupt(cfg, t.(conv := BargedIn))
      else t
  }

  function OnSpeechStarted(cfg: Config, s: State, e: Event): State
    requires e.SpeechStarted?
  {
    if s.conv == Speaking && A.IsPlaying(s.audio) && e.env.bargeIn && e.env.settled then
      Interrupt(cfg, s.(conv := BargedIn))
    else s
  }

  // ── the reply ────────────────────────────────────────────────────

  // Frames that belong to the reply a new user turn has superseded.
  predicate ReplyTail(e: Event) {
    e.TtsAudio? || e.TtsStarted? || e.TtsSentenceDone? || e.TtsDone? || e.ResponseAudioDone? || e.ResponseDone?
  }

  function OnTtsAudio(s: State, pcm: seq<Byte>): State {
    if s.dropSentence.On? || s.conv == BargedIn then s
    else
      var t := if s.firstTts.On? then s else s.(firstTts := On, conv := Speaking);
      t.(audio := A.Play(t.audio, pcm))
  }

  function FinishTurn(cfg: Config, s: State): State {
    var t := if s.conv == BargedIn then s else s.(drain := Off);
    if s.conv != BargedIn && cfg.drainPlayback && A.IsPlaying(s.audio) then t.(drain := On)
    else CompleteTurn(cfg, t).(firstTts := Off, eosSent := Off)
  }

  function OnResponseDone(cfg: Config, s: State, toolCallOnly: bool): State {
    var t := s.(firstTts := Off, thinkingTimer := Off);
    if toolCallOnly then (if s.conv == BargedIn then t else t.(conv := Thinking))
    else FinishTurn(cfg, t)
  }

  function OnTtsDone(cfg: Config, s: State): State {
    FinishTurn(cfg, s.(firstTts := Off, thinkingTimer := Off, audio := A.MarkDone(s.audio)))
  }

  function OnError(s: State): State {
    s.(asrTimer := Off, thinkingTimer := Off, pending := "", llmTurn := Off,
       conv := if s.conv == Sleeping then Sleeping else Idle)
  }

  // ── microphone ───────────────────────────────────────────────────

  function OnVadOpened(cfg: Config, s: State, env: Env): State {
    var t := s.(vadEosSent := Off, vadEcho := Off, bargeEos := None);
    var u := if s.conv == Thinking && s.eosSent.On? then t.(eosSent := Off, asrTimer := Off) else t;
    if !A.IsPlaying(s.audio) then u.(conv := Listening)
    else if s.conv == Speaking && env.bargeIn then
      if env.settled then Interrupt(cfg, u.(conv := BargedIn)) else u.(vadEcho := On)
    else u
  }

  function OnVadClosed(cfg: Config, s: State): State {
    if s.vadEcho.On? && s.conv == Speaking then s.(vadEosSent := On)
    else if s.vadEosSent.On? then s
    else
      var t := if cfg.driveEos then SendEos(s) else s;
      t.(conv := Thinking, thinkingTimer := On, vadEosSent := On)
  }

  function OnVadChunk(cfg: Config, s: State, isSpeech: bool, env: Env): State {
    if !cfg.clientVad || cfg.pushToTalk || s.conv == Sleeping then s
    else
      var (vad, edge) := V.Tick(cfg.vad, s.vad, isSpeech);
      match edge
      case NoEdge => s.(vad := vad)
      case Opened => OnVadOpened(cfg, s.(vad := vad), env)
      case Closed => OnVadClosed(cfg, s).(vad := vad)
  }

  function OnGateClosed(cfg: Config, s: State): State {
    if !GateEos(cfg) || s.conv == Sleeping || s.eosSent.On? then s
    else SendEos(s).(conv := Thinking)
  }

  // ── timers ───────────────────────────────────────────────────────

  function OnAsrTimeout(s: State): State {
    if !s.asrTimer.On? then s
    else
      var t := s.(asrTimer := Off, eosSent := Off);
      if s.eosSent.On? && s.conv == Thinking then t.(pending := "", conv := Idle) else t
  }

  function OnThinkingTimeout(cfg: Config, s: State): State {
    if !s.thinkingTimer.On? then s
    else
      var t := s.(thinkingTimer := Off);
      if s.conv != Thinking then t
      else ResetSleepTimer(cfg, t.(llmTurn := Off, firstTts := Off, eosSent := Off, conv := Idle,
                                   log := t.log + [Abort]))
  }

  function OnStallTimeout(s: State): State {
    if !s.stallTimer.On? then s
    else
      var t := s.(stallTimer := Off);
      if s.conv in {Idle, Listening} then SendEos(t) else t
  }

  function OnSleepTimeout(s: State): State {
    if !s.sleepTimer.On? then s
    else
      var t := s.(sleepTimer := Off);
      if s.conv == Idle then Sleep(t) else t
  }

  const MAX_DEFER_MS := 5000

  function OnBargeTimeout(cfg: Config, s: State, sameSocket: bool): State {
    if s.bargeEos == None then s
    else if s.vad.mode == V.Quiet && s.conv == BargedIn && s.vad.speechMs > 0 && s.bargeEos.value < MAX_DEFER_MS then
      s.(bargeEos := Some(s.bargeEos.value + cfg.vad.silenceMs))
    else
      var t := s.(bargeEos := None);
      if s.vad.mode == V.Talking || s.conv != BargedIn || !sameSocket then t
      else SendEos(t).(conv := Thinking, thinkingTimer := On)
  }

  function OnDrainTick(cfg: Config, s: State, expired: bool): State {
    if s.drain.On? && (s.conv == BargedIn || !A.IsPlaying(s.audio) || expired) then
      CompleteTurn(cfg, s.(drain := Off))
    else s
  }

  function OnReconnected(s: State): State {
    s.(firstTts := Off, eosSent := Off, asrTimer := Off, pending := "",
       conv := if s.conv in {Thinking, BargedIn} then Idle else s.conv)
  }

  // ── the language model and the user ──────────────────────────────

  function OnReplyTextSent(s: State): State {
    if s.awaitingReply.On? then s.(awaitingReply := Off, audio := A.Arm(s.audio)) else s
  }

  function OnLlmFailed(cfg: Config, s: State): State {
    if s.llmTurn.On? then ResetSleepTimer(cfg, s.(llmTurn := Off, conv := Idle)) else s
  }

  function OnWake(cfg: Config, s: State, connected: bool, greeted: Option<bool>): State {
    if s.conv != Sleeping || !connected then s
    else ResetSleepTimer(cfg, s.(audio := A.Arm(s.audio), conv := Idle, 
                              greeting := if greeted.Some? then Flag(greeted.value) else s.greeting))
  }

  // ── one step ─────────────────────────────────────────────────────

  function Step(cfg: Config, s: State, e: Event): State {
    if s.awaitingReply.On? && ReplyTail(e) then s
    else
      match e
      case Partial(_, _) => OnPartial(cfg, s, e)
      case SpeechStarted(_) => OnSpeechStarted(cfg, s, e)
      case Final(_, _, _, _, _) => OnFinal(cfg, s, e)
      case TtsStarted(repeated) => s.(thinkingTimer := Off, dropSentence := Flag(repeated))
      case ResponseCreated(id) => s.(thinkingTimer := Off, audio := A.Begin(s.audio, id))
      case TtsAudio(pcm) => OnTtsAudio(s, pcm)
      case TtsSentenceDone => s.(dropSentence := Off)
      case ResponseAudioDone => s.(audio := A.MarkDone(s.audio))
      case ResponseDone(toolCallOnly) => OnResponseDone(cfg, s, toolCallOnly)
      case TtsDone => OnTtsDone(cfg, s)
      case SlvError => OnError(s)
      case Informational => s
      case VadChunk(isSpeech, env) => OnVadChunk(cfg, s, isSpeech, env)
      case GateClosed => OnGateClosed(cfg, s)
      case DeviceCallback(needed) => s.(audio := A.Callback(s.audio, needed))
      case Tone(pcm) => s.(audio := A.Notify(s.audio, pcm))
      case AsrTimeout => OnAsrTimeout(s)
      case ThinkingTimeout => OnThinkingTimeout(cfg, s)
      case StallTimeout => OnStallTimeout(s)
      case SleepTimeout => OnSleepTimeout(s)
      case BargeTimeout(sameSocket) => OnBargeTimeout(cfg, s, sameSocket)
      case DrainTick(expired) => OnDrainTick(cfg, s, expired)
      case Reconnected => OnReconnected(s)
      case ReplyTextSent => OnReplyTextSent(s)
      case LlmFailed => OnLlmFailed(cfg, s)
      case LlmFinished => s.(llmTurn := Off)
      case SleepRequest => Sleep(s)
      case Wake(connected, greeted) => OnWake(cfg, s, connected, greeted)
  }

  // The state after a whole sequence of events.
  function Run(cfg: Config, s: State, events: seq<Event>): State {
    if events == [] then s
    else Step(cfg, Run(cfg, s, events[..|events| - 1]), events[|events| - 1])
  }
}
