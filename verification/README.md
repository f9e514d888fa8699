# Voice agent: verified model

A Dafny model of the voice agent's turn machinery and of the algorithms around it, with proofs of what every
run of them keeps. The files form one project: `dafny verify dfyconfig.toml`.

| file | what it models |
|---|---|
| `Conversation.dfy` | the conversation state machine: six states, every latch, timer and buffer a turn depends on, one atomic step per event |
| `BaseApp.dfy` | the agent object, whose handlers update those fields in place; each is proved against the state machine, and the object remembers its events and promises what every run keeps |
| `Effects.dfy`, `EffectSteps.dfy` | the same machine effect by effect: what causes each state, sound, message, latch and timer; proved to be exactly the handlers' machine |
| `TurnSafety.dfy` | what every run keeps: no stranded wait, barge-in, superseded replies, sleep, one end-of-speech per turn |
| `Watchers.dfy` | what ends a wait: the exact steps after which THINKING or BARGED_IN has no timer left |
| `Muting.dfy`, `Standby.dfy` | no model turn is ever muted, and the new reply is heard; when an idle agent falls asleep by itself |
| `UtteranceAssembly.dfy` | which recognised text is routed, and which microphone segments end a turn |
| `AsrText.dfy` | joining the text of recognised segments |
| `ClientVad.dfy` | the online speech counters against a declarative segmentation |
| `SileroVad.dfy` | the windowing around the neural voice detector |
| `MicPump.dfy` | the microphone pump: pre-roll ring, energy gate, which chunks reach the service |
| `AudioIo.dfy`, `CaptureRate.dfy` | the playback queue and its discard latch; capture block sizes |
| `ChatHistory.dfy`, `SessionTrim.dfy` | the conversation history, echo recovery, trimming to a token budget |
| `ConcurrencyStats.dfy` | the concurrency measurement and the workers around it |
| `LcsSimilarity.dfy` | transcript similarity by longest common subsequence |
| `Listing.dfy`, `Packaging.dfy`, `PayloadArchive.dfy`, `Inspection.dfy`, `Reproducible.dfy` | collecting a payload tree, the order of inspection, laying out its archive |
| `BoundedProbe.dfy` | bounded capture of a process's two output pipes |
| `Prelude.dfy` | shared vocabulary |

The speech service, the language model, the microphone and the timers are the environment: they may produce any
event in any order. A latch that the program keeps as a Boolean is a two-valued `Latch` here. Configuration that only
classifies text (noise words, stop and exit intents) is a function in `Config`, so the theorems hold for every choice
of words. Voice activity, echo and mode decisions that depend on clocks are fields of an event.

## What does not hold

Several properties that the code's comments or documentation suggest are false of the code. For each the model has the
counterexample or the exact condition.

- Reply frames wake the agent. The comment at `agent/ovs_agent/app_base.py:3262-3264` says TTS frames are ignored while
  SLEEPING, but the handlers behind it set SPEAKING, THINKING or IDLE. `SleepEndsExactly` says which events do;
  `ReplyFrameWakes` is a run.
- A THINKING wait can lose its last timer. `WatchLostExactly` gives the four ways, for every state, event and setting:
  a reply announces itself while nothing but the thinking watchdog runs (`AnnouncedReplyIsUnwatched`); a tool-call
  response starts or goes on with a wait that nothing else watches; a speech onset over queued sound cancels the
  recogniser's wait but keeps the state (`OnsetExample`); a farewell answers an exit intent and leaves the state alone
  (`FarewellExample`). An announced wait is still watched when the recogniser's timer or a drain is running.
- An interrupting user can be left waiting. The helper at `agent/ovs_agent/app_base.py:2751-2770` promises that a
  barge-in which no microphone segment will end is ended by the fallback; it is not when the connection changed in
  between: `AttentionLostExactly`, `LostSocketExample`.
- An idle agent can stay awake. The comments at `agent/ovs_agent/app_base.py:992-1008` and
  `agent/ovs_agent/app_base.py:1194` promise that the agent returns to standby and that a turn in flight only delays it.
  The countdown fires once; when it fires during a turn that then ends in a service error, a reconnect, an unanswered
  end of speech, or a farewell to an interrupting user, nothing starts it again: `StandbyLostExactly`,
  `StaysUpExample`.
- Text can cross an abandoned turn. The helper at `agent/ovs_agent/app_base.py:1032-1036` promises that a
  half-accumulated utterance is never glued onto the next turn. The recogniser's watchdog drops it only while the latch
  is held; the thinking watchdog, the end of a reply, a drain and a failed model turn never do. `WaitEndsClean` says
  when nothing is left over, however the wait ends; `AbandonedTextLeaks` and `LateReplyLeaks` are runs.
  `PendingIsJoin` says which events cut.
- An echo can stay in the history. A tool call with a spoken preamble skips the check: `PreambleEchoExample`, and
  `EchoFreeExactly` for the condition.
- Trimming can keep a tool result without its call when the history has no user message: `FallbackSplitsExactly`, with
  `FallbackSplitsToolRound` as an instance. With a user message it cannot: `ToolRoundsStayWhole`.
- Trimming can change the prompt prefix and leave `prefix_cache_warmed` set: `StalePrefixExactly`, with
  `StalePrefixExample` as an instance.
- A full callback block is not one chunk when the chunk is empty and the device less than twice as fast:
  `BlockIsOneChunk`.
- The second size check of the pipe reader, after a whole chunk was stored, never fires (asserted in
  `BoundedProbe.Probe.Take`).

## Model

| member | source | states |
|---|---|---|
| TurnSafety.ThinkingNeverStrands | agent/ovs_agent/app_base.py:2835-2970 | Over every run and setting without a farewell: a THINKING state in which no reply has announced itself has the thinking watchdog, or the recogniser's watchdog with the end-of-speech latch, or a playback drain pending |
| TurnSafety.GuardLostExactly | agent/ovs_agent/app_base.py:3673-3721 | In any state, any event: that guard is lost exactly when a spoken farewell answers an exit (or sleeping stop) intent while nothing else watched the wait |
| TurnSafety.WatchersReachIdle | agent/ovs_agent/app_base.py:2853-2970 | Whichever watchdog of a reachable THINKING state fires, the state becomes IDLE; a drain that completes leads to IDLE, or to SLEEPING when a farewell is pending |
| EffectSteps.LawsDecide | agent/ovs_agent/app_base.py:3191-4009 | For every setting, state and event, a next state is the one the handlers reach if and only if it obeys every law of effects: a conversation state is entered, sound queued, cut, muted or re-armed, a message sent, the model stopped, a timer or latch set and released, for the listed causes and no others |
| EffectSteps.RoutedLawful | agent/ovs_agent/app_base.py:3607-3754 | A final that completes an utterance: which of answer, stop, farewell and sleep follows from the intents, and for each the whole new state, the messages in order, and whether the reply to come is muted |
| Watchers.WatchLostExactly | agent/ovs_agent/app_base.py:2835-2921 | For every setting, watched state and event: the step leads to a THINKING state with no timer and no drain if and only if a reply announces itself, a tool-call response starts or goes on with a wait, a speech onset over queued sound cancels the recogniser's wait, or a farewell is spoken, each with no other watcher left |
| Watchers.WatchedRun | agent/ovs_agent/app_base.py:2835-2921 | A run none of whose steps is one of these ends watched |
| Watchers.OnsetExample | agent/ovs_agent/app_base.py:2999-3053 | Concrete run: an onset over a queued tone leaves an announced wait with no timer |
| TurnSafety.AnnouncedReplyIsUnwatched | agent/ovs_agent/app_base.py:3756-3758 | Concrete run for the first of those ways: an answer that announces itself leaves THINKING with no timer |
| TurnSafety.FarewellExample | agent/ovs_agent/app_base.py:3706-3721 | Concrete run: gate-driven end of speech, then an exit intent with a farewell, leaves THINKING with no timer and no reply |
| TurnSafety.ReachedInv | agent/ovs_agent/app_base.py:2672-2749 | Every reachable state: BARGED_IN implies no sleep is pending after the turn; SLEEPING holds no text and no model turn; an open microphone segment has not sent its end |
| TurnSafety.BargedInHolds | agent/ovs_agent/app_base.py:3802-3967 | From BARGED_IN no sequence of reply events leaves it, queues PCM, or touches the pending text |
| TurnSafety.InterruptedReplyCannotResume | agent/ovs_agent/app_base.py:3802-3967 | The same from every reachable BARGED_IN state, whatever led there |
| Watchers.AttentionLostExactly | agent/ovs_agent/app_base.py:2751-2833 | With a driven end of speech, a reachable BARGED_IN state keeps an armed fallback or an open segment after every event, except exactly when the fallback fires after the connection changed |
| Watchers.BargedInNeverStrands | agent/ovs_agent/app_base.py:2751-2770 | Over every run in which the fallback finds its connection, BARGED_IN has an armed fallback or an open segment |
| Watchers.FallbackEndsTurn | agent/ovs_agent/app_base.py:2796-2833 | While it finds its connection, the fallback leads to a watched THINKING after a bounded number of deferrals |
| Watchers.SegmentEndsTurn | agent/ovs_agent/app_base.py:3055-3105 | The closing edge of an open segment leads from BARGED_IN to a watched THINKING, with the end of speech sent |
| Watchers.LostSocketExample | agent/ovs_agent/app_base.py:2817-2822 | Concrete run: after a changed connection BARGED_IN has neither |
| TurnSafety.SupersedingTurn | agent/ovs_agent/app_base.py:3618-3656 | A user turn over an audible reply empties playback, latches discard, waits for the new reply in a watched THINKING, and sends exactly abort, utterance, model turn |
| TurnSafety.SupersededReplyIsSilent | agent/ovs_agent/app_base.py:3191-3213 | Until the new reply's text goes out or another final is routed, no old reply byte is queued (a noise final's re-arming included) and no reply event changes anything; `Muting` says what follows |
| Muting.ModelTurnNeverMuted | agent/ovs_agent/app_base.py:3191-3199 | Over every run: a model turn with playback muted is still waiting for its own reply text, no reply has begun while one is awaited, and none is under way while BARGED_IN |
| Muting.NewReplyIsHeard | agent/ovs_agent/app_base.py:3191-3199 | From every reachable state with a model turn or an awaited reply and no interruption: once the reply text is sent, every byte of the frames that follow is queued, in order, behind what was queued; after a superseded reply the first frame sets SPEAKING |
| TurnSafety.SleepEndsExactly | agent/ovs_agent/app_base.py:3242-3264 | From a reachable SLEEPING state, an event ends the sleep if and only if it is a successful wake-up, an ungated reply frame, or a drain that completes |
| TurnSafety.ReplyFrameWakes | agent/ovs_agent/app_base.py:3802-3816 | Concrete runs, in every setting: a reply frame takes a sleeping agent to SPEAKING |
| Standby.StandbyLostExactly | agent/ovs_agent/app_base.py:977-1008 | For every setting, resting state and event: an idle agent is left without its countdown to sleep if and only if the countdown had run out and the event is a service error, a reconnect during a turn, an unanswered end of speech, or a farewell to an interrupting user |
| Standby.IdleAgentSleeps | agent/ovs_agent/app_base.py:1189-1196 | Over every run without such a step, an idle agent outside the always-on mode counts down, and the end of the countdown puts it to sleep |
| Standby.StaysUpExample | agent/ovs_agent/app_base.py:2923-2970 | Concrete run: the countdown ends while a final is owed that never comes, and the agent is idle with no timer |
| TurnSafety.StepLog | agent/ovs_agent/app_base.py:2086-2117 | One step sends at most one asr_eos, and only by taking the turn's latch |
| TurnSafety.OneEosPerTurn | agent/ovs_agent/app_base.py:2086-2117 | Over every run, the number of asr_eos sent is the number of times the latch was released plus one if it is held |
| UtteranceAssembly.PendingIsJoin | agent/ovs_agent/app_base.py:1016-1036 | In every reachable state the buffer is the join, in order, of exactly the segments accumulated since the last cut (routing, sleep, service error, reconnect, unanswered end of speech) |
| UtteranceAssembly.StepPending | agent/ovs_agent/app_base.py:3584-3605 | For every event, what becomes of the buffer: emptied by a cut, extended by a segment, otherwise untouched |
| UtteranceAssembly.RoutedText | agent/ovs_agent/app_base.py:3598-3671 | A step utters a text if and only if it routes a final, and the text is the join of the open segments and that final, word for word |
| UtteranceAssembly.AbandonedTextLeaks | agent/ovs_agent/app_base.py:2853-2921 | Concrete run: the thinking watchdog abandons a turn and its text is glued to the next utterance |
| UtteranceAssembly.LateReplyLeaks | agent/ovs_agent/app_base.py:3915-3967 | Concrete run: the end of a reply releases the latch, the recogniser's watchdog then drops nothing, and the text is glued to the next utterance |
| UtteranceAssembly.OpenSegmentsSpoken | agent/ovs_agent/app_base.py:1016-1036 | In every reachable state the buffer is empty if and only if no segment was heard since the last cut |
| UtteranceAssembly.WaitEndsClean | agent/ovs_agent/app_base.py:2923-4009 | However a reachable THINKING state ends in IDLE, the buffer is empty if and only if no segment was heard since the last cut, or the event is a routed final, a service error, a reconnect, or the recogniser's watchdog with its latch held |
| UtteranceAssembly.ThinkingTimeoutCuts | agent/ovs_agent/app_base.py:2853-2921 | The thinking watchdog returns to IDLE, and the next turn then starts with an empty buffer if and only if the abandoned one had no segment |
| UtteranceAssembly.SegmentsEndTurns | agent/ovs_agent/app_base.py:2972-3107 | Over any chunk stream the state machine's counters follow the declarative segmentation, and at most one asr_eos is sent for each closed segment |
| AsrText.JoinAssociative | agent/ovs_agent/app_base.py:137-152 | Joining segment texts is associative |
| AsrText.JoinExactly | agent/ovs_agent/app_base.py:137-152 | A join is both stripped sides, with one space between exactly when a word character meets a word character |
| AsrText.JoinAllAppend | agent/ovs_agent/app_base.py:1016-1024 | Accumulating one more segment is joining the longer list |
| AsrText.JoinWords | agent/ovs_agent/app_base.py:137-152 | The ASCII words of a join are the words of the left side followed by those of the right |
| AsrText.JoinAllWords | agent/ovs_agent/app_base.py:1016-1024 | The same for any number of segments |
| AsrText.JoinKeepsText | agent/ovs_agent/app_base.py:137-152 | A join keeps every visible character of both sides, in order |
| AsrText.JoinAllStripped | agent/ovs_agent/app_base.py:1016-1024 | A join of segments never begins or ends with white space |
| ClientVad.OnlineIsDeclarative | agent/ovs_agent/app_base.py:2990-3107 | For every speech stream, a parse is what the counters find if and only if each segment opens at the first chunk where a speech run reaches the minimum and closes at the first later chunk where a silence reaches the limit |
| ClientVad.SegmentsOrdered | agent/ovs_agent/app_base.py:2990-3107 | Segments are disjoint, in order, and span more than one chunk |
| SileroVad.ChunkingInvariant | agent/ovs_agent/vad.py:99-115 | However a stream is cut into chunks: same buffer, context and recurrent state, same network inputs, and the disjunction of the verdicts is the one-shot verdict |
| SileroVad.DrainShape | agent/ovs_agent/vad.py:99-115 | Less than one window is ever left over, and the context keeps its width |
| SileroVad.InputsAre | agent/ovs_agent/vad.py:103-112 | Network input k is exactly the slice of context and samples that window k covers |
| SileroVad.StreamInputs | agent/ovs_agent/vad.py:99-120 | The same from a fresh detector over any chunking of a whole stream |
| SileroVad.VerdictExactly | agent/ovs_agent/vad.py:99-115 | A call says speech if and only if, for some k, the network's probability on the k-th slice of context and samples is at least the threshold; the k-th state is the memory's for the first window and otherwise what the network returned for the window before |
| SileroVad.StreamVerdict | agent/ovs_agent/vad.py:99-120 | The same over a whole stream from a fresh detector, however it is cut into chunks |
| SileroVad.DrainChained | agent/ovs_agent/vad.py:103-114 | The first input runs on the memory's state, each next one on the state the network returned before, and the last returned state is kept |
| SileroVad.WindowMs | agent/ovs_agent/vad.py:65-67 | At both supported rates a window is 32 ms and the context 4 ms |
| SileroVad.Detector.IsSpeech | agent/ovs_agent/vad.py:99-115 | The in-place detector leaves the specified memory, and says speech if and only if some window's probability reaches the threshold |
| SileroVad.Detector.Reset | agent/ovs_agent/vad.py:117-120 | A reset detector is a fresh one |
| MicPump.RealAudioExactly | agent/ovs_agent/app_base.py:1858-2080 | Over every stream of decisions, real audio goes out in strictly increasing capture order, and exactly the chunks let through or within the pre-roll of the next one let through |
| MicPump.RingIsRecent | agent/ovs_agent/audio/vad_gate.py:71-90 | The ring always holds the latest unbroken run of held-back chunks, at most its capacity |
| MicPump.OnsetReplaysPreroll | agent/ovs_agent/app_base.py:1963-2080 | On an onset, the unbroken block of at most the pre-roll limit just before goes out, followed by the chunk itself |
| MicPump.GateIsHysteresis | agent/ovs_agent/app_base.py:1974-2028 | The gate is open if and only if some loud chunk has since been followed by no dropped chunk and by no quiet one later than the hangover |
| MicPump.EndsTurnExactly | agent/ovs_agent/app_base.py:1974-2028 | A measured chunk ends the turn if and only if it is quiet, later than the last loud chunk by the hangover, and that segment had lasted long enough since the loud chunk that opened it |
| MicPump.PrerollRing.constructor | agent/ovs_agent/audio/vad_gate.py:71-72 | An empty ring of capacity at least one |
| MicPump.PrerollRing.Append | agent/ovs_agent/audio/vad_gate.py:78-79 | Appending keeps the latest elements within capacity |
| MicPump.PrerollRing.Drain | agent/ovs_agent/audio/vad_gate.py:81-87 | Draining returns everything in order and empties the ring |
| MicPump.PrerollRing.Clear | agent/ovs_agent/audio/vad_gate.py:89-90 | Clearing empties the ring |
| MicPump.Pumping.DropChunk | agent/ovs_agent/app_base.py:1883-1925 | A dropped chunk sends nothing, forgets the pre-roll and closes the gate |
| MicPump.Pumping.VadChunk | agent/ovs_agent/app_base.py:2065-2080 | With a client detector, speech sends all that waited and the chunk, silence sends nothing and keeps it |
| MicPump.Pumping.UpdateGate | agent/ovs_agent/app_base.py:1974-2027 | The gate's new state, the replay at its opening edge, and when its closing edge ends the turn |
| MicPump.Pumping.Forward | agent/ovs_agent/app_base.py:2028-2048 | An open gate sends the chunk; a closed one keeps it and sends silence |
| MicPump.Pumping.GateChunk | agent/ovs_agent/app_base.py:1974-2062 | The gate is open exactly while a loud chunk holds it; an open gate sends all that waited and the chunk, a closed one no real audio; an end of speech follows exactly the chunk that closes a long enough segment |
| AudioIo.BytesConserved | agent/ovs_agent/audio_io.py:673-883 | Over every run: bytes delivered, queued and cleared add up to bytes first queued and appended |
| AudioIo.ResponseConservation | agent/ovs_agent/audio_io.py:797-809 | Since a response began: device bytes plus queued bytes are the bytes queued then plus appended minus cleared |
| AudioIo.CounterCounts | agent/ovs_agent/audio_io.py:673-686 | The device counter is the number of bytes delivered since the response began |
| AudioIo.FirstInFirstOut | agent/ovs_agent/audio_io.py:673-686 | With no stop in between, what is delivered followed by the queue is the old queue followed by the arrivals |
| AudioIo.LatchHolds | agent/ovs_agent/audio_io.py:822-883 | Once latched and until re-armed, only notification tones enter the queue |
| AudioIo.InterruptedReplyIsSilent | agent/ovs_agent/audio_io.py:871-883 | After a stop and until re-armed, the device hears only tones and playback never counts as a reply |
| AudioIo.PositionMonotone | agent/ovs_agent/audio_io.py:803-809 | Within a response, at a fixed output rate, the reported position never goes back |
| AudioIo.PositionIs | agent/ovs_agent/audio_io.py:803-809 | The position is zero for another response, and otherwise the whole number of milliseconds that the device bytes last as 16-bit samples at the output rate |
| AudioIo.PlayingMeans | agent/ovs_agent/audio_io.py:157-162 | Playback that does not count as playing has nothing for the device; a played frame counts, a stop ends it, and after the end of a reply it counts exactly while bytes are left |
| AudioIo.AudioIO.OutputCallback | agent/ovs_agent/audio_io.py:673-686 | The whole output block is the queue's prefix padded with zeros, and the queue and counter advance by it |
| AudioIo.AudioIO.PlayFrame | agent/ovs_agent/audio_io.py:822-837 | A reply frame is queued unless the discard latch is set |
| AudioIo.AudioIO.PlayNotification | agent/ovs_agent/audio_io.py:811-820 | A tone is queued whatever the latch, without marking a reply |
| AudioIo.AudioIO.StopPlayback | agent/ovs_agent/audio_io.py:871-883 | Stopping empties the queue and sets the latch |
| AudioIo.AudioIO.ArmForNextTurn | agent/ovs_agent/audio_io.py:854-857 | Arming clears the latch and nothing else |
| AudioIo.AudioIO.MarkPlaybackDone | agent/ovs_agent/audio_io.py:787-795 | The reply no longer streams; the queue stays |
| AudioIo.AudioIO.BeginResponsePlayback | agent/ovs_agent/audio_io.py:797-801 | Accounting starts afresh for the response |
| AudioIo.AudioIO.PlaybackPositionMs | agent/ovs_agent/audio_io.py:803-809 | The position of the named response, zero for any other |
| CaptureRate.BlockIsOneChunk | agent/ovs_agent/audio_io.py:358-367 | At every device rate at or above the configured one, a full block resamples back to exactly one chunk, if and only if the chunk is not empty or the rates make it vanish |
| CaptureRate.FloatBlockIsOneChunk | agent/ovs_agent/audio_io.py:358-367 | The same for any correctly rounded double-precision quotient, as the program computes it |
| CaptureRate.RoundsAlike | agent/ovs_agent/audio_io.py:839-845 | round() of the double-precision quotient is round() of the rational one |
| CaptureRate.FasterRoundTrip | agent/ovs_agent/audio_io.py:839-852 | Both roundings cancel for every faster device rate |
| CaptureRate.RoundNearest | agent/ovs_agent/audio_io.py:839-852 | Rounding yields a nearest integer |
| CaptureRate.RoundExactly | agent/ovs_agent/audio_io.py:839-845 | The rounded value is the one integer within one half, the even one of two |
| CaptureRate.RoundUnique | agent/ovs_agent/audio_io.py:839-852 | Any integer strictly within one half is the rounded value |
| CaptureRate.EmptyChunk | agent/ovs_agent/audio_io.py:358-367 | What an empty chunk's forced one-frame block becomes |
| CaptureRate.SlowerRateLoses | agent/ovs_agent/audio_io.py:358-367 | Below the configured rate a chunk need not survive |
| ChatHistory.EchoingExactly | agent/ovs_agent/session.py:203-243 | The history is taken for an echo if and only if its last three replies are one text of at most forty characters |
| ChatHistory.EchoFreeExactly | agent/ovs_agent/session.py:134-243 | An operation on a history without three equal short replies in a row keeps it so, if and only if it is not a tool call whose preamble repeats the two replies before it |
| ChatHistory.NoEchoInAnyRun | agent/ovs_agent/session.py:134-243 | Over every run with preamble-free tool calls the history never holds such an echo |
| ChatHistory.RollbackKeeps | agent/ovs_agent/session.py:181-197 | A rollback keeps a prefix of exactly the anchor's length, clamped to the history, and repeats without effect |
| ChatHistory.RollbackUndoes | agent/ovs_agent/session.py:181-197 | Rolling back to an anchor taken earlier drops exactly what was appended since |
| ChatHistory.PreambleEchoExample | agent/ovs_agent/session.py:156-171 | Concrete run: three tool calls with the same preamble are an echo that stays |
| SessionTrim.TrimKeepsLongestSuffix | agent/ovs_agent/session.py:299-500 | Over budget with a user message: the result is the longest suffix of whole turns that fits, or the latest turn alone if that does not; every longer suffix is over budget |
| SessionTrim.BudgetExactly | agent/ovs_agent/session.py:332 | The budget is the one integer that is three quarters of the limit without its fraction, below zero too |
| SessionTrim.TrimKeepsWithin | agent/ovs_agent/session.py:299-500 | Stated by the limit alone: when turns are dropped, the kept messages are whole turns that cost at most three quarters of the limit, or the latest turn alone, and keeping one more turn would cost more; without a user message the same for single messages |
| SessionTrim.CostCharges | agent/ovs_agent/session.py:281-297 | What a message of each kind is charged: its text, its serialised tool calls, and four |
| SessionTrim.DropsChange | agent/ovs_agent/session.py:450-476 | Whenever the cache flag is cleared, messages are really gone |
| SessionTrim.FirstFitBest | agent/ovs_agent/session.py:434-445 | The first turn from which the rest fits starts that suffix |
| SessionTrim.TrimIdempotent | agent/ovs_agent/session.py:299-500 | Trimming a trimmed conversation changes nothing |
| SessionTrim.TurnsPartition | agent/ovs_agent/session.py:341-354 | Turns are a user message with what follows it, and concatenate back to the messages |
| SessionTrim.RegroupTurns | agent/ovs_agent/session.py:341-354 | Grouping what was grouped gives the same turns |
| SessionTrim.SuffixCheaper | agent/ovs_agent/session.py:281-297 | A shorter suffix of turns never costs more |
| SessionTrim.TrimIsUserSuffix | agent/ovs_agent/session.py:424-500 | With a user message, the result is everything or a suffix that begins at a user message |
| SessionTrim.ToolRoundsStayWhole | agent/ovs_agent/session.py:302-312 | With a user message, a well-formed history never keeps a tool result without the call it answers |
| SessionTrim.FallbackKeepsLongestSuffix | agent/ovs_agent/session.py:365-406 | Without a user message, the result is the longest suffix of messages that fits |
| SessionTrim.FallbackSplitsExactly | agent/ovs_agent/session.py:365-406 | Without a user message, a well-formed history loses a call and keeps its result if and only if the messages from some result on fit, and those from each call it answers on do not |
| SessionTrim.FallbackSplitsToolRound | agent/ovs_agent/session.py:365-406 | Concrete history: a call and its result, with room for the result alone |
| SessionTrim.StalePrefixExactly | agent/ovs_agent/session.py:450-476 | The prefix changes without the cache flag being cleared exactly when the only turn is over budget and messages before it go |
| SessionTrim.StalePrefixExample | agent/ovs_agent/session.py:450-476 | Concrete operations: a reply and then a user message over budget change the prefix and leave the flag |
| SessionTrim.Session.AppendAssistant | agent/ovs_agent/session.py:152-154 | A reply is appended, or an echo clears the history and every cache latch |
| SessionTrim.Session.MaybeRecoverFromEcho | agent/ovs_agent/session.py:206-256 | The history and latches are cleared exactly when the last three replies are one short text |
| SessionTrim.Session.AppendUser | agent/ovs_agent/session.py:149-150 | A user message is appended |
| SessionTrim.Session.AppendToolCalls | agent/ovs_agent/session.py:156-171 | A tool-call message is appended, unchecked |
| SessionTrim.Session.AppendToolResult | agent/ovs_agent/session.py:173-179 | A tool result is appended |
| SessionTrim.Session.Rollback | agent/ovs_agent/session.py:181-197 | The history is cut back to a possibly negative or too large anchor, and the number of dropped messages returned |
| SessionTrim.Session.ResetConversation | agent/ovs_agent/session.py:134-147 | History and latches are cleared |
| SessionTrim.Session.Messages | agent/ovs_agent/session.py:258-271 | The system prompt followed by the history; with a limit, by what of it three quarters of the limit can pay for, and no less |
| SessionTrim.Session.GroupTurns | agent/ovs_agent/session.py:341-354 | The two nested loops compute the turns after the leading messages |
| SessionTrim.Session.DropTurns | agent/ovs_agent/session.py:424-445 | The dropping loop, with its pinned unfinished turn, finds the first fitting suffix |
| SessionTrim.Session.DropMessages | agent/ovs_agent/session.py:376-381 | The fallback loop drops the oldest messages until the rest fits |
| SessionTrim.Session.SplitPinned | agent/ovs_agent/session.py:408-422 | The last turn is set apart unless it ends in a plain reply, and no turn is lost |
| SessionTrim.Session.TrimToBudget | agent/ovs_agent/session.py:299-500 | The trimmed list, what it costs against three quarters of the limit, and when the cache flag is cleared |
| ConcurrencyStats.PeakIsMaximumOverlap | scripts/mock_openai_client.py:154-178 | For every list of spans, touching and empty ones included, the sweep returns the maximum number in flight at any time |
| ConcurrencyStats.AcceptedNeverExceedsInflight | scripts/mock_openai_client.py:241-252 | In every interleaving of any number of workers, the reported peak is that maximum and never exceeds the recorded in-flight peak |
| ConcurrencyStats.MoveKeepsInv | scripts/mock_openai_client.py:142-152 | Every move keeps the in-flight count equal to the workers between enter and leave, below the recorded peak |
| ConcurrencyStats.MoveKeepsCover | scripts/mock_openai_client.py:241-252 | At any time, recorded and unrecorded requests in flight together never exceed the recorded peak |
| ConcurrencyStats.RequestRecorded | scripts/mock_openai_client.py:241-252 | Whatever the other workers do in between, a request that is answered with status 200 adds exactly the span between its two clock readings, any other status adds none, and leaving lowers the count by one |
| ConcurrencyStats.PeakIsReached | scripts/mock_openai_client.py:142-146 | The recorded peak is the highest number of requests in flight at any moment of the run |
| ConcurrencyStats.Stats.EnterRequest | scripts/mock_openai_client.py:142-146 | Entering counts the request and raises the peak |
| ConcurrencyStats.Stats.LeaveRequest | scripts/mock_openai_client.py:148-152 | Leaving records the span of a served request only |
| ConcurrencyStats.Stats.PeakAccepted | scripts/mock_openai_client.py:154-178 | The sweep over the recorded spans returns their maximum overlap |
| LcsSimilarity.LcsIsLongest | deploy/roundtrip_verify.py:27-40 | A number is the recurrence's value if and only if some common subsequence has that length and none is longer |
| LcsSimilarity.LcsLength | deploy/roundtrip_verify.py:34-40 | The rolling-row program computes the recurrence |
| LcsSimilarity.LcsSimilarity | deploy/roundtrip_verify.py:27-40 | The score times the longer normalised length is the length of a longest common subsequence of the normalised texts; both empty score 1, one empty scores 0 |
| LcsSimilarity.SimilarityLaws | deploy/roundtrip_verify.py:27-40 | The score lies in [0, 1], is symmetric, and is 1 exactly for equal normalised texts |
| LcsSimilarity.SimilarityScores | deploy/roundtrip_verify.py:27-40 | From subsequences alone: score times the longer text's length is the length of a common subsequence that none exceeds; the empty cases are 1 and 0 |
| LcsSimilarity.PunctuationIsFree | deploy/roundtrip_verify.py:22-24 | Inserting a dropped character changes nothing |
| LcsSimilarity.NormalizeChar | deploy/roundtrip_verify.py:22-24 | Normalising drops the listed characters and lower-cases any other |
| Packaging.CollectPayloadFiles | scripts/package_edgellm_v010_artifact.py:115-153 | The worklist of directories inspects the tree in the recursive order, reports its first refused item, and returns the files by path |
| Packaging.ScanEntries | scripts/package_edgellm_v010_artifact.py:135-148 | The loop over one directory's entries: directories pushed, files collected in order, or the first refusal |
| Packaging.ScanDirectory | scripts/package_edgellm_v010_artifact.py:128-148 | The same for a directory taken from the worklist, in name order |
| Packaging.TakeDirectory | scripts/package_edgellm_v010_artifact.py:127-148 | Taking the top directory leaves exactly its entries inspected and everything else pending |
| PayloadArchive.AcceptsExactly | scripts/package_edgellm_v010_artifact.py:115-153 | A tree is accepted if and only if it has no link or special file and some regular file; the result is exactly its files, sorted by path |
| PayloadArchive.RefusedForAnItem | scripts/package_edgellm_v010_artifact.py:138-152 | A refusal names a link or special file of the tree, or the tree holds only directories |
| Inspection.RefusalIsFirst | scripts/package_edgellm_v010_artifact.py:125-148 | A tree is refused for exactly one of its links and special files, the first in an order stated on paths alone: a directory's own entries by name, then its directories from the last name to the first, each with all below it |
| Inspection.RefusedTreeHasFirst | scripts/package_edgellm_v010_artifact.py:125-148 | Every tree with a link or special file has that first one |
| Inspection.WalkOrdered | scripts/package_edgellm_v010_artifact.py:127-148 | The worklist visits a tree in that order, strictly |
| PayloadArchive.ScanIsRglob | scripts/package_edgellm_v010_artifact.py:127-148 | Inspection visits every item of the tree exactly once |
| PayloadArchive.RglobIsTree | scripts/package_edgellm_v010_artifact.py:102-148 | The recursive listing holds an item if and only if the names on its path lead from the root, directory by directory, to it |
| PayloadArchive.CollectDirectories | scripts/package_edgellm_v010_artifact.py:156-173 | The directories by path, or the first refused path |
| PayloadArchive.WritePayloadTar | scripts/package_edgellm_v010_artifact.py:194-229 | The members are the directories and the given files, merged by path; what each holds is `ArchiveContents` |
| PayloadArchive.Package | scripts/package_edgellm_v010_artifact.py:336-345 | Collecting and writing in a row give the error of the specification, or an archive that holds exactly the tree: every item, its bytes and mode, no others |
| PayloadArchive.ArchiveIsTree | scripts/package_edgellm_v010_artifact.py:194-229 | The archive of an accepted tree holds exactly the items of the tree, each once, sorted by path, under distinct paths |
| PayloadArchive.ArchiveContents | scripts/package_edgellm_v010_artifact.py:176-229 | The archive of an accepted tree holds for every file exactly one member with its path, its bytes, and mode 0755 if some execute bit is set and 0644 otherwise, for every directory one empty 0755 member, and nothing else; owner, group and time are zero |
| PayloadArchive.PathsDistinct | scripts/package_edgellm_v010_artifact.py:102-112 | No two items of a tree have the same relative path |
| PayloadArchive.DirectoriesFirst | scripts/package_edgellm_v010_artifact.py:194-229 | A directory member precedes everything whose name it begins |
| PayloadArchive.ParentsPresent | scripts/package_edgellm_v010_artifact.py:194-229 | Every member below the root comes after the member of the directory it lies in |
| Reproducible.FactsDetermineArchive | scripts/package_edgellm_v010_artifact.py:176-229 | Two trees with equal paths, bytes and executable bits are accepted alike and give the same archive |
| Reproducible.ListingOrderIrrelevant | scripts/package_edgellm_v010_artifact.py:115-229 | However directories are listed, the outcome is the same archive, or the same error for the same path |
| Reproducible.TarOfFact | scripts/package_edgellm_v010_artifact.py:176-191 | A member's header depends on path, bytes and executable bit only |
| Listing.ByName | scripts/package_edgellm_v010_artifact.py:150 | Sorting yields a permutation in name order |
| Listing.SortedUnique | scripts/package_edgellm_v010_artifact.py:205 | A sorted list without repeated names is fixed by its elements |
| BoundedProbe.CapturesAreBounded | scripts/edgellm_native_run.py:541-564 | For every interleaving: the captures hold exactly the first bytes delivered up to the limit, each is a prefix of its pipe, and both are complete if and only if the limit is not passed |
| BoundedProbe.RunOverrun | scripts/edgellm_native_run.py:541-604 | A run of drains reads at most one chunk a drain past the limit, and forgets nothing it counted |
| BoundedProbe.ChunkAdds | scripts/edgellm_native_run.py:553-560 | A chunk adds to its own pipe's total wholly and to its capture as far as there is room |
| BoundedProbe.PipeStops | scripts/edgellm_native_run.py:541-564 | One pipe is read chunk by chunk up to the end, a block, an error, or the first chunk that passes the limit, and no further |
| BoundedProbe.DrainStops | scripts/edgellm_native_run.py:541-564 | A drain that begins within the limit delivers the ready chunks in order, up to and including the first that passes it |
| BoundedProbe.DrainPastLimit | scripts/edgellm_native_run.py:541-564 | A drain that begins past the limit reads at most one chunk, of the first ready pipe |
| BoundedProbe.Probe.Take | scripts/edgellm_native_run.py:553-563 | Totals, captures and the limit flag stay exactly what the bytes delivered so far require |
| BoundedProbe.Probe.DrainPipe | scripts/edgellm_native_run.py:545-563 | One ready pipe is read up to a block, an error, its end, or the chunk that passes the limit |
| BoundedProbe.Probe.Drain | scripts/edgellm_native_run.py:541-564 | The ready pipes are read in turn until the limit is passed |
| BoundedProbe.Probe.DrainAll | scripts/edgellm_native_run.py:570-604 | Any number of drains in a row, past the limit too |
| BaseApp.App.constructor | agent/ovs_agent/app_base.py:374-379 | A fresh agent is in the initial state, asleep unless always on, with an empty history, and keeps its promises |
| BaseApp.App.Handle | agent/ovs_agent/app_base.py:3121-3129 | Whatever the object has handled before, one more event has exactly its lawful effects and keeps the promises: the invariant, the guard of THINKING without a farewell, a buffer that is the join of the open segments, one asr_eos a turn, no muted model turn; the watch over a wait, an interruption or the way to sleep is lost in the known ways only; an interrupted reply stays silent, the reply of a model turn is queued, and a superseding turn's reply text opens playback |
| BaseApp.App.HandleAll | agent/ovs_agent/app_base.py:3109-3187 | The same promises after any sequence of events, with the object in the state its whole history leads to |
| BaseApp.App.GoToSleep | agent/ovs_agent/app_base.py:942-975 | Falling asleep aborts, empties playback and the pending text, and is idempotent |
| BaseApp.App.SendAsrEosOnce | agent/ovs_agent/app_base.py:2086-2117 | At most one asr_eos a turn, which arms the recogniser's watchdog; the result says whether it was sent |
| BaseApp.App.InterruptCurrentTurn | agent/ovs_agent/app_base.py:2672-2749 | Barge-in: the whole new state, the kept pending text included |
| BaseApp.App.DispatchFinal | agent/ovs_agent/app_base.py:3411-3754 | What a final result does, in all its branches |
| BaseApp.App.DispatchOne | agent/ovs_agent/app_base.py:3201-4009 | Any service event, behind the gate that drops a superseded reply's tail |
| BaseApp.App.UpdateVad | agent/ovs_agent/app_base.py:2972-3107 | One microphone chunk through the client detector |
| BaseApp.App.BargeinEosFallback | agent/ovs_agent/app_base.py:2796-2833 | The fallback defers to starting speech, gives way to a segment or a new connection, and otherwise ends the turn |

## Left out

- Interleavings inside one handler: every handler is one atomic step, so a state change by another coroutine between two awaits of a handler is not modelled.
- Durations of timers: a timer is armed or not, and may fire at any moment while armed. The barge-in fallback counts what it has deferred.
- Wake-word single-turn mode, its command timeout and retry window, push-to-talk endpoints, typed text and wake replies beyond the greeting latch.
- Tones other than their bytes in the queue, logging, broadcasts, dashboards, hooks and plugins.
- Transport, reconnect internals and tool dispatch: a reconnect is a flag of the final it follows, or the event of the dispatch loop. Response identifiers and truncation of the remote conversation are not kept.
- A missing utterance handler (NotImplementedError) that returns to IDLE without a sleep timer.
- Noise words, stop and exit intents: functions of the configuration; the matching rules themselves are not modelled.
- Microphone samples, loudness, makeup gain and the zero buffer's length: a chunk is its capture index, its loudness a number given with it.
- Sample interpolation and output resampling: only lengths and byte order of audio matter.
- CaptureRate.BlockIsOneChunk: rates are exact rationals; CaptureRate.FloatBlockIsOneChunk carries it over to double-precision quotients.
- CaptureRate.FasterRoundTrip: the exact-rational half of the same result.
- CaptureRate.FloatBlockIsOneChunk: sizes whose product with a rate comes within one rate of 2 to the power of 52 are not covered; a double's rounding is a property of the quotient, not its bit layout.
- SessionTrim.TrimKeepsLongestSuffix: the budget is the exact integer part of three quarters; the token counter and the JSON form of tool calls are parameters.
- The neural network of the voice detector and its tokenizer counterpart in the session: pure functions given as parameters.
- LcsSimilarity.SimilarityLaws: the score is an exact real; lower-casing one character is a parameter.
- ConcurrencyStats.AcceptedNeverExceedsInflight: the clock is a real that never goes back; a failed request leaves with status -1 like any other status that is not 200.
- Packaging: output paths, the source root's own validation, re-stat checks against a tree that changes while it is packed, manifests, hashes and the byte encoding of the archive.
- PayloadArchive.ArchiveIsTree: names within one directory differ and contain no slash, as in any file system.
- BoundedProbe: process start, signals, deadlines and the decoding of the captures; closed pipes leave the selection by not being reported again.
- The option scan of `check_cfg` and `_json_exact` in `scripts/edgellm_native_run.py`, release and manifest checkers, launchers, benches and example clients: field-by-field gates and plumbing that would only add easy members.
