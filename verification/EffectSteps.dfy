// Every step of the conversation has the effects that Effects describes, and no
// others: law by law, kind of event by kind of event.
module EffectSteps {
  import opened Prelude
  import opened Conversation
  import opened TurnSafety
  import opened Effects
  import V = ClientVad
  import A = AudioIo

  // ── a routed final ───────────────────────────────────────────────

  lemma FinalMeans(cfg: Config, s: State, e: Event)
    ensures Routes(cfg, s, e) <==> Completed(cfg, s, e)
    ensures e.Final? ==> Words(s, e) == FullText(s, e) && (TakesOver(cfg, s, e) <==> Supersedes(cfg, s, e))
    ensures e.Final? ==> (Ignored(cfg, s, e) && s.conv != Sleeping <==> Heard(s, e) && (Repeats(s, e) || Noise(cfg, s, e)))
  {
  }

  function Reacted(cfg: Config, w: State, text: string, spoken: bool): State {
    if Dismissal(cfg, text) then Dismiss(cfg, w, text, spoken) else Answer(w, text)
  }

  // The state a routed final is answered or dismissed in.
  lemma RoutedState(cfg: Config, s: State, e: Event) returns (w: State)
    requires Routes(cfg, s, e)
    ensures Step(cfg, s, e) == Reacted(cfg, w, FullText(s, e), e.spoken)
    ensures w.conv == s.conv && w.thinkingTimer == s.thinkingTimer && w.sleepTimer == s.sleepTimer
    ensures FreshEar(s, w) && w.dropSentence == s.dropSentence
    ensures var hushed := Supersedes(cfg, s, e);
            && w.audio == (if hushed then A.Stop(s.audio) else A.Arm(s.audio))
            && w.awaitingReply == Flag(hushed)
            && w.llmTurn == Flag(s.llmTurn.On? && !hushed)
            && w.drain == Flag(s.drain.On? && !hushed)
            && w.firstTts == Flag(s.firstTts.On? && !hushed && !e.renewed)
            && w.sleepAfterTurn == Flag(s.sleepAfterTurn.On? && !hushed)
            && w.greeting == Flag(s.greeting.On? && !hushed)
            && w.bargeEos == (if !hushed then s.bargeEos
                              else if cfg.driveEos && s.vad.mode == V.Quiet then Some(0) else None)
            && w.log == s.log + (if hushed then [AbortKeepAsr] else []) + [Utterance(FullText(s, e))]
  {
    w := Assembled(cfg, Answered(s, e), e);
  }

  lemma ReactedTo(cfg: Config, w: State, text: string, spoken: bool)
    requires w.conv != Sleeping && w.pending == ""
    ensures var t, o := Reacted(cfg, w, text, spoken), OutcomeOf(cfg, text, spoken);
            && RoutedConv(cfg, w, o, t)
            && t.audio == (match o
                           case Replies => w.audio
                           case Farewells => A.Arm(A.Stop(w.audio))
                           case _ => A.Stop(w.audio))
            && t.awaitingReply == (if o == Replies then w.awaitingReply else Off)
            && t.llmTurn == Flag(o == Replies)
            && t.drain == Flag(w.drain.On? && o != Leaves)
            && t.firstTts == Flag(w.firstTts.On? && o != Leaves)
            && t.sleepAfterTurn == Flag(o == Farewells || (w.sleepAfterTurn.On? && !(o == Leaves && cfg.exitReply)))
            && t.log == w.log + Reaction(o, text)
            && t == w.(conv := t.conv, thinkingTimer := t.thinkingTimer, sleepTimer := t.sleepTimer, audio := t.audio,
                       awaitingReply := t.awaitingReply, llmTurn := t.llmTurn, drain := t.drain, firstTts := t.firstTts,
                       sleepAfterTurn := t.sleepAfterTurn, log := t.log)
  {
    ConcatAssoc(w.log, [Abort], [Abort]);
    ConcatAssoc(w.log, [Abort], [Farewell]);
    assert [Abort] + [Abort] == [Abort, Abort] && [Abort] + [Farewell] == [Abort, Farewell];
  }

  lemma RoutedLawful(cfg: Config, s: State, e: Event)
    requires Routes(cfg, s, e)
    ensures RoutedTo(cfg, s, e, Step(cfg, s, e))
  {
    FinalMeans(cfg, s, e);
    var w := RoutedState(cfg, s, e);
    ReactedTo(cfg, w, FullText(s, e), e.spoken);
  }

  // ── any other event ──────────────────────────────────────────────

  predicate EndFrame(e: Event) {
    e.TtsDone? || e.ResponseDone?
  }

  predicate PlainFrame(e: Event) {
    ReplyEvent(e) && !EndFrame(e)
  }

  predicate Clock(e: Event) {
    e.AsrTimeout? || e.ThinkingTimeout? || e.StallTimeout? || e.SleepTimeout? || e.BargeTimeout? || e.DrainTick?
  }

  predicate Inner(e: Event) {
    e.SlvError? || e.Informational? || e.Reconnected? || e.ReplyTextSent? || e.LlmFailed? || e.LlmFinished? ||
    e.SleepRequest? || e.Wake?
  }

  // A final that is not routed.

  lemma QuietConv(cfg: Config, s: State, e: Event)
    requires e.Final? && !Routes(cfg, s, e)
    ensures ConvLaw(cfg, s, e, Step(cfg, s, e))
  {
    FinalMeans(cfg, s, e);
    if s.conv == Sleeping {
    } else if Ignored(cfg, s, e) {
    }
  }

  lemma QuietQueue(cfg: Config, s: State, e: Event)
    requires e.Final? && !Routes(cfg, s, e)
    ensures QueueLaw(cfg, s, e, Step(cfg, s, e))
  {
    FinalMeans(cfg, s, e);
    if s.conv == Sleeping {
    } else if Ignored(cfg, s, e) {
    }
  }

  lemma QuietMute(cfg: Config, s: State, e: Event)
    requires e.Final? && !Routes(cfg, s, e)
    ensures MuteLaw(cfg, s, e, Step(cfg, s, e))
  {
    FinalMeans(cfg, s, e);
    if s.conv == Sleeping {
    } else if Ignored(cfg, s, e) {
    }
  }

  lemma QuietOutput(cfg: Config, s: State, e: Event)
    requires e.Final? && !Routes(cfg, s, e)
    ensures OutputLaw(cfg, s, e, Step(cfg, s, e))
  {
    FinalMeans(cfg, s, e);
    if s.conv == Sleeping {
    } else if Ignored(cfg, s, e) {
    }
  }

  lemma QuietTask(cfg: Config, s: State, e: Event)
    requires e.Final? && !Routes(cfg, s, e)
    ensures TaskLaw(cfg, s, e, Step(cfg, s, e))
  {
    FinalMeans(cfg, s, e);
    if s.conv == Sleeping {
    } else if Ignored(cfg, s, e) {
    }
  }

  lemma QuietReply(cfg: Config, s: State, e: Event)
    requires e.Final? && !Routes(cfg, s, e)
    ensures ReplyLaw(cfg, s, e, Step(cfg, s, e))
  {
    FinalMeans(cfg, s, e);
    if s.conv == Sleeping {
    } else if Ignored(cfg, s, e) {
    }
  }

  lemma QuietEos(cfg: Config, s: State, e: Event)
    requires e.Final? && !Routes(cfg, s, e)
    ensures EosLaw(cfg, s, e, Step(cfg, s, e))
  {
    FinalMeans(cfg, s, e);
    if s.conv == Sleeping {
    } else if Ignored(cfg, s, e) {
    }
  }

  lemma QuietWait(cfg: Config, s: State, e: Event)
    requires e.Final? && !Routes(cfg, s, e)
    ensures WaitLaw(cfg, s, e, Step(cfg, s, e))
  {
    FinalMeans(cfg, s, e);
    if s.conv == Sleeping {
    } else if Ignored(cfg, s, e) {
    }
  }

  lemma QuietStandby(cfg: Config, s: State, e: Event)
    requires e.Final? && !Routes(cfg, s, e)
    ensures StandbyLaw(cfg, s, e, Step(cfg, s, e))
  {
    FinalMeans(cfg, s, e);
    if s.conv == Sleeping {
    } else if Ignored(cfg, s, e) {
    }
  }

  lemma QuietDetector(cfg: Config, s: State, e: Event)
    requires e.Final? && !Routes(cfg, s, e)
    ensures DetectorLaw(cfg, s, e, Step(cfg, s, e))
  {
    FinalMeans(cfg, s, e);
    if s.conv == Sleeping {
    } else if Ignored(cfg, s, e) {
    }
  }

  lemma QuietLawful(cfg: Config, s: State, e: Event)
    requires e.Final? && !Routes(cfg, s, e)
    ensures Lawful(cfg, s, e, Step(cfg, s, e))
  {
    FinalMeans(cfg, s, e);
    QuietConv(cfg, s, e);
    QuietQueue(cfg, s, e);
    QuietMute(cfg, s, e);
    QuietOutput(cfg, s, e);
    QuietTask(cfg, s, e);
    QuietReply(cfg, s, e);
    QuietEos(cfg, s, e);
    QuietWait(cfg, s, e);
    QuietStandby(cfg, s, e);
    QuietDetector(cfg, s, e);
  }

  // A reply frame that does not end the reply.

  lemma FrameConv(cfg: Config, s: State, e: Event)
    requires PlainFrame(e)
    ensures ConvLaw(cfg, s, e, Step(cfg, s, e))
  {
  }

  lemma FrameQueue(cfg: Config, s: State, e: Event)
    requires PlainFrame(e)
    ensures QueueLaw(cfg, s, e, Step(cfg, s, e))
  {
  }

  lemma FrameMute(cfg: Config, s: State, e: Event)
    requires PlainFrame(e)
    ensures MuteLaw(cfg, s, e, Step(cfg, s, e))
  {
  }

  lemma FrameOutput(cfg: Config, s: State, e: Event)
    requires PlainFrame(e)
    ensures OutputLaw(cfg, s, e, Step(cfg, s, e))
  {
  }

  lemma FrameTask(cfg: Config, s: State, e: Event)
    requires PlainFrame(e)
    ensures TaskLaw(cfg, s, e, Step(cfg, s, e))
  {
  }

  lemma FrameReply(cfg: Config, s: State, e: Event)
    requires PlainFrame(e)
    ensures ReplyLaw(cfg, s, e, Step(cfg, s, e))
  {
  }

  lemma FrameEos(cfg: Config, s: State, e: Event)
    requires PlainFrame(e)
    ensures EosLaw(cfg, s, e, Step(cfg, s, e))
  {
  }

  lemma FrameWait(cfg: Config, s: State, e: Event)
    requires PlainFrame(e)
    ensures WaitLaw(cfg, s, e, Step(cfg, s, e))
  {
  }

  lemma FrameStandby(cfg: Config, s: State, e: Event)
    requires PlainFrame(e)
    ensures StandbyLaw(cfg, s, e, Step(cfg, s, e))
  {
  }

  lemma FrameDetector(cfg: Config, s: State, e: Event)
    requires PlainFrame(e)
    ensures DetectorLaw(cfg, s, e, Step(cfg, s, e))
  {
  }

  lemma FrameLawful(cfg: Config, s: State, e: Event)
    requires PlainFrame(e)
    ensures Lawful(cfg, s, e, Step(cfg, s, e))
  {
    FrameConv(cfg, s, e);
    FrameQueue(cfg, s, e);
    FrameMute(cfg, s, e);
    FrameOutput(cfg, s, e);
    FrameTask(cfg, s, e);
    FrameReply(cfg, s, e);
    FrameEos(cfg, s, e);
    FrameWait(cfg, s, e);
    FrameStandby(cfg, s, e);
    FrameDetector(cfg, s, e);
  }

  // The end of a reply.

  lemma DoneConv(cfg: Config, s: State, e: Event)
    requires EndFrame(e)
    ensures ConvLaw(cfg, s, e, Step(cfg, s, e))
  {
    if s.awaitingReply.Off? {
      if e.TtsDone? {
      } else if e.toolCallOnly {
      } else {
      }
    }
  }

  lemma DoneQueue(cfg: Config, s: State, e: Event)
    requires EndFrame(e)
    ensures QueueLaw(cfg, s, e, Step(cfg, s, e))
  {
    if s.awaitingReply.Off? {
      if e.TtsDone? {
      } else if e.toolCallOnly {
      } else {
      }
    }
  }

  lemma DoneMute(cfg: Config, s: State, e: Event)
    requires EndFrame(e)
    ensures MuteLaw(cfg, s, e, Step(cfg, s, e))
  {
    if s.awaitingReply.Off? {
      if e.TtsDone? {
      } else if e.toolCallOnly {
      } else {
      }
    }
  }

  lemma DoneOutput(cfg: Config, s: State, e: Event)
    requires EndFrame(e)
    ensures OutputLaw(cfg, s, e, Step(cfg, s, e))
  {
    if s.awaitingReply.Off? {
      if e.TtsDone? {
      } else if e.toolCallOnly {
      } else {
      }
    }
  }

  lemma DoneTask(cfg: Config, s: State, e: Event)
    requires EndFrame(e)
    ensures TaskLaw(cfg, s, e, Step(cfg, s, e))
  {
    if s.awaitingReply.Off? {
      if e.TtsDone? {
      } else if e.toolCallOnly {
      } else {
      }
    }
  }

  lemma DoneReply(cfg: Config, s: State, e: Event)
    requires EndFrame(e)
    ensures ReplyLaw(cfg, s, e, Step(cfg, s, e))
  {
    if s.awaitingReply.Off? {
      if e.TtsDone? {
      } else if e.toolCallOnly {
      } else {
      }
    }
  }

  lemma DoneEos(cfg: Config, s: State, e: Event)
    requires EndFrame(e)
    ensures EosLaw(cfg, s, e, Step(cfg, s, e))
  {
    if s.awaitingReply.Off? {
      if e.TtsDone? {
      } else if e.toolCallOnly {
      } else {
      }
    }
  }

  lemma DoneWait(cfg: Config, s: State, e: Event)
    requires EndFrame(e)
    ensures WaitLaw(cfg, s, e, Step(cfg, s, e))
  {
    if s.awaitingReply.Off? {
      if e.TtsDone? {
      } else if e.toolCallOnly {
      } else {
      }
    }
  }

  lemma DoneStandby(cfg: Config, s: State, e: Event)
    requires EndFrame(e)
    ensures StandbyLaw(cfg, s, e, Step(cfg, s, e))
  {
    if s.awaitingReply.Off? {
      if e.ResponseDone? && e.toolCallOnly {
      } else if s.conv == BargedIn {
      } else if DrainsFirst(cfg, s, e) {
      }
    }
  }

  lemma DoneDetector(cfg: Config, s: State, e: Event)
    requires EndFrame(e)
    ensures DetectorLaw(cfg, s, e, Step(cfg, s, e))
  {
    if s.awaitingReply.Off? {
      if e.TtsDone? {
      } else if e.toolCallOnly {
      } else {
      }
    }
  }

  lemma DoneLawful(cfg: Config, s: State, e: Event)
    requires EndFrame(e)
    ensures Lawful(cfg, s, e, Step(cfg, s, e))
  {
    DoneConv(cfg, s, e);
    DoneQueue(cfg, s, e);
    DoneMute(cfg, s, e);
    DoneOutput(cfg, s, e);
    DoneTask(cfg, s, e);
    DoneReply(cfg, s, e);
    DoneEos(cfg, s, e);
    DoneWait(cfg, s, e);
    DoneStandby(cfg, s, e);
    DoneDetector(cfg, s, e);
  }

  // A chunk the client detector judges.

  lemma ChunkConv(cfg: Config, s: State, e: Event)
    requires e.VadChunk?
    ensures ConvLaw(cfg, s, e, Step(cfg, s, e))
  {
  }

  lemma ChunkQueue(cfg: Config, s: State, e: Event)
    requires e.VadChunk?
    ensures QueueLaw(cfg, s, e, Step(cfg, s, e))
  {
  }

  lemma ChunkMute(cfg: Config, s: State, e: Event)
    requires e.VadChunk?
    ensures MuteLaw(cfg, s, e, Step(cfg, s, e))
  {
  }

  lemma ChunkOutput(cfg: Config, s: State, e: Event)
    requires e.VadChunk?
    ensures OutputLaw(cfg, s, e, Step(cfg, s, e))
  {
  }

  lemma ChunkTask(cfg: Config, s: State, e: Event)
    requires e.VadChunk?
    ensures TaskLaw(cfg, s, e, Step(cfg, s, e))
  {
  }

  lemma ChunkReply(cfg: Config, s: State, e: Event)
    requires e.VadChunk?
    ensures ReplyLaw(cfg, s, e, Step(cfg, s, e))
  {
    if Onset(cfg, s, e) {
    } else if Pause(cfg, s, e) {
    }
  }

  lemma ChunkEos(cfg: Config, s: State, e: Event)
    requires e.VadChunk?
    ensures EosLaw(cfg, s, e, Step(cfg, s, e))
  {
  }

  lemma ChunkWait(cfg: Config, s: State, e: Event)
    requires e.VadChunk?
    ensures WaitLaw(cfg, s, e, Step(cfg, s, e))
  {
  }

  lemma ChunkStandby(cfg: Config, s: State, e: Event)
    requires e.VadChunk?
    ensures StandbyLaw(cfg, s, e, Step(cfg, s, e))
  {
  }

  lemma ChunkDetector(cfg: Config, s: State, e: Event)
    requires e.VadChunk?
    ensures DetectorLaw(cfg, s, e, Step(cfg, s, e))
  {
  }

  lemma ChunkLawful(cfg: Config, s: State, e: Event)
    requires e.VadChunk?
    ensures Lawful(cfg, s, e, Step(cfg, s, e))
  {
    ChunkConv(cfg, s, e);
    ChunkQueue(cfg, s, e);
    ChunkMute(cfg, s, e);
    ChunkOutput(cfg, s, e);
    ChunkTask(cfg, s, e);
    ChunkReply(cfg, s, e);
    ChunkEos(cfg, s, e);
    ChunkWait(cfg, s, e);
    ChunkStandby(cfg, s, e);
    ChunkDetector(cfg, s, e);
  }

  // Anything else from the room.

  lemma RoomConv(cfg: Config, s: State, e: Event)
    requires FromTheRoom(e) && !e.VadChunk?
    ensures ConvLaw(cfg, s, e, Step(cfg, s, e))
  {
  }

  lemma RoomQueue(cfg: Config, s: State, e: Event)
    requires FromTheRoom(e) && !e.VadChunk?
    ensures QueueLaw(cfg, s, e, Step(cfg, s, e))
  {
  }

  lemma RoomMute(cfg: Config, s: State, e: Event)
    requires FromTheRoom(e) && !e.VadChunk?
    ensures MuteLaw(cfg, s, e, Step(cfg, s, e))
  {
  }

  lemma RoomOutput(cfg: Config, s: State, e: Event)
    requires FromTheRoom(e) && !e.VadChunk?
    ensures OutputLaw(cfg, s, e, Step(cfg, s, e))
  {
  }

  lemma RoomTask(cfg: Config, s: State, e: Event)
    requires FromTheRoom(e) && !e.VadChunk?
    ensures TaskLaw(cfg, s, e, Step(cfg, s, e))
  {
  }

  lemma RoomReply(cfg: Config, s: State, e: Event)
    requires FromTheRoom(e) && !e.VadChunk?
    ensures ReplyLaw(cfg, s, e, Step(cfg, s, e))
  {
  }

  lemma RoomEos(cfg: Config, s: State, e: Event)
    requires FromTheRoom(e) && !e.VadChunk?
    ensures EosLaw(cfg, s, e, Step(cfg, s, e))
  {
  }

  lemma RoomWait(cfg: Config, s: State, e: Event)
    requires FromTheRoom(e) && !e.VadChunk?
    ensures WaitLaw(cfg, s, e, Step(cfg, s, e))
  {
  }

  lemma RoomStandby(cfg: Config, s: State, e: Event)
    requires FromTheRoom(e) && !e.VadChunk?
    ensures StandbyLaw(cfg, s, e, Step(cfg, s, e))
  {
  }

  lemma RoomDetector(cfg: Config, s: State, e: Event)
    requires FromTheRoom(e) && !e.VadChunk?
    ensures DetectorLaw(cfg, s, e, Step(cfg, s, e))
  {
  }

  lemma RoomLawful(cfg: Config, s: State, e: Event)
    requires FromTheRoom(e) && !e.VadChunk?
    ensures Lawful(cfg, s, e, Step(cfg, s, e))
  {
    RoomConv(cfg, s, e);
    RoomQueue(cfg, s, e);
    RoomMute(cfg, s, e);
    RoomOutput(cfg, s, e);
    RoomTask(cfg, s, e);
    RoomReply(cfg, s, e);
    RoomEos(cfg, s, e);
    RoomWait(cfg, s, e);
    RoomStandby(cfg, s, e);
    RoomDetector(cfg, s, e);
  }

  // A timer.

  lemma ClockConv(cfg: Config, s: State, e: Event)
    requires Clock(e)
    ensures ConvLaw(cfg, s, e, Step(cfg, s, e))
  {
    if Drained(s, e) {
    } else if e.BargeTimeout? {
    }
  }

  lemma ClockQueue(cfg: Config, s: State, e: Event)
    requires Clock(e)
    ensures QueueLaw(cfg, s, e, Step(cfg, s, e))
  {
    if Drained(s, e) {
    } else if e.BargeTimeout? {
    }
  }

  lemma ClockMute(cfg: Config, s: State, e: Event)
    requires Clock(e)
    ensures MuteLaw(cfg, s, e, Step(cfg, s, e))
  {
    if Drained(s, e) {
    } else if e.BargeTimeout? {
    }
  }

  lemma ClockOutput(cfg: Config, s: State, e: Event)
    requires Clock(e)
    ensures OutputLaw(cfg, s, e, Step(cfg, s, e))
  {
    if Drained(s, e) {
    } else if e.BargeTimeout? {
    }
  }

  lemma ClockTask(cfg: Config, s: State, e: Event)
    requires Clock(e)
    ensures TaskLaw(cfg, s, e, Step(cfg, s, e))
  {
    if Drained(s, e) {
    } else if e.BargeTimeout? {
    }
  }

  lemma ClockReply(cfg: Config, s: State, e: Event)
    requires Clock(e)
    ensures ReplyLaw(cfg, s, e, Step(cfg, s, e))
  {
    if Drained(s, e) {
    } else if e.BargeTimeout? {
    }
  }

  lemma ClockEos(cfg: Config, s: State, e: Event)
    requires Clock(e)
    ensures EosLaw(cfg, s, e, Step(cfg, s, e))
  {
    if Drained(s, e) {
    } else if e.BargeTimeout? {
    }
  }

  lemma ClockWait(cfg: Config, s: State, e: Event)
    requires Clock(e)
    ensures WaitLaw(cfg, s, e, Step(cfg, s, e))
  {
    if Drained(s, e) {
    } else if e.BargeTimeout? {
    }
  }

  lemma ClockStandby(cfg: Config, s: State, e: Event)
    requires Clock(e)
    ensures StandbyLaw(cfg, s, e, Step(cfg, s, e))
  {
    if Drained(s, e) {
    } else if e.BargeTimeout? {
    }
  }

  lemma ClockDetector(cfg: Config, s: State, e: Event)
    requires Clock(e)
    ensures DetectorLaw(cfg, s, e, Step(cfg, s, e))
  {
    if Drained(s, e) {
    } else if e.BargeTimeout? {
    }
  }

  lemma ClockLawful(cfg: Config, s: State, e: Event)
    requires Clock(e)
    ensures Lawful(cfg, s, e, Step(cfg, s, e))
  {
    ClockConv(cfg, s, e);
    ClockQueue(cfg, s, e);
    ClockMute(cfg, s, e);
    ClockOutput(cfg, s, e);
    ClockTask(cfg, s, e);
    ClockReply(cfg, s, e);
    ClockEos(cfg, s, e);
    ClockWait(cfg, s, e);
    ClockStandby(cfg, s, e);
    ClockDetector(cfg, s, e);
  }

  // The transport, the language model and the user.

  lemma InnerConv(cfg: Config, s: State, e: Event)
    requires Inner(e)
    ensures ConvLaw(cfg, s, e, Step(cfg, s, e))
  {
  }

  lemma InnerQueue(cfg: Config, s: State, e: Event)
    requires Inner(e)
    ensures QueueLaw(cfg, s, e, Step(cfg, s, e))
  {
  }

  lemma InnerMute(cfg: Config, s: State, e: Event)
    requires Inner(e)
    ensures MuteLaw(cfg, s, e, Step(cfg, s, e))
  {
  }

  lemma InnerOutput(cfg: Config, s: State, e: Event)
    requires Inner(e)
    ensures OutputLaw(cfg, s, e, Step(cfg, s, e))
  {
  }

  lemma InnerTask(cfg: Config, s: State, e: Event)
    requires Inner(e)
    ensures TaskLaw(cfg, s, e, Step(cfg, s, e))
  {
  }

  lemma InnerReply(cfg: Config, s: State, e: Event)
    requires Inner(e)
    ensures ReplyLaw(cfg, s, e, Step(cfg, s, e))
  {
  }

  lemma InnerEos(cfg: Config, s: State, e: Event)
    requires Inner(e)
    ensures EosLaw(cfg, s, e, Step(cfg, s, e))
  {
  }

  lemma InnerWait(cfg: Config, s: State, e: Event)
    requires Inner(e)
    ensures WaitLaw(cfg, s, e, Step(cfg, s, e))
  {
  }

  lemma InnerStandby(cfg: Config, s: State, e: Event)
    requires Inner(e)
    ensures StandbyLaw(cfg, s, e, Step(cfg, s, e))
  {
  }

  lemma InnerDetector(cfg: Config, s: State, e: Event)
    requires Inner(e)
    ensures DetectorLaw(cfg, s, e, Step(cfg, s, e))
  {
  }

  lemma InnerLawful(cfg: Config, s: State, e: Event)
    requires Inner(e)
    ensures Lawful(cfg, s, e, Step(cfg, s, e))
  {
    InnerConv(cfg, s, e);
    InnerQueue(cfg, s, e);
    InnerMute(cfg, s, e);
    InnerOutput(cfg, s, e);
    InnerTask(cfg, s, e);
    InnerReply(cfg, s, e);
    InnerEos(cfg, s, e);
    InnerWait(cfg, s, e);
    InnerStandby(cfg, s, e);
    InnerDetector(cfg, s, e);
  }

  // Every step has exactly these effects.
  lemma StepLawful(cfg: Config, s: State, e: Event)
    ensures Lawful(cfg, s, e, Step(cfg, s, e))
  {
    FinalMeans(cfg, s, e);
    if Routes(cfg, s, e) {
      RoutedLawful(cfg, s, e);
    } else if e.Final? {
      QuietLawful(cfg, s, e);
    } else if EndFrame(e) {
      DoneLawful(cfg, s, e);
    } else if ReplyEvent(e) {
      FrameLawful(cfg, s, e);
    } else if e.VadChunk? {
      ChunkLawful(cfg, s, e);
    } else if FromTheRoom(e) {
      RoomLawful(cfg, s, e);
    } else if Clock(e) {
      ClockLawful(cfg, s, e);
    } else {
      InnerLawful(cfg, s, e);
    }
  }

  // ... and nothing else has them: the laws decide the next state.
  lemma LawsDecide(cfg: Config, s: State, e: Event, t: State)
    ensures Lawful(cfg, s, e, t) <==> t == Step(cfg, s, e)
  {
    StepLawful(cfg, s, e);
    if Lawful(cfg, s, e, t) {
      LawfulOnce(cfg, s, e, t, Step(cfg, s, e));
    }
  }

  lemma LawfulOnce(cfg: Config, s: State, e: Event, t: State, u: State)
    requires Lawful(cfg, s, e, t) && Lawful(cfg, s, e, u)
    ensures t == u
  {
  }
}
