// A new turn silences the old reply by muting playback. Over every run, the
// mute never outlasts the old reply: whoever the language model is answering
// will be heard. Proved from the laws of Effects.
module Muting {
  import opened Prelude
  import opened Conversation
  import opened TurnSafety
  import opened Effects
  import opened EffectSteps
  import A = AudioIo

  // A model turn is muted only while the reply it replaces is awaited; and
  // while that is so, no reply has begun.
  predicate Audible(s: State) {
    && (s.llmTurn.On? && s.audio.discard.On? ==> s.awaitingReply.On?)
    && (s.awaitingReply.On? ==> s.conv != Speaking && s.conv != BargedIn && s.firstTts.Off?)
    && (s.conv == BargedIn ==> s.firstTts.Off?)
  }

  lemma CompletedKeepsAudible(cfg: Config, s: State, e: Event, t: State)
    requires Audible(s) && Completed(cfg, s, e) && Lawful(cfg, s, e, t)
    ensures Audible(t)
  {
  }

  lemma OthersKeepAudible(cfg: Config, s: State, e: Event, t: State)
    requires Audible(s) && !Completed(cfg, s, e)
    requires ConvLaw(cfg, s, e, t) && MuteLaw(cfg, s, e, t) && TaskLaw(cfg, s, e, t) && ReplyLaw(cfg, s, e, t)
    ensures Audible(t)
  {
  }

  lemma StepKeepsAudible(cfg: Config, s: State, e: Event)
    requires Audible(s)
    ensures Audible(Step(cfg, s, e))
  {
    var t := Step(cfg, s, e);
    LawsDecide(cfg, s, e, t);
    if Completed(cfg, s, e) {
      CompletedKeepsAudible(cfg, s, e, t);
    } else {
      OthersKeepAudible(cfg, s, e, t);
    }
  }

  lemma {:induction false} ModelTurnNeverMuted(cfg: Config, events: seq<Event>)
    ensures Audible(Reached(cfg, events))
  {
    if events != [] {
      ModelTurnNeverMuted(cfg, Before(events));
      StepKeepsAudible(cfg, Reached(cfg, Before(events)), Last(events));
    }
  }

  // ── the new reply is heard ───────────────────────────────────────

  // Nothing stands between a reply frame and the loudspeaker.
  predicate Open(s: State) {
    s.awaitingReply.Off? && s.dropSentence.Off? && s.audio.discard.Off? && s.conv != BargedIn
  }

  function Frames(pcms: seq<seq<Byte>>): seq<Event> {
    if pcms == [] then [] else Frames(pcms[..|pcms| - 1]) + [TtsAudio(pcms[|pcms| - 1])]
  }

  function Sound(pcms: seq<seq<Byte>>): seq<Byte> {
    if pcms == [] then [] else Sound(pcms[..|pcms| - 1]) + pcms[|pcms| - 1]
  }

  lemma RunOneMore(cfg: Config, s: State, events: seq<Event>, e: Event)
    ensures Run(cfg, s, events + [e]) == Step(cfg, Run(cfg, s, events), e)
  {
    assert Before(events + [e]) == events;
  }

  lemma FrameIsQueued(cfg: Config, s: State, pcm: seq<Byte>)
    requires Open(s)
    ensures var t := Step(cfg, s, TtsAudio(pcm));
            Open(t) && t.audio.buffer == s.audio.buffer + pcm &&
            t.conv == (if s.firstTts.Off? then Speaking else s.conv) && t.firstTts.On?
  {
  }

  lemma {:induction false} FramesAreQueued(cfg: Config, s: State, pcms: seq<seq<Byte>>)
    requires Open(s)
    ensures var t := Run(cfg, s, Frames(pcms));
            Open(t) && t.audio.buffer == s.audio.buffer + Sound(pcms) &&
            (pcms != [] && s.firstTts.Off? ==> t.conv == Speaking) && (pcms == [] ==> t == s) &&
            (pcms != [] ==> t.firstTts.On?)
  {
    if pcms != [] {
      var init, pcm := pcms[..|pcms| - 1], pcms[|pcms| - 1];
      FramesAreQueued(cfg, s, init);
      RunOneMore(cfg, s, Frames(init), TtsAudio(pcm));
      FrameIsQueued(cfg, Run(cfg, s, Frames(init)), pcm);
      ConcatAssoc(s.audio.buffer, Sound(init), pcm);
    }
  }

  // Sending the new reply's text opens the way for its frames.
  lemma TextOpens(cfg: Config, s: State)
    requires Audible(s) && (s.llmTurn.On? || s.awaitingReply.On?) && s.conv != BargedIn
    ensures var t := Step(cfg, Step(cfg, s, ReplyTextSent), TtsStarted(false));
            Open(t) && t.audio == Step(cfg, s, ReplyTextSent).audio && t.audio.buffer == s.audio.buffer &&
            t.firstTts == s.firstTts
  {
  }

  // Whatever happened before: once the answer's text is sent, every byte of its
  // frames is queued, behind whatever else is playing; and after a superseded
  // reply the first frame of the new one is what makes the agent speak.
  lemma NewReplyIsHeard(cfg: Config, history: seq<Event>, pcms: seq<seq<Byte>>)
    requires var s := Reached(cfg, history); (s.llmTurn.On? || s.awaitingReply.On?) && s.conv != BargedIn
    ensures var s := Reached(cfg, history);
            var t := Run(cfg, Step(cfg, Step(cfg, s, ReplyTextSent), TtsStarted(false)), Frames(pcms));
            t.audio.buffer == s.audio.buffer + Sound(pcms) &&
            (pcms != [] && s.awaitingReply.On? ==> t.conv == Speaking)
  {
    var s := Reached(cfg, history);
    ModelTurnNeverMuted(cfg, history);
    TextOpens(cfg, s);
    FramesAreQueued(cfg, Step(cfg, Step(cfg, s, ReplyTextSent), TtsStarted(false)), pcms);
  }
}
