// Outside the always-on mode an idle agent goes back to sleep by itself, if the
// countdown is running. Proved from the laws of Effects.
module Standby {
  import opened Prelude
  import opened Conversation
  import opened TurnSafety
  import opened Effects
  import opened EffectSteps
  import A = AudioIo

  // An idle agent is counting down to sleep.
  predicate Resting(cfg: Config, s: State) {
    !cfg.alwaysOn && s.conv == Idle ==> s.sleepTimer.On?
  }

  // The countdown has run out during a turn, and the turn ends in a branch that
  // does not start it again.
  predicate StaysUp(cfg: Config, s: State, e: Event) {
    && !cfg.alwaysOn && s.sleepTimer.Off?
    && (|| (e.SlvError? && s.conv != Sleeping)
        || (e.Reconnected? && (s.conv == Thinking || s.conv == BargedIn))
        || Unanswered(s, e)
        || (Completed(cfg, s, e) && s.conv == BargedIn && OutcomeOf(cfg, Words(s, e), e.spoken) == Farewells))
  }

  lemma StandbyLostExactly(cfg: Config, s: State, e: Event)
    requires Resting(cfg, s)
    ensures !Resting(cfg, Step(cfg, s, e)) <==> StaysUp(cfg, s, e)
  {
    var t := Step(cfg, s, e);
    LawsDecide(cfg, s, e, t);
    if Completed(cfg, s, e) {
      CompletedStandby(cfg, s, e, t);
    } else {
      OtherStandby(cfg, s, e, t);
    }
  }

  lemma CompletedStandby(cfg: Config, s: State, e: Event, t: State)
    requires Resting(cfg, s) && Completed(cfg, s, e) && Lawful(cfg, s, e, t)
    ensures !Resting(cfg, t) <==> StaysUp(cfg, s, e)
  {
  }

  lemma OtherStandby(cfg: Config, s: State, e: Event, t: State)
    requires Resting(cfg, s) && !Completed(cfg, s, e)
    requires ConvLaw(cfg, s, e, t) && StandbyLaw(cfg, s, e, t)
    ensures !Resting(cfg, t) <==> StaysUp(cfg, s, e)
  {
  }

  // No step of the run keeps the agent up.
  predicate Rests(cfg: Config, events: seq<Event>)
    decreases |events|
  {
    events == [] ||
    (Rests(cfg, Before(events)) && !StaysUp(cfg, Reached(cfg, Before(events)), Last(events)))
  }

  // Then the agent, whenever it is idle, is on its way to sleep.
  lemma {:induction false} IdleAgentSleeps(cfg: Config, events: seq<Event>)
    requires !cfg.alwaysOn && Rests(cfg, events)
    ensures var s := Reached(cfg, events);
            s.conv == Idle ==> s.sleepTimer.On? && Step(cfg, s, SleepTimeout).conv == Sleeping
  {
    if events != [] {
      IdleAgentSleeps(cfg, Before(events));
      StandbyLostExactly(cfg, Reached(cfg, Before(events)), Last(events));
    }
  }

  // The countdown runs out while the recogniser owes a final that never comes:
  // the agent is idle with no timer at all, and awake until somebody speaks.
  lemma StaysUpExample(cfg: Config)
    requires !cfg.alwaysOn && GateEos(cfg)
    ensures var s := Reached(cfg, [Wake(true, None), GateClosed, SleepTimeout, AsrTimeout]);
            s.conv == Idle && s.sleepTimer.Off? && s.stallTimer.Off? && !Rescued(s)
  {
    ReachedByFour(cfg, Wake(true, None), GateClosed, SleepTimeout, AsrTimeout);
  }
}
