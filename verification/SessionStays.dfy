/** A stay in which the call waits for a probe may have none of its own, and may be decided by the
    verdict on an earlier one. */
module SessionStays {
  import opened Prelude
  import opened CallFsm
  import opened Session
  import opened SessionRuns
  import opened SessionPace
  import opened SessionFeeds

  /** Threaded jobs, one frame for everything, and no cooldown between probes. */
  const EAGER := SessionConfig(
    FsmConfig(1, 1, 1, 1, 1, 1, 1, 10.0, 1, 6, 2, 1, 0.0, 0.5), 0.5, 0.0, 96000, 1500, false)

  function Hears(sound: Label, arrived: bool): TickInput { TickInput(sound, 1.0, arrived, Value("", true), Started) }

  /** After n half seconds, in a state, with a probe running or nothing. */
  predicate At(s: Session, n: nat, state: CallState, probing: bool) {
    && s.samples == 4000 * n && s.next == 0.5 * (n + 1) as real
    && !s.finished && s.wakeDue.None? && s.fsm.state == state && s.fsm.refractoryUntil <= s.next
    && (if probing then s.kind == Some(ProbeJob) && s.slot == Running(ProbeJob) else s.kind.None? && s.slot.Empty?)
  }

  function Then(s: Session, sound: Label, arrived: bool): Session {
    Next(EAGER, s, Feed(HalfASecond(), Always(Hears(sound, arrived))))
  }

  lemma HoldMusicFirst()
    ensures At(Next(EAGER, OPENED, Feed([], Always(Hears(HoldMusic, false)))), 0, OnHold, false)
  {
    var inp := Hears(HoldMusic, false);
    ShortFeed(EAGER, OPENED, [], inp);
    QuietTick(EAGER, Received(EAGER, OPENED, []), 0.0, inp);
  }

  lemma SpeechStartsAProbe(s: Session)
    requires At(s, 0, OnHold, false)
    ensures At(Then(s, LiveSpeechCandidate, false), 1, EvaluatingSpeech, true)
  {
    var inp := Hears(LiveSpeechCandidate, false);
    var s0 := Received(EAGER, s, HalfASecond());
    ShortFeed(EAGER, s, HalfASecond(), inp);
    var (fsm, asks) := Observed(EAGER.fsm, s0.fsm, inp.sound, inp.confidence, 0.5);
    var s1 := Classified(EAGER, s0, fsm, 0.5, inp);
    assert asks.WakeTier2Probe?;
    var s2 := JobStarted(EAGER, s1, ProbeJob, 0.5, inp.outcome);
    assert Ticked(EAGER, s0, 0.5, inp) == s2;
  }

  lemma SilenceGivesItUp(s: Session)
    requires At(s, 1, EvaluatingSpeech, true)
    ensures At(Then(s, Silence, false), 2, OnHold, true)
  {
    var inp := Hears(Silence, false);
    ShortFeed(EAGER, s, HalfASecond(), inp);
    QuietTick(EAGER, Received(EAGER, s, HalfASecond()), 1.0, inp);
  }

  /** Speech again: the wake is dropped, and the first probe's verdict ends the new stay. */
  lemma OldVerdictEndsTheStay(s: Session)
    requires At(s, 2, OnHold, true) && Paced(EAGER, s, NoAction, s.next)
    ensures var r := Then(s, LiveSpeechCandidate, true);
            r.log.After? && r.log.note == CallCompleted(1.5) && !ProbedStay(r.log)
  {
    var inp := Hears(LiveSpeechCandidate, true);
    var s0 := Received(EAGER, s, HalfASecond());
    ShortFeed(EAGER, s, HalfASecond(), inp);
    var (fsm, asks) := Observed(EAGER.fsm, s0.fsm, inp.sound, inp.confidence, 1.5);
    var s1 := Classified(EAGER, s0, fsm, 1.5, inp);
    assert asks.WakeTier2Probe? && fsm.state.EvaluatingSpeech?;
    assert Ticked(EAGER, s0, 1.5, inp) == Polled(EAGER, s1, 1.5, inp) ==
           ProbeApplied(EAGER, Emptied(s1, ProbeJob), true, 1.5, inp);
    LaterIsFine(EAGER, s, s0, 1.5, 1.5);
    StayIsProbedExactlyWhenFree(EAGER, s0, 1.5, inp);
  }

  /** Reached, and on pace. */
  ghost predicate On(all: iset<Session>, s: Session) { s in all && Paced(EAGER, s, NoAction, s.next) }

  lemma FirstQueue(all: iset<Session>) returns (s: Session)
    requires Closed(EAGER, all) && OPENED in all
    ensures On(all, s) && At(s, 0, OnHold, false)
  {
    var e := Feed([], Always(Hears(HoldMusic, false)));
    HoldMusicFirst();
    EveryRunIsPaced(EAGER, []);
    NextPaces(EAGER, OPENED, e);
    s := Next(EAGER, OPENED, e);
  }

  lemma OneMore(all: iset<Session>, s: Session, sound: Label, arrived: bool)
    requires Closed(EAGER, all) && On(all, s)
    ensures On(all, Then(s, sound, arrived))
  {
    NextPaces(EAGER, s, Feed(HalfASecond(), Always(Hears(sound, arrived))));
  }

  lemma SecondQueue(all: iset<Session>, s: Session) returns (r: Session)
    requires Closed(EAGER, all) && On(all, s) && At(s, 0, OnHold, false)
    ensures On(all, r) && At(r, 2, OnHold, true)
  {
    SpeechStartsAProbe(s);
    OneMore(all, s, LiveSpeechCandidate, false);
    r := Then(s, LiveSpeechCandidate, false);
    SilenceGivesItUp(r);
    OneMore(all, r, Silence, false);
    r := Then(r, Silence, false);
  }

  lemma Handover(all: iset<Session>) returns (s: Session)
    requires Closed(EAGER, all) && OPENED in all
    ensures s in all && s.log.After? && s.log.note == CallCompleted(1.5) && !ProbedStay(s.log)
  {
    s := FirstQueue(all);
    s := SecondQueue(all, s);
    OldVerdictEndsTheStay(s);
    OneMore(all, s, LiveSpeechCandidate, true);
    s := Then(s, LiveSpeechCandidate, true);
  }

  /** A run that completes on the verdict of a probe from an earlier stay: the stay that ends in the
      handoff never had one of its own. */
  lemma OldProbeDecides()
    ensures exists es :: EndOf(Played(EAGER, es).log).completed == 1 && !ProbedStay(Played(EAGER, es).log)
  {
    ReachedIsClosed(EAGER);
    var s := Handover(Reached(EAGER));
    assert EndOf(s.log).completed > 0;
    var es :| Played(EAGER, es) == s;
    OneEnding(EAGER, es);
    assert EndOf(Played(EAGER, es).log).completed == 1 && !ProbedStay(Played(EAGER, es).log);
  }
}
