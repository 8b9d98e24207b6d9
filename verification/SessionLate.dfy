/** What still happens in the tick that fails a call: with threaded jobs the tick polls the job in
    flight all the same. */
module SessionLate {
  import opened Prelude
  import opened CallFsm
  import opened Session
  import opened SessionRuns
  import opened SessionFeeds

  // ---- keys pressed after the end ----

  /** Keypresses reported after the call had ended. */
  function LateKeys(log: Log): nat {
    match log
    case Start => 0
    case After(before, DtmfSent(_, _)) =>
      LateKeys(before) + if EndOf(before).completed + EndOf(before).failed > 0 then 1 else 0
    case After(before, _) => LateKeys(before)
  }

  lemma NoKey(s: Session, n: Note)
    requires !n.DtmfSent?
    ensures LateKeys(Emitted(s, n).log) == LateKeys(s.log)
  {
  }

  lemma ChangeIsNoKey(s: Session, before: CallState, now: real)
    ensures LateKeys(ChangeEmitted(s, before, now).log) == LateKeys(s.log)
  {
  }

  lemma FailingIsNoKey(s: Session, now: real, reason: string)
    ensures LateKeys(FailedWith(s, now, reason).log) == LateKeys(s.log)
  {
    NoKey(s, CallFailed(now, reason));
    NoKey(Emitted(s, CallFailed(now, reason)).(finished := true), HookFail(reason));
  }

  lemma StartingIsNoKey(cfg: SessionConfig, s: Session, kind: Kind, now: real, outcome: Outcome)
    ensures LateKeys(JobStarted(cfg, s, kind, now, outcome).log) == LateKeys(s.log)
  {
    NoKey(s, Tier2Woken(now, kind));
    NoKey(Emitted(s, Tier2Woken(now, kind)).(kind := Some(kind)), JobDropped);
  }

  lemma HandoffIsNoKey(s: Session, now: real, handoff: Handoff)
    ensures LateKeys(BridgedOver(s, now, handoff).log) == LateKeys(s.log)
  {
    var s1 := Emitted(Emitted(s, HumanWasDetected(now)), HookBridge(handoff));
    NoKey(s, HumanWasDetected(now));
    NoKey(Emitted(s, HumanWasDetected(now)), HookBridge(handoff));
    if handoff.Started? {
      var t := s1.(fsm := BridgeNoted(s1.fsm));
      var s2 := ChangeEmitted(t, s1.fsm.state, now);
      var s3 := Emitted(s2, BridgeStarted(now));
      var u := s3.(fsm := s3.fsm.(state := Done));
      ChangeIsNoKey(t, s1.fsm.state, now);
      NoKey(s2, BridgeStarted(now));
      ChangeIsNoKey(u, s3.fsm.state, now);
      NoKey(ChangeEmitted(u, s3.fsm.state, now), CallCompleted(now));
    } else {
      FailingIsNoKey(s1, now, if handoff.Impossible? then handoff.reason else "handoff_error");
    }
  }

  lemma DispatchIsNoKey(cfg: SessionConfig, s: Session, asks: Action, now: real, inp: TickInput)
    ensures LateKeys(Dispatched(cfg, s, asks, now, inp).log) == LateKeys(s.log)
  {
    match asks
    case WakeTier2Probe => StartingIsNoKey(cfg, s, ProbeJob, now, inp.outcome);
    case Bridge => HandoffIsNoKey(s, now, inp.handoff);
    case Fail => FailingIsNoKey(s, now, "non_connect");
    case _ =>
  }

  lemma ProbeIsNoKey(cfg: SessionConfig, s: Session, isHuman: bool, now: real, inp: TickInput)
    ensures LateKeys(ProbeApplied(cfg, s, isHuman, now, inp).log) == LateKeys(s.log)
  {
    var s1 := Emitted(s, ProbeResult(now, isHuman));
    var (fsm, asks) := ProbeAnswered(cfg.fsm, s1.fsm, isHuman, now);
    var s2 := ChangeEmitted(s1.(fsm := fsm), s1.fsm.state, now);
    NoKey(s, ProbeResult(now, isHuman));
    ChangeIsNoKey(s1.(fsm := fsm), s1.fsm.state, now);
    DispatchIsNoKey(cfg, s2, asks, now, inp);
  }

  /** An answer reports a late key exactly when it is a menu's, with digits, and the call is over. */
  lemma AnswerLateKeys(cfg: SessionConfig, s: Session, now: real, inp: TickInput)
    requires Mid(cfg, s, NoAction)
    ensures LateKeys(Polled(cfg, s, now, inp).log) == LateKeys(s.log) +
            if s.finished && s.kind == Some(MenuJob) && inp.arrived && inp.outcome.Value?
                && inp.outcome.digits != "" then 1 else 0
  {
    var slot := Polling(s.slot, inp);
    if s.kind.Some? && slot.Ready? {
      var k := s.kind.value;
      var s1 := Emptied(s, k);
      EmptiedKeeps(cfg, s);
      NoKey(s.(slot := Empty, kind := None), JobAnswered(k, k));
      match slot.outcome {
        case Raised(error) =>
          if FatalReason(k, error).Some? { FailingIsNoKey(s1, now, FatalReason(k, error).value); }
        case Value(digits, isHuman) =>
          if k.MenuJob? {
            NoKey(s1, MenuAbstained);
            assert LateKeys(Emitted(s1, DtmfSent(now, digits)).log) == LateKeys(s1.log) + if s.finished then 1 else 0;
          } else {
            ProbeIsNoKey(cfg, s1, isHuman, now, inp);
          }
      }
    }
  }

  /** A tick reports a key after its failure exactly when its frames fail the call and, in the same
      tick, the answer of a menu job arrives with digits. Never with inline jobs, which are
      answered in the tick that starts them. */
  lemma KeyAfterFailure(cfg: SessionConfig, s: Session, now: real, inp: TickInput)
    requires s in Settled(cfg) && !s.finished
    ensures LateKeys(Ticked(cfg, s, now, inp).log) == LateKeys(s.log) +
            if && Observed(cfg.fsm, s.fsm, inp.sound, inp.confidence, now).1.Fail?
               && s.kind == Some(MenuJob) && inp.arrived && inp.outcome.Value? && inp.outcome.digits != ""
            then 1 else 0
  {
    var (fsm, asks) := Observed(cfg.fsm, s.fsm, inp.sound, inp.confidence, now);
    var frame := Emitted(s, FrameClassified(LookAt(cfg, s, now, inp)));
    var s1 := Classified(cfg, s, fsm, now, inp);
    var s2 := Dispatched(cfg, s1, asks, now, inp);
    var s3 := WakeFired(cfg, s2, now, inp);
    ClassifiedKeeps(cfg, s, fsm, asks, now, inp);
    DispatchedKeeps(cfg, s1, asks, now, inp);
    WakeKeeps(cfg, s2, asks, now, inp);
    AnswerLateKeys(cfg, s3, now, inp);
    NoKey(s, FrameClassified(LookAt(cfg, s, now, inp)));
    ChangeIsNoKey(frame.(fsm := fsm), s.fsm.state, now);
    DispatchIsNoKey(cfg, s1, asks, now, inp);
    StartingIsNoKey(cfg, s2.(wakeDue := None), MenuJob, now, inp.outcome);
  }

  // ---- both happen ----

  /** Threaded jobs, one frame for everything, and no collecting: a menu heard at once. */
  const HASTY := SessionConfig(
    FsmConfig(1, 1, 1, 1, 1, 1, 1, 10.0, 1, 6, 2, 1, 8.0, 0.5), 0.5, 0.0, 96000, 1500, false)

  const MENU_HEARD := TickInput(MenuSpeaking, 1.0, false, Value("", false), Started)

  /** After one tick, with a menu job running. */
  predicate MenuJobRunning(s: Session) {
    && s.samples == 0 && s.next == 0.5 && !s.finished && s.wakeDue.None?
    && s.kind == Some(MenuJob) && s.slot == Running(MenuJob) && s.fsm.state.IvrMenu? && LateKeys(s.log) == 0
  }

  lemma MenuJobRuns()
    ensures MenuJobRunning(Next(HASTY, OPENED, Feed([], Always(MENU_HEARD))))
  {
    assert Received(HASTY, OPENED, []) == OPENED;
    ShortFeed(HASTY, OPENED, [], MENU_HEARD);
    var fsm := Entered(FRESH, IvrMenu).(menuWoken := true);
    assert Observed(HASTY.fsm, FRESH, MenuSpeaking, 1.0, 0.0) == (fsm, WakeTier2Menu);
    var s1 := Classified(HASTY, OPENED, fsm, 0.0, MENU_HEARD);
    var s2 := WakeFired(HASTY, Dispatched(HASTY, s1, WakeTier2Menu, 0.0, MENU_HEARD), 0.0, MENU_HEARD);
    assert s2 == JobStarted(HASTY, s1, MenuJob, 0.0, MENU_HEARD.outcome);
    assert Ticked(HASTY, OPENED, 0.0, MENU_HEARD) == Polled(HASTY, s2, 0.0, MENU_HEARD) == s2;
  }

  /** The frame says voicemail, and the menu's answer arrives in the same tick. */
  function Voice(outcome: Outcome): TickInput { TickInput(Voicemail, 1.0, true, outcome, Started) }

  function Then(s: Session, outcome: Outcome): Session {
    Next(HASTY, s, Feed(HalfASecond(), Always(Voice(outcome))))
  }

  lemma VoicemailTick(s: Session, outcome: Outcome)
    requires s in Settled(HASTY) && MenuJobRunning(s)
    ensures (EndOf(Then(s, outcome).log).failed == 2) ==
            (outcome.Raised? && outcome.error in {NotImplemented, CircuitOpen})
    ensures LateKeys(Then(s, outcome).log) == if outcome.Value? && outcome.digits != "" then 1 else 0
  {
    var s0 := Received(HASTY, s, HalfASecond());
    AudioSideIsFree(HASTY, s, s0.samples, s0.next, s0.data);
    ShortFeed(HASTY, s, HalfASecond(), Voice(outcome));
    assert Observed(HASTY.fsm, s0.fsm, Voicemail, 1.0, 0.5).1.Fail?;
    TwoFailuresInOneTick(HASTY, s0, 0.5, Voice(outcome));
    KeyAfterFailure(HASTY, s0, 0.5, Voice(outcome));
  }

  lemma FirstIsSettled()
    ensures Next(HASTY, OPENED, Feed([], Always(MENU_HEARD))) in Settled(HASTY)
  {
    RunKeeps(HASTY, []);
    StepKeeps(HASTY, OPENED, Feed([], Always(MENU_HEARD)));
  }

  lemma FirstTick(all: iset<Session>) returns (s: Session)
    requires Closed(HASTY, all) && OPENED in all
    ensures s in all && s in Settled(HASTY) && MenuJobRunning(s)
  {
    MenuJobRuns();
    FirstIsSettled();
    s := Next(HASTY, OPENED, Feed([], Always(MENU_HEARD)));
  }

  lemma TwoTicks(all: iset<Session>, outcome: Outcome) returns (s: Session)
    requires Closed(HASTY, all) && OPENED in all
    ensures s in all
    ensures (EndOf(s.log).failed == 2) == (outcome.Raised? && outcome.error in {NotImplemented, CircuitOpen})
    ensures LateKeys(s.log) == if outcome.Value? && outcome.digits != "" then 1 else 0
  {
    var s0 := FirstTick(all);
    VoicemailTick(s0, outcome);
    s := Then(s0, outcome);
  }

  /** A run whose second tick reports two failures. */
  lemma FailsTwice()
    ensures exists es :: EndOf(Played(HASTY, es).log).failed == 2
  {
    ReachedIsClosed(HASTY);
    var s := TwoTicks(Reached(HASTY), Raised(CircuitOpen));
    var es :| Played(HASTY, es) == s;
    assert EndOf(Played(HASTY, es).log).failed == 2;
  }

  /** A run whose second tick presses a key after the call has failed. */
  lemma PressesTooLate()
    ensures exists es :: LateKeys(Played(HASTY, es).log) == 1
  {
    ReachedIsClosed(HASTY);
    var s := TwoTicks(Reached(HASTY), Value("1", false));
    var es :| Played(HASTY, es) == s;
    assert LateKeys(Played(HASTY, es).log) == 1;
  }
}
