/** What each answer and each error of a Tier 2 job does to a call, case by case. */
module SessionAnswers {
  import opened Prelude
  import opened CallFsm
  import opened Session
  import opened SessionRuns

  /** The session waits for a job of this kind, and polling it now finds this outcome. */
  predicate IsAnswered(s: Session, inp: TickInput, kind: Kind, outcome: Outcome) {
    && s.kind == Some(kind)
    && (s.slot == Ready(kind, outcome) || (s.slot == Running(kind) && inp.arrived && inp.outcome == outcome))
  }

  function Answer(s: Session, kind: Kind): Log { After(s.log, JobAnswered(kind, kind)) }

  /** The call was failed: reported, with its reason, and the failure hook called with it. */
  function FailureReported(log: Log, now: real, reason: string): Log {
    After(After(log, CallFailed(now, reason)), HookFail(reason))
  }

  /** A session that is no longer waiting, with this machine, this log, and over or not. */
  function NotWaiting(s: Session, fsm: Fsm, log: Log, finished: bool): Session {
    s.(kind := None, slot := Empty, fsm := fsm, log := log, finished := finished)
  }

  /** An error ends the call exactly if a probe was asked for, or nothing can be asked for any more;
      a menu that was not read in time, or whose reading broke, is simply not read. The reason told is
      the breaker's or the model's unavailability, a missing implementation, or an error. */
  lemma ErrorEndsTheCallExactlyWhen(
      cfg: SessionConfig, s: Session, now: real, inp: TickInput, kind: Kind, error: Tier2Error)
    requires IsAnswered(s, inp, kind, Raised(error))
    ensures var ends := kind == ProbeJob || error in {NotImplemented, CircuitOpen};
            var reason := match error
                          case NotImplemented => "tier2_not_implemented"
                          case CircuitOpen | Unavailable => "tier2_unavailable"
                          case OtherError => "tier2_error";
            Polled(cfg, s, now, inp) ==
            NotWaiting(s, s.fsm, if ends then FailureReported(Answer(s, kind), now, reason) else Answer(s, kind),
                       s.finished || ends)
  {
  }

  /** The digits of a menu's answer are pressed as they came and counted; none is an abstention. The
      machine takes note of either only if the call is in a menu still. */
  lemma KeysArePressedAsAnswered(
      cfg: SessionConfig, s: Session, now: real, inp: TickInput, digits: string, isHuman: bool)
    requires IsAnswered(s, inp, MenuJob, Value(digits, isHuman))
    ensures var log := After(Answer(s, MenuJob), if digits == "" then MenuAbstained else DtmfSent(now, digits));
            var noted := if digits == "" then s.fsm.(menuNoops := s.fsm.menuNoops + 1)
                         else s.fsm.(menuPresses := s.fsm.menuPresses + 1, menuNoops := 0, menuWoken := false,
                                     menuGapSeen := false, menuRefractoryUntil := now + cfg.fsm.menuRefractory);
            Polled(cfg, s, now, inp) ==
            NotWaiting(s, if s.fsm.state == IvrMenu then noted else s.fsm, log, s.finished)
  {
  }

  /** A verdict is reported as it came, and ignored if the machine waits for none any more. */
  lemma LateVerdictIsIgnored(
      cfg: SessionConfig, s: Session, now: real, inp: TickInput, digits: string, isHuman: bool)
    requires IsAnswered(s, inp, ProbeJob, Value(digits, isHuman)) && s.fsm.state != EvaluatingSpeech
    ensures Polled(cfg, s, now, inp) ==
            NotWaiting(s, s.fsm, After(Answer(s, ProbeJob), ProbeResult(now, isHuman)), s.finished)
  {
  }

  /** Not a human: back to the queue, with a cooldown. */
  lemma NoHumanLeadsBackToTheQueue(
      cfg: SessionConfig, s: Session, now: real, inp: TickInput, digits: string)
    requires IsAnswered(s, inp, ProbeJob, Value(digits, false)) && s.fsm.state == EvaluatingSpeech
    ensures var log := After(After(Answer(s, ProbeJob), ProbeResult(now, false)),
                             StateChanged(now, EvaluatingSpeech, OnHold));
            Polled(cfg, s, now, inp) ==
            NotWaiting(s, s.fsm.(state := OnHold, streak := 0, streakLabel := None,
                                 refractoryUntil := now + cfg.fsm.refractory), log, s.finished)
  {
  }

  /** A human: the call is handed over and done, or, if the hook finds that it cannot be, failed for
      the hook's reason, or for an error in it. */
  lemma AHumanEndsTheCall(cfg: SessionConfig, s: Session, now: real, inp: TickInput, digits: string)
    requires IsAnswered(s, inp, ProbeJob, Value(digits, true)) && s.fsm.state == EvaluatingSpeech
    ensures var r := Polled(cfg, s, now, inp);
            var found := After(After(Answer(s, ProbeJob), ProbeResult(now, true)),
                               StateChanged(now, EvaluatingSpeech, HumanDetected));
            var tried := After(After(found, HumanWasDetected(now)), HookBridge(inp.handoff));
            && r == NotWaiting(s, r.fsm, r.log, true)
            && match inp.handoff
               case Started => r.fsm.state == Done && r.log == Epilogue(Answer(s, ProbeJob), now)
               case Impossible(reason) =>
                 r.fsm.state == HumanDetected && r.log == FailureReported(tried, now, reason)
               case Broken => r.fsm.state == HumanDetected && r.log == FailureReported(tried, now, "handoff_error")
  {
    var s1 := Emitted(s.(slot := Empty, kind := None), JobAnswered(ProbeJob, ProbeJob));
    assert Polled(cfg, s, now, inp) == ProbeApplied(cfg, s1, true, now, inp);
    assert ProbeApplied(cfg, s1, true, now, inp) == BridgedOver(HumanFound(s1, now), now, inp.handoff);
  }

  /** A tick in which an error is the answer to the job in flight ends the call exactly if the frame
      says that it never connected, or the error ends it. */
  lemma TickEndsTheCallExactlyWhen(cfg: SessionConfig, s: Session, now: real, inp: TickInput)
    requires s in Settled(cfg) && !s.finished && s.kind.Some? && inp.arrived && inp.outcome.Raised?
    ensures Ticked(cfg, s, now, inp).finished <==>
            || Observed(cfg.fsm, s.fsm, inp.sound, inp.confidence, now).1 == Fail
            || s.kind == Some(ProbeJob) || inp.outcome.error in {NotImplemented, CircuitOpen}
  {
    var (fsm, asks) := Observed(cfg.fsm, s.fsm, inp.sound, inp.confidence, now);
    var s1 := Classified(cfg, s, fsm, now, inp);
    var s2 := Dispatched(cfg, s1, asks, now, inp);
    var s3 := WakeFired(cfg, s2, now, inp);
    assert (s1.kind, s1.slot, s1.finished) == (s.kind, s.slot, false);
    assert (s2.kind, s2.slot, s2.finished) == (s.kind, s.slot, asks == Fail);
    assert (s3.kind, s3.slot, s3.finished) == (s.kind, s.slot, asks == Fail);
    ErrorEndsTheCallExactlyWhen(cfg, s3, now, inp, s.kind.value, inp.outcome.error);
  }

  // ---- what becomes of a wish ----

  /** A job of this kind is asked for: at once answered, if jobs run inline, or else running. */
  function JobBegun(cfg: SessionConfig, s: Session, kind: Kind, now: real, outcome: Outcome): Session {
    s.(kind := Some(kind), slot := if cfg.inlineJobs then Ready(kind, outcome) else Running(kind),
    log := After(s.log, Tier2Woken(now, kind)))
  }

  /** A menu that the machine wants read is read in the first tick that is not before the end of the
      collecting time, if by then the call is still in a menu and no job is in flight; else it is not
      read, and the wish is gone. A new wish takes the place of an old one. */
  lemma MenuIsReadExactlyWhenDue(cfg: SessionConfig, s: Session, now: real, inp: TickInput)
    requires s in Settled(cfg) && !s.finished
    requires Observed(cfg.fsm, s.fsm, inp.sound, inp.confidence, now).1 in {NoAction, WakeTier2Menu}
    ensures var (fsm, asks) := Observed(cfg.fsm, s.fsm, inp.sound, inp.confidence, now);
            var heard := Classified(cfg, s, fsm, now, inp);
            var due := if asks == WakeTier2Menu then Some(now + cfg.menuCollect) else s.wakeDue;
            var waits := heard.(wakeDue := due);
            var acted :=
              if due.None? || now < due.value then waits
              else if fsm.state == IvrMenu && s.kind == None
              then JobBegun(cfg, waits.(wakeDue := None), MenuJob, now, inp.outcome)
              else waits.(wakeDue := None);
            Ticked(cfg, s, now, inp) == Polled(cfg, acted, now, inp)
  {
    var (fsm, asks) := Observed(cfg.fsm, s.fsm, inp.sound, inp.confidence, now);
    var heard := Classified(cfg, s, fsm, now, inp);
    var waits := Dispatched(cfg, heard, asks, now, inp);
    assert (heard.kind, heard.slot, heard.wakeDue) == (s.kind, s.slot, s.wakeDue);
    assert waits.slot.Running? ==> waits.kind.Some?;
    assert Ticked(cfg, s, now, inp) == Polled(cfg, WakeFired(cfg, waits, now, inp), now, inp);
  }

  /** A frame that says the call never connected fails it at once, for that reason. */
  lemma NoConnectionFailsTheCall(cfg: SessionConfig, s: Session, now: real, inp: TickInput)
    requires s.kind.None? && Observed(cfg.fsm, s.fsm, inp.sound, inp.confidence, now).1 == Fail
    ensures var r := Ticked(cfg, s, now, inp);
            var heard := After(s.log, FrameClassified(LookAt(cfg, s, now, inp)));
            && r.finished && r.fsm.state == Failed
            && r.log == FailureReported(After(heard, StateChanged(now, s.fsm.state, Failed)), now, "non_connect")
  {
    var (fsm, asks) := Observed(cfg.fsm, s.fsm, inp.sound, inp.confidence, now);
    var s1 := Classified(cfg, s, fsm, now, inp);
    assert s1.log == After(After(s.log, FrameClassified(LookAt(cfg, s, now, inp))),
                           StateChanged(now, s.fsm.state, Failed));
    var s2 := Dispatched(cfg, s1, asks, now, inp);
    assert WakeFired(cfg, s2, now, inp).log == s2.log;
  }

  /** An abort fails a call that is not over, for the reason it gives, at the time of the audio. */
  lemma AbortFailsTheCall(cfg: SessionConfig, s: Session, reason: string)
    requires cfg.interval > 0.0
    ensures Next(cfg, s, Abort(reason)) ==
            if s.finished then s
            else s.(log := FailureReported(s.log, s.samples as real / 8000.0, reason), finished := true)
  {
  }
}
