/** How often a session, on any run, puts the paid model to work: a menu is heard out before it is
    read, and a probe waits for the cooldown of the one before it. The machine's cooldowns, the
    deferred wake and the audio clock together make it so. */
module SessionPace {
  import opened Prelude
  import opened CallFsm
  import opened FsmRuns
  import opened Session

  /** The last entry into a menu, the last probe started, how many stays with a probe out there have
      been, in which of them the last probe was started, what kind of job is unanswered, and whether
      every job so far was started in time. */
  datatype Pace = Pace(
    entry: Option<real>,
    probe: Option<real>,
    stays: nat,
    started: Option<nat>,
    flight: Option<Kind>,
    kept: bool)

  function PaceOf(cfg: SessionConfig, log: Log): Pace {
    match log
    case Start => Pace(None, None, 0, None, None, true)
    case After(before, StateChanged(t, _, IvrMenu)) => PaceOf(cfg, before).(entry := Some(t))
    case After(before, StateChanged(_, _, EvaluatingSpeech)) => NewStay(PaceOf(cfg, before))
    case After(before, Tier2Woken(t, MenuJob)) => MenuWoken(cfg, PaceOf(cfg, before), t)
    case After(before, Tier2Woken(t, ProbeJob)) => ProbeWoken(cfg, PaceOf(cfg, before), t)
    case After(before, JobAnswered(_, _)) => PaceOf(cfg, before).(flight := None)
    case After(before, _) => PaceOf(cfg, before)
  }

  function NewStay(p: Pace): Pace { p.(stays := p.stays + 1) }

  /** The last probe was started in the last stay. */
  predicate Own(p: Pace) { p.started == Some(p.stays) }

  /** A menu job comes no sooner after the last entry than the prompt is to be collected for. */
  function MenuWoken(cfg: SessionConfig, p: Pace, t: real): Pace {
    p.(kept := p.kept && p.entry.Some? && t >= p.entry.value + cfg.menuCollect, flight := Some(MenuJob))
  }

  /** A probe comes no sooner after the last one than the cooldown. */
  function ProbeWoken(cfg: SessionConfig, p: Pace, t: real): Pace {
    p.(kept := p.kept && (p.probe.Some? ==> t >= p.probe.value + cfg.fsm.refractory), probe := Some(t),
    started := Some(p.stays), flight := Some(ProbeJob))
  }

  // ---- the invariant ----

  /** What has been kept so far, and what the machine and the pending wake still guarantee.
      `asks` is what the machine asked for at `clock` and nobody has done yet. */
  predicate OnPace(cfg: SessionConfig, p: Pace, fsm: Fsm, wakeDue: Option<real>, asks: Action, clock: real) {
    && p.kept
    && (p.entry.Some? ==> p.entry.value <= clock)
    && (fsm.state.IvrMenu? ==> p.entry.Some?)
    && (fsm.state.IvrMenu? && wakeDue.Some? && !asks.WakeTier2Menu? ==>
          wakeDue.value >= p.entry.value + cfg.menuCollect)
    && (p.probe.Some? ==> p.probe.value <= clock && NotBefore(cfg.fsm, fsm, clock, p.probe.value + cfg.fsm.refractory))
    && (p.probe.Some? && asks.WakeTier2Probe? ==> clock >= p.probe.value + cfg.fsm.refractory)
    && (asks.WakeTier2Probe? ==> fsm.state.EvaluatingSpeech?)
    && (p.started.Some? ==> p.started.value <= p.stays)
  }

  ghost predicate Paced(cfg: SessionConfig, s: Session, asks: Action, clock: real) {
    OnPace(cfg, PaceOf(cfg, s.log), s.fsm, s.wakeDue, asks, clock) && PaceOf(cfg, s.log).flight == s.kind
  }

  /** All of a session that its pace depends on. */
  function Driver(cfg: SessionConfig, s: Session): (Pace, Fsm, Option<real>, Option<Kind>) {
    (PaceOf(cfg, s.log), s.fsm, s.wakeDue, s.kind)
  }

  lemma ClassifiedPaces(cfg: SessionConfig, s: Session, inp: TickInput, now: real)
    requires Paced(cfg, s, NoAction, now)
    ensures var (fsm, asks) := Observed(cfg.fsm, s.fsm, inp.sound, inp.confidence, now);
            Paced(cfg, Classified(cfg, s, fsm, now, inp), asks, now)
  {
    var (fsm, asks) := Observed(cfg.fsm, s.fsm, inp.sound, inp.confidence, now);
    ClassifiedPace(cfg, s, fsm, now, inp);
    ObservingPaces(cfg, PaceOf(cfg, s.log), s.fsm, s.wakeDue, inp, now);
  }

  /** What the frame's state change does to the pace. */
  function PaceObserved(p: Pace, from: CallState, to: CallState, now: real): Pace {
    if from == to then p
    else if to.IvrMenu? then p.(entry := Some(now))
    else if to.EvaluatingSpeech? then NewStay(p)
    else p
  }

  lemma ClassifiedPace(cfg: SessionConfig, s: Session, fsm: Fsm, now: real, inp: TickInput)
    ensures Driver(cfg, Classified(cfg, s, fsm, now, inp)) ==
            (PaceObserved(PaceOf(cfg, s.log), s.fsm.state, fsm.state, now), fsm, s.wakeDue, s.kind)
  {
    Irrelevant(cfg, s, FrameClassified(LookAt(cfg, s, now, inp)));
  }

  lemma ObservingPaces(cfg: SessionConfig, p: Pace, fsm0: Fsm, wakeDue: Option<real>, inp: TickInput, now: real)
    requires OnPace(cfg, p, fsm0, wakeDue, NoAction, now)
    ensures var (fsm, asks) := Observed(cfg.fsm, fsm0, inp.sound, inp.confidence, now);
            OnPace(cfg, PaceObserved(p, fsm0.state, fsm.state, now), fsm, wakeDue, asks, now)
  {
    if p.probe.Some? {
      StepIsNotBefore(cfg.fsm, fsm0, Frame(inp.sound, inp.confidence, now), now, p.probe.value + cfg.fsm.refractory);
    }
  }

  /** Notes of no interest here. */
  lemma Irrelevant(cfg: SessionConfig, s: Session, n: Note)
    requires !n.Tier2Woken? && !n.StateChanged? && !n.JobAnswered?
    ensures Driver(cfg, Emitted(s, n)) == Driver(cfg, s)
  {
  }

  lemma FailingIsIrrelevant(cfg: SessionConfig, s: Session, now: real, reason: string)
    ensures Driver(cfg, FailedWith(s, now, reason)) == Driver(cfg, s)
  {
    var s1 := Emitted(s, CallFailed(now, reason));
    Irrelevant(cfg, s, CallFailed(now, reason));
    Irrelevant(cfg, s1.(finished := true), HookFail(reason));
  }

  lemma StartingPaces(cfg: SessionConfig, s: Session, kind: Kind, now: real, outcome: Outcome)
    ensures var p := PaceOf(cfg, s.log);
            Driver(cfg, JobStarted(cfg, s, kind, now, outcome)) ==
            (if kind.MenuJob? then MenuWoken(cfg, p, now) else ProbeWoken(cfg, p, now), s.fsm, s.wakeDue, Some(kind))
  {
    var s1 := Emitted(s, Tier2Woken(now, kind)).(kind := Some(kind));
    Irrelevant(cfg, s1, JobDropped);
  }

  lemma DispatchedPaces(cfg: SessionConfig, s: Session, asks: Action, now: real, inp: TickInput)
    requires Paced(cfg, s, asks, now) && !asks.Bridge?
    ensures Paced(cfg, Dispatched(cfg, s, asks, now, inp), NoAction, now)
    ensures Own(PaceOf(cfg, Dispatched(cfg, s, asks, now, inp).log)) ==
            (Own(PaceOf(cfg, s.log)) || (asks.WakeTier2Probe? && s.kind.None?))
  {
    if asks.Fail? {
      FailingIsIrrelevant(cfg, s, now, "non_connect");
    } else if asks.WakeTier2Probe? && s.kind.None? {
      StartingPaces(cfg, s, ProbeJob, now, inp.outcome);
    }
  }

  predicate SameStay(p: Pace, q: Pace) { (p.stays, p.started) == (q.stays, q.started) }

  lemma WakePaces(cfg: SessionConfig, s: Session, now: real, inp: TickInput)
    requires Paced(cfg, s, NoAction, now)
    ensures Paced(cfg, WakeFired(cfg, s, now, inp), NoAction, now)
    ensures SameStay(PaceOf(cfg, WakeFired(cfg, s, now, inp).log), PaceOf(cfg, s.log))
  {
    StartingPaces(cfg, s.(wakeDue := None), MenuJob, now, inp.outcome);
  }

  /** The handoff leaves the machine beyond menus and probes. */
  lemma HandoffPaces(cfg: SessionConfig, s: Session, now: real, handoff: Handoff)
    requires Paced(cfg, s, NoAction, now) && s.fsm.state.HumanDetected?
    ensures Paced(cfg, BridgedOver(s, now, handoff), NoAction, now)
    ensures PaceOf(cfg, BridgedOver(s, now, handoff).log) == PaceOf(cfg, s.log)
  {
    var s1 := Emitted(s, HumanWasDetected(now));
    var s2 := Emitted(s1, HookBridge(handoff));
    Irrelevant(cfg, s, HumanWasDetected(now));
    Irrelevant(cfg, s1, HookBridge(handoff));
    if handoff.Started? {
      BridgingIsIrrelevant(cfg, s2, now);
    } else {
      FailingIsIrrelevant(cfg, s2, now, if handoff.Impossible? then handoff.reason else "handoff_error");
    }
  }

  lemma BridgingIsIrrelevant(cfg: SessionConfig, s: Session, now: real)
    requires s.fsm.state.HumanDetected?
    ensures var s2 := ChangeEmitted(s.(fsm := BridgeNoted(s.fsm)), s.fsm.state, now);
            var s3 := Emitted(s2, BridgeStarted(now));
            var s4 := ChangeEmitted(s3.(fsm := s3.fsm.(state := Done)), s3.fsm.state, now);
            var r := Emitted(s4, CallCompleted(now)).(finished := true);
            (PaceOf(cfg, r.log), r.fsm.state, r.kind) == (PaceOf(cfg, s.log), Done, s.kind)
  {
    var l1 := After(s.log, StateChanged(now, HumanDetected, Bridging));
    var l2 := After(l1, BridgeStarted(now));
    var l3 := After(l2, StateChanged(now, Bridging, Done));
    assert PaceOf(cfg, l1) == PaceOf(cfg, s.log);
    assert PaceOf(cfg, l3) == PaceOf(cfg, l2) == PaceOf(cfg, l1);
  }

  lemma MenuAnswerPaces(cfg: SessionConfig, s: Session, digits: string, now: real)
    requires Paced(cfg, s, NoAction, now)
    ensures Paced(cfg, MenuApplied(cfg, s, digits, now), NoAction, now)
    ensures PaceOf(cfg, MenuApplied(cfg, s, digits, now).log) == PaceOf(cfg, s.log)
  {
    Irrelevant(cfg, s, DtmfSent(now, digits));
    Irrelevant(cfg, s, MenuAbstained);
  }

  lemma ProbeAnswerPaces(cfg: SessionConfig, s: Session, isHuman: bool, now: real, inp: TickInput)
    requires Paced(cfg, s, NoAction, now)
    ensures Paced(cfg, ProbeApplied(cfg, s, isHuman, now, inp), NoAction, now)
    ensures PaceOf(cfg, ProbeApplied(cfg, s, isHuman, now, inp).log) == PaceOf(cfg, s.log)
  {
    var s1 := Emitted(s, ProbeResult(now, isHuman));
    Irrelevant(cfg, s, ProbeResult(now, isHuman));
    var (fsm, asks) := ProbeAnswered(cfg.fsm, s1.fsm, isHuman, now);
    var s2 := ChangeEmitted(s1.(fsm := fsm), s1.fsm.state, now);
    assert PaceOf(cfg, s2.log) == PaceOf(cfg, s1.log);
    if asks.Bridge? { HandoffPaces(cfg, s2, now, inp.handoff); }
  }

  lemma {:induction false} PolledPaces(cfg: SessionConfig, s: Session, now: real, inp: TickInput)
    requires Paced(cfg, s, NoAction, now)
    ensures Paced(cfg, Polled(cfg, s, now, inp), NoAction, now)
    ensures SameStay(PaceOf(cfg, Polled(cfg, s, now, inp).log), PaceOf(cfg, s.log))
  {
    var slot := Polling(s.slot, inp);
    if s.kind.Some? && slot.Ready? {
      var k := s.kind.value;
      var s1 := Emitted(s.(slot := Empty, kind := None), JobAnswered(k, slot.kind));
      assert PaceOf(cfg, s1.log) == PaceOf(cfg, s.log).(flight := None);
      match slot.outcome {
        case Raised(error) =>
          if FatalReason(k, error).Some? { FailingIsIrrelevant(cfg, s1, now, FatalReason(k, error).value); }
        case Value(digits, isHuman) =>
          MenuAnswerPaces(cfg, s1, digits, now);
          ProbeAnswerPaces(cfg, s1, isHuman, now, inp);
      }
    }
  }

  /** A tick keeps the pace. And it is the entering of a stay with a probe that decides whether the
      stay has a probe of its own: exactly if no job is in flight then; later ticks start none. */
  lemma TickPaces(cfg: SessionConfig, s: Session, now: real, inp: TickInput)
    requires Paced(cfg, s, NoAction, now)
    ensures Paced(cfg, Ticked(cfg, s, now, inp), NoAction, now)
    ensures Own(PaceOf(cfg, Ticked(cfg, s, now, inp).log)) ==
            if Observed(cfg.fsm, s.fsm, inp.sound, inp.confidence, now).1.WakeTier2Probe? then s.kind.None?
            else Own(PaceOf(cfg, s.log))
  {
    var (fsm, asks) := Observed(cfg.fsm, s.fsm, inp.sound, inp.confidence, now);
    var s1 := Classified(cfg, s, fsm, now, inp);
    var s2 := Dispatched(cfg, s1, asks, now, inp);
    ClassifiedPaces(cfg, s, inp, now);
    ClassifiedPace(cfg, s, fsm, now, inp);
    DispatchedPaces(cfg, s1, asks, now, inp);
    WakePaces(cfg, s2, now, inp);
    PolledPaces(cfg, WakeFired(cfg, s2, now, inp), now, inp);
  }

  /** Time passing keeps the pace. */
  lemma LaterIsFine(cfg: SessionConfig, s: Session, s1: Session, clock: real, later: real)
    requires Paced(cfg, s, NoAction, clock) && clock <= later && Driver(cfg, s1) == Driver(cfg, s)
    ensures Paced(cfg, s1, NoAction, later)
  {
  }

  lemma {:induction false} TicksPace(cfg: SessionConfig, s: Session, inputs: nat -> TickInput, k: nat)
    requires cfg.interval > 0.0 && k <= 4 && Audio(s) - s.next <= Slack(cfg, k)
    requires Paced(cfg, s, NoAction, s.next)
    ensures var r := Ticks(cfg, s, inputs, k);
            Paced(cfg, r, NoAction, r.next)
    decreases 4 - k
  {
    if Audio(s) >= s.next {
      var s0 := Ticked(cfg, s, s.next, inputs(k));
      var s1 := Advanced(cfg, s, inputs(k));
      TickPaces(cfg, s, s.next, inputs(k));
      LaterIsFine(cfg, s0, s1, s.next, s1.next);
      if s1.finished {
        assert Ticks(cfg, s, inputs, k) == s1;
      } else {
        TicksPace(cfg, s1, inputs, k + 1);
        assert Ticks(cfg, s, inputs, k) == Ticks(cfg, s1, inputs, k + 1);
      }
    }
  }

  lemma NextPaces(cfg: SessionConfig, s: Session, e: Event)
    requires cfg.interval > 0.0 && Paced(cfg, s, NoAction, s.next)
    ensures var r := Next(cfg, s, e);
            Paced(cfg, r, NoAction, r.next)
  {
    match e
    case Feed(pcm, inputs) =>
      if !s.finished {
        var s1 := CaughtUp(cfg, Received(cfg, s, pcm));
        LaterIsFine(cfg, s, s1, s.next, s1.next);
        TicksPace(cfg, s1, inputs, 0);
      }
    case Abort(reason) => FailingIsIrrelevant(cfg, s, Audio(s), reason);
  }

  /** On every run, each menu job starts at least the collecting time after the menu was entered,
      and each probe at least a cooldown after the probe before it. */
  lemma {:induction false} EveryRunIsPaced(cfg: SessionConfig, es: seq<Event>)
    requires cfg.interval > 0.0
    ensures var s := Played(cfg, es);
            Paced(cfg, s, NoAction, s.next)
  {
    if es != [] {
      EveryRunIsPaced(cfg, es[..|es| - 1]);
      NextPaces(cfg, Played(cfg, es[..|es| - 1]), es[|es| - 1]);
    }
  }

  // ---- what it comes to ----

  function ProbeStarts(log: Log): seq<real> {
    match log
    case Start => []
    case After(before, Tier2Woken(t, ProbeJob)) => ProbeStarts(before) + [t]
    case After(before, _) => ProbeStarts(before)
  }

  function LastEntry(log: Log): Option<real> {
    match log
    case Start => None
    case After(_, StateChanged(t, _, IvrMenu)) => Some(t)
    case After(before, _) => LastEntry(before)
  }

  /** Every menu job: when the menu had last been entered, and when the job started. */
  function MenuReadings(log: Log): seq<(Option<real>, real)> {
    match log
    case Start => []
    case After(before, Tier2Woken(t, MenuJob)) => MenuReadings(before) + [(LastEntry(before), t)]
    case After(before, _) => MenuReadings(before)
  }

  predicate HeardOut(cfg: SessionConfig, reading: (Option<real>, real)) {
    reading.0.Some? && reading.1 >= reading.0.value + cfg.menuCollect
  }

  lemma {:induction false} PaceHearsMenusOut(cfg: SessionConfig, log: Log)
    requires PaceOf(cfg, log).kept
    ensures PaceOf(cfg, log).entry == LastEntry(log)
    ensures forall m :: m in MenuReadings(log) ==> HeardOut(cfg, m)
  {
    if log.After? { PaceHearsMenusOut(cfg, log.before); }
  }

  lemma {:induction false} PaceSpacesProbes(cfg: SessionConfig, log: Log)
    requires PaceOf(cfg, log).kept
    ensures var ts := ProbeStarts(log);
            && PaceOf(cfg, log).probe == (if ts == [] then None else Some(ts[|ts| - 1]))
            && SpacedBy(ts, cfg.fsm.refractory)
  {
    if log.After? { PaceSpacesProbes(cfg, log.before); }
  }

  /** Whether a probe was started since the machine last entered a stay with a probe out. */
  function ProbedStay(log: Log): bool {
    match log
    case Start => false
    case After(_, StateChanged(_, _, EvaluatingSpeech)) => false
    case After(_, Tier2Woken(_, ProbeJob)) => true
    case After(before, _) => ProbedStay(before)
  }

  /** How many stays with a probe out have been entered. */
  function Stays(log: Log): nat {
    match log
    case Start => 0
    case After(before, StateChanged(_, _, EvaluatingSpeech)) => Stays(before) + 1
    case After(before, _) => Stays(before)
  }

  /** In which of them the job that is still unanswered was started, if it is a probe. */
  function StartedIn(log: Log): Option<nat> {
    match log
    case Start => None
    case After(before, Tier2Woken(_, ProbeJob)) => Some(Stays(before))
    case After(_, Tier2Woken(_, MenuJob)) => None
    case After(_, JobAnswered(_, _)) => None
    case After(before, _) => StartedIn(before)
  }

  lemma {:induction false} PaceKnowsTheStay(cfg: SessionConfig, log: Log)
    ensures var p := PaceOf(cfg, log);
            && p.stays == Stays(log)
            && (p.started.Some? ==> p.started.value <= p.stays)
            && (Own(p) <==> ProbedStay(log))
            && StartedIn(log) == (if p.flight == Some(ProbeJob) then p.started else None)
            && (p.flight == Some(ProbeJob) ==> p.started.Some?)
  {
    if log.After? { PaceKnowsTheStay(cfg, log.before); }
  }

  /** Whose verdict it is: on every run, while the session waits for a probe, that probe was started
      in some stay, and it is the present one's own if and only if a probe was started in this stay. */
  lemma VerdictIsOwnExactlyWhenProbed(cfg: SessionConfig, s: Session, now: real)
    requires Paced(cfg, s, NoAction, now)
    ensures s.kind == Some(ProbeJob) <==> StartedIn(s.log).Some?
    ensures s.kind == Some(ProbeJob) ==>
              && StartedIn(s.log).value <= Stays(s.log)
              && (StartedIn(s.log).value == Stays(s.log) <==> ProbedStay(s.log))
  {
    PaceKnowsTheStay(cfg, s.log);
  }

  /** A stay with a probe out has a probe of its own if and only if no job was in flight when it
      was entered: the tick that enters it starts one then, and no later tick does. */
  lemma StayIsProbedExactlyWhenFree(cfg: SessionConfig, s: Session, now: real, inp: TickInput)
    requires Paced(cfg, s, NoAction, now)
    ensures ProbedStay(Ticked(cfg, s, now, inp).log) ==
            if Observed(cfg.fsm, s.fsm, inp.sound, inp.confidence, now).1.WakeTier2Probe? then s.kind.None?
            else ProbedStay(s.log)
  {
    TickPaces(cfg, s, now, inp);
    PaceKnowsTheStay(cfg, s.log);
    PaceKnowsTheStay(cfg, Ticked(cfg, s, now, inp).log);
  }

  /** No menu is read before it was listened to for the collecting time, on any run. */
  lemma MenusAreHeardOut(cfg: SessionConfig, es: seq<Event>)
    requires cfg.interval > 0.0
    ensures forall m :: m in MenuReadings(Played(cfg, es).log) ==> HeardOut(cfg, m)
  {
    EveryRunIsPaced(cfg, es);
    PaceHearsMenusOut(cfg, Played(cfg, es).log);
  }

  /** What probing can cost: on any run, so many probes take so many cooldowns. */
  lemma ProbesAreSpaced(cfg: SessionConfig, es: seq<Event>)
    requires cfg.interval > 0.0
    ensures FarApart(ProbeStarts(Played(cfg, es).log), cfg.fsm.refractory)
  {
    EveryRunIsPaced(cfg, es);
    PaceSpacesProbes(cfg, Played(cfg, es).log);
    SpacingAddsUp(ProbeStarts(Played(cfg, es).log), cfg.fsm.refractory);
  }
}
