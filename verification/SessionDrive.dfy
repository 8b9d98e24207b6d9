/** What a session does to its machine can be read off its log: the frames, the answers and the
    handoff in it are the machine's signals, in order and on time. So what was proved of the
    machine's runs is proved of the run a session gives it. */
module SessionDrive {
  import opened Prelude
  import opened CallFsm
  import opened FsmRuns
  import opened FsmJournal
  import opened Session
  import opened SessionTurns

  /** The signal a note stands for, if any. */
  function SignalOf(n: Note): Option<Signal> {
    match n
    case FrameClassified(look) => Some(Frame(look.sound, look.confidence, look.t))
    case ProbeResult(t, isHuman) => Some(Verdict(isHuman, t))
    case DtmfSent(t, _) => Some(Pressed(t))
    case MenuAbstained => Some(Abstained)
    case HookBridge(Started) => Some(HandoffBegun)
    case CallCompleted(_) => Some(Completed)
    case _ => None
  }

  function Signals(log: Log): seq<Signal> {
    match log
    case Start => []
    case After(before, n) => if SignalOf(n).Some? then Signals(before) + [SignalOf(n).value] else Signals(before)
  }

  /** The thresholds of the state changes reported right after a frame, added up. */
  function ReportedCost(cfg: FsmConfig, log: Log): int {
    match log
    case Start => 0
    case After(before, StateChanged(_, frm, to)) =>
      ReportedCost(cfg, before) +
      (if before.After? && before.note.FrameClassified? && IsLive(frm) && to != frm
       then Threshold(cfg, frm, to, before.note.look.sound) else 0)
    case After(before, _) => ReportedCost(cfg, before)
  }

  /** What a run has come to. */
  datatype Tape = Tape(fsm: Fsm, time: real, ordered: bool, cost: int)

  function Taped(cfg: FsmConfig, p: Tape, e: Signal): Tape {
    Tape(Step(cfg, p.fsm, e).0, if TimeOf(e).Some? then TimeOf(e).value else p.time,
         p.ordered && (TimeOf(e).Some? ==> p.time <= TimeOf(e).value), p.cost + CostOf(cfg, p.fsm, e))
  }

  function TapeOf(cfg: FsmConfig, log: Log): Tape {
    match log
    case Start => Tape(FRESH, 0.0, true, 0)
    case After(before, n) =>
      if SignalOf(n).Some? then Taped(cfg, TapeOf(cfg, before), SignalOf(n).value) else TapeOf(cfg, before)
  }

  lemma {:induction false} TapeIsTheRun(cfg: FsmConfig, log: Log)
    requires TapeOf(cfg, log).ordered
    ensures var es := Signals(log);
            && Ordered(es, 0.0)
            && TapeOf(cfg, log) == Tape(Run(cfg, FRESH, es), LastTime(es, 0.0), true, Cost(cfg, FRESH, es))
  {
    if log.After? {
      TapeIsTheRun(cfg, log.before);
      if SignalOf(log.note).Some? {
        var e := SignalOf(log.note).value;
        RunMore(cfg, FRESH, Signals(log.before), e);
        OrderedMore(Signals(log.before), 0.0, e);
        CostMore(cfg, FRESH, Signals(log.before), e);
      }
    }
  }

  // ---- every operation keeps the session in step with its log ----

  /** All that is kept in step. */
  function Reel(cfg: SessionConfig, s: Session): (Tape, int, Fsm) {
    (TapeOf(cfg.fsm, s.log), ReportedCost(cfg.fsm, s.log), s.fsm)
  }

  predicate IsInStep(reel: (Tape, int, Fsm), now: real) {
    reel.0 == Tape(reel.2, reel.0.time, true, reel.1) && reel.0.time <= now
  }

  ghost predicate InStep(cfg: SessionConfig, s: Session, now: real) { IsInStep(Reel(cfg, s), now) }

  lemma Silent(cfg: SessionConfig, s: Session, n: Note)
    requires SignalOf(n).None? && !n.StateChanged?
    ensures Reel(cfg, Emitted(s, n)) == Reel(cfg, s)
  {
  }

  /** A state change not reported right after a frame. */
  lemma ChangeIsSilent(cfg: SessionConfig, s: Session, before: CallState, now: real)
    requires s.log.After? && !s.log.note.FrameClassified?
    ensures Reel(cfg, ChangeEmitted(s, before, now)) == Reel(cfg, s)
  {
  }

  lemma FailingIsSilent(cfg: SessionConfig, s: Session, now: real, reason: string)
    ensures Reel(cfg, FailedWith(s, now, reason)) == Reel(cfg, s)
  {
    Silent(cfg, s, CallFailed(now, reason));
    Silent(cfg, Emitted(s, CallFailed(now, reason)).(finished := true), HookFail(reason));
  }

  lemma StartingIsSilent(cfg: SessionConfig, s: Session, kind: Kind, now: real, outcome: Outcome)
    ensures Reel(cfg, JobStarted(cfg, s, kind, now, outcome)) == Reel(cfg, s)
  {
    Silent(cfg, s, Tier2Woken(now, kind));
    Silent(cfg, Emitted(s, Tier2Woken(now, kind)).(kind := Some(kind)), JobDropped);
  }

  /** A frame is in step once its state change, if any, is reported. */
  lemma ClassifiedInStep(cfg: SessionConfig, s: Session, now: real, inp: TickInput)
    requires InStep(cfg, s, now)
    ensures var fsm := Observed(cfg.fsm, s.fsm, inp.sound, inp.confidence, now).0;
            InStep(cfg, Classified(cfg, s, fsm, now, inp), now)
  {
    var fsm := Observed(cfg.fsm, s.fsm, inp.sound, inp.confidence, now).0;
    var look := LookAt(cfg, s, now, inp);
    var s1 := Emitted(s, FrameClassified(look)).(fsm := fsm);
    assert TapeOf(cfg.fsm, s1.log) == Taped(cfg.fsm, TapeOf(cfg.fsm, s.log), Frame(inp.sound, inp.confidence, now));
    assert ReportedCost(cfg.fsm, s1.log) == ReportedCost(cfg.fsm, s.log);
  }

  /** A note that stands for a signal, and what the signal does to the machine. */
  lemma SignalInStep(cfg: SessionConfig, s: Session, n: Note, now: real)
    requires InStep(cfg, s, now) && SignalOf(n).Some? && !n.FrameClassified?
    requires TimeOf(SignalOf(n).value).Some? ==> TimeOf(SignalOf(n).value).value == now
    ensures InStep(cfg, Emitted(s, n).(fsm := Step(cfg.fsm, s.fsm, SignalOf(n).value).0), now)
  {
  }

  lemma HandoffInStep(cfg: SessionConfig, s: Session, now: real, handoff: Handoff)
    requires InStep(cfg, s, now)
    ensures InStep(cfg, BridgedOver(s, now, handoff), now)
  {
    var s0 := Emitted(s, HumanWasDetected(now));
    Silent(cfg, s, HumanWasDetected(now));
    var s1 := Emitted(s0, HookBridge(handoff));
    if handoff.Started? {
      var t := s1.(fsm := BridgeNoted(s1.fsm));
      SignalInStep(cfg, s0, HookBridge(Started), now);
      var s2 := ChangeEmitted(t, s1.fsm.state, now);
      ChangeIsSilent(cfg, t, s1.fsm.state, now);
      var s3 := Emitted(s2, BridgeStarted(now));
      Silent(cfg, s2, BridgeStarted(now));
      CompletingInStep(cfg, s3, now);
    } else {
      Silent(cfg, s0, HookBridge(handoff));
      FailingIsSilent(cfg, s1, now, if handoff.Impossible? then handoff.reason else "handoff_error");
    }
  }

  lemma CompletingInStep(cfg: SessionConfig, s: Session, now: real)
    requires InStep(cfg, s, now) && s.log.After? && s.log.note.BridgeStarted?
    ensures var changed := ChangeEmitted(s.(fsm := s.fsm.(state := Done)), s.fsm.state, now);
            InStep(cfg, Emitted(changed, CallCompleted(now)).(finished := true), now)
  {
    var t := s.(fsm := s.fsm.(state := Done));
    ChangeIsSilent(cfg, t, s.fsm.state, now);
  }

  lemma DispatchedInStep(cfg: SessionConfig, s: Session, asks: Action, now: real, inp: TickInput)
    requires InStep(cfg, s, now)
    ensures InStep(cfg, Dispatched(cfg, s, asks, now, inp), now)
  {
    match asks
    case WakeTier2Probe => StartingIsSilent(cfg, s, ProbeJob, now, inp.outcome);
    case Bridge => HandoffInStep(cfg, s, now, inp.handoff);
    case Fail => FailingIsSilent(cfg, s, now, "non_connect");
    case _ =>
  }

  lemma ProbeAnswerInStep(cfg: SessionConfig, s: Session, isHuman: bool, now: real, inp: TickInput)
    requires InStep(cfg, s, now)
    ensures InStep(cfg, ProbeApplied(cfg, s, isHuman, now, inp), now)
  {
    var s1 := Emitted(s, ProbeResult(now, isHuman));
    var (fsm, asks) := ProbeAnswered(cfg.fsm, s1.fsm, isHuman, now);
    SignalInStep(cfg, s, ProbeResult(now, isHuman), now);
    ChangeIsSilent(cfg, s1.(fsm := fsm), s1.fsm.state, now);
    DispatchedInStep(cfg, ChangeEmitted(s1.(fsm := fsm), s1.fsm.state, now), asks, now, inp);
  }

  lemma MenuAnswerInStep(cfg: SessionConfig, s: Session, digits: string, now: real)
    requires InStep(cfg, s, now)
    ensures InStep(cfg, MenuApplied(cfg, s, digits, now), now)
  {
    SignalInStep(cfg, s, if digits == "" then MenuAbstained else DtmfSent(now, digits), now);
  }

  lemma PolledInStep(cfg: SessionConfig, s: Session, now: real, inp: TickInput)
    requires InStep(cfg, s, now)
    ensures InStep(cfg, Polled(cfg, s, now, inp), now)
  {
    var slot := Polling(s.slot, inp);
    if s.kind.Some? && slot.Ready? {
      var k := s.kind.value;
      var s0 := s.(slot := Empty, kind := None);
      var s1 := Emitted(s0, JobAnswered(k, slot.kind));
      Silent(cfg, s0, JobAnswered(k, slot.kind));
      match slot.outcome {
        case Raised(error) =>
          if FatalReason(k, error).Some? { FailingIsSilent(cfg, s1, now, FatalReason(k, error).value); }
        case Value(digits, isHuman) =>
          MenuAnswerInStep(cfg, s1, digits, now);
          ProbeAnswerInStep(cfg, s1, isHuman, now, inp);
      }
    }
  }

  lemma TickInStep(cfg: SessionConfig, s: Session, now: real, inp: TickInput)
    requires InStep(cfg, s, now)
    ensures InStep(cfg, Ticked(cfg, s, now, inp), now)
  {
    var (fsm, asks) := Observed(cfg.fsm, s.fsm, inp.sound, inp.confidence, now);
    var s1 := Classified(cfg, s, fsm, now, inp);
    var s2 := Dispatched(cfg, s1, asks, now, inp);
    ClassifiedInStep(cfg, s, now, inp);
    DispatchedInStep(cfg, s1, asks, now, inp);
    StartingIsSilent(cfg, s2.(wakeDue := None), MenuJob, now, inp.outcome);
    PolledInStep(cfg, WakeFired(cfg, s2, now, inp), now, inp);
  }

  lemma LaterInStep(cfg: SessionConfig, s: Session, s1: Session, now: real, later: real)
    requires InStep(cfg, s, now) && now <= later && Reel(cfg, s1) == Reel(cfg, s)
    ensures InStep(cfg, s1, later)
  {
  }

  lemma AdvancedInStep(cfg: SessionConfig, s: Session, inp: TickInput)
    requires cfg.interval > 0.0 && InStep(cfg, s, s.next)
    ensures var r := Advanced(cfg, s, inp);
            InStep(cfg, r, r.next)
  {
    var r := Advanced(cfg, s, inp);
    TickInStep(cfg, s, s.next, inp);
    LaterInStep(cfg, Ticked(cfg, s, s.next, inp), r, s.next, r.next);
  }

  lemma {:induction false} TicksInStep(cfg: SessionConfig, s: Session, inputs: nat -> TickInput, k: nat)
    requires cfg.interval > 0.0 && k <= 4 && Audio(s) - s.next <= Slack(cfg, k)
    requires InStep(cfg, s, s.next)
    ensures var r := Ticks(cfg, s, inputs, k);
            InStep(cfg, r, r.next)
    decreases 4 - k
  {
    if Audio(s) >= s.next {
      var s1 := Advanced(cfg, s, inputs(k));
      AdvancedInStep(cfg, s, inputs(k));
      if s1.finished {
        assert Ticks(cfg, s, inputs, k) == s1;
      } else {
        TicksInStep(cfg, s1, inputs, k + 1);
        assert Ticks(cfg, s, inputs, k) == Ticks(cfg, s1, inputs, k + 1);
      }
    }
  }

  lemma {:induction false} EveryRunIsInStep(cfg: SessionConfig, es: seq<Event>)
    requires cfg.interval > 0.0
    ensures var s := Played(cfg, es);
            InStep(cfg, s, s.next)
  {
    if es != [] {
      var s := Played(cfg, es[..|es| - 1]);
      EveryRunIsInStep(cfg, es[..|es| - 1]);
      match es[|es| - 1] {
        case Feed(pcm, inputs) =>
          if !s.finished {
            var s1 := CaughtUp(cfg, Received(cfg, s, pcm));
            LaterInStep(cfg, s, s1, s.next, s1.next);
            TicksInStep(cfg, s1, inputs, 0);
          }
        case Abort(reason) => FailingIsSilent(cfg, s, Audio(s), reason);
      }
    }
  }

  // ---- what it comes to ----

  function AsFrame(look: Look): Signal { Frame(look.sound, look.confidence, look.t) }

  function AsFrames(looks: seq<Look>): seq<Signal> {
    if looks == [] then [] else AsFrames(looks[..|looks| - 1]) + [AsFrame(looks[|looks| - 1])]
  }

  function OnlyFrames(es: seq<Signal>): seq<Signal> {
    if es == [] then []
    else if es[|es| - 1].Frame? then OnlyFrames(es[..|es| - 1]) + [es[|es| - 1]]
    else OnlyFrames(es[..|es| - 1])
  }

  lemma OnlyFramesMore(es: seq<Signal>, e: Signal)
    ensures OnlyFrames(es + [e]) == if e.Frame? then OnlyFrames(es) + [e] else OnlyFrames(es)
  {
    assert (es + [e])[..|es|] == es;
  }

  lemma AsFramesMore(looks: seq<Look>, look: Look)
    ensures AsFrames(looks + [look]) == AsFrames(looks) + [AsFrame(look)]
  {
    assert (looks + [look])[..|looks|] == looks;
  }

  /** The frames among the signals are those the session looked at, in order. */
  lemma {:induction false} FramesAreThoseLookedAt(log: Log)
    ensures OnlyFrames(Signals(log)) == AsFrames(Frames(log))
  {
    if log.After? {
      FramesAreThoseLookedAt(log.before);
      if SignalOf(log.note).Some? { OnlyFramesMore(Signals(log.before), SignalOf(log.note).value); }
      if log.note.FrameClassified? { AsFramesMore(Frames(log.before), log.note.look); }
    }
  }

  /** On every run of a session, its machine is where the signals of its log take a fresh one; their
      times never go back; and the frames among them are those the session looked at. */
  lemma SessionsRunTheMachine(cfg: SessionConfig, es: seq<Event>)
    requires cfg.interval > 0.0
    ensures var s := Played(cfg, es);
            && s.fsm == Run(cfg.fsm, FRESH, Signals(s.log))
            && Ordered(Signals(s.log), 0.0)
            && OnlyFrames(Signals(s.log)) == AsFrames(Frames(s.log))
  {
    var log := Played(cfg, es).log;
    EveryRunIsInStep(cfg, es);
    TapeIsTheRun(cfg.fsm, log);
    FramesAreThoseLookedAt(log);
  }

  /** The frames of the log that were confident enough to count. */
  function ConfidentLooks(cfg: FsmConfig, looks: seq<Look>): nat {
    if looks == [] then 0
    else
      ConfidentLooks(cfg, looks[..|looks| - 1]) + (if looks[|looks| - 1].confidence >= cfg.minConfidence then 1 else 0)
  }

  lemma {:induction false} ConfidentFrames(cfg: FsmConfig, log: Log)
    ensures Confident(cfg, Signals(log)) == ConfidentLooks(cfg, Frames(log))
  {
    if log.After? {
      ConfidentFrames(cfg, log.before);
      if SignalOf(log.note).Some? {
        ConfidentMore(cfg, Signals(log.before), SignalOf(log.note).value);
        ConfidentOne(cfg, SignalOf(log.note).value);
      }
      if log.note.FrameClassified? { ConfidentLook(cfg, Frames(log.before), log.note.look); }
    }
  }

  lemma ConfidentOne(cfg: FsmConfig, e: Signal)
    ensures Confident(cfg, [e]) == if e.Frame? && !IsFaint(cfg, e) then 1 else 0
  {
    assert [e][1..] == [] && Confident(cfg, []) == 0;
  }

  lemma ConfidentLook(cfg: FsmConfig, looks: seq<Look>, look: Look)
    ensures ConfidentLooks(cfg, looks + [look]) ==
            ConfidentLooks(cfg, looks) + if look.confidence >= cfg.minConfidence then 1 else 0
  {
    assert (looks + [look])[..|looks|] == looks;
  }

  /** A session cannot thrash: on every run the thresholds of all the state changes it reported
      after frames add up to no more than the confident frames it reported. */
  lemma ReportedChangesArePaidFor(cfg: SessionConfig, es: seq<Event>)
    requires cfg.interval > 0.0
    ensures var s := Played(cfg, es);
            ReportedCost(cfg.fsm, s.log) + s.fsm.streak <= ConfidentLooks(cfg.fsm, Frames(s.log))
  {
    var log := Played(cfg, es).log;
    EveryRunIsInStep(cfg, es);
    TapeIsTheRun(cfg.fsm, log);
    TransitionsArePaidFor(cfg.fsm, FRESH, Signals(log));
    ConfidentFrames(cfg.fsm, log);
  }

  /** The probes a session's machine asks for, started or not, are spaced by the cooldown. */
  lemma ProbesAskedForAreSpaced(cfg: SessionConfig, es: seq<Event>)
    requires cfg.interval > 0.0
    ensures FarApart(ProbeTimes(cfg.fsm, FRESH, Signals(Played(cfg, es).log)), cfg.fsm.refractory)
  {
    SessionsRunTheMachine(cfg, es);
    ProbeSpacing(cfg.fsm, FRESH, Signals(Played(cfg, es).log), 0.0);
  }

  // ---- every tick of a run ----

  /** The sessions in step at their next tick. */
  ghost function OnTape(cfg: SessionConfig): iset<Session> { iset s: Session | InStep(cfg, s, s.next) }

  lemma TurnKeepsStep(cfg: SessionConfig, inputs: nat -> TickInput)
    requires cfg.interval > 0.0
    ensures forall s, k :: s in OnTape(cfg) ==> Turn(cfg, inputs)(s, k) in OnTape(cfg)
  {
    forall s, k: nat | s in OnTape(cfg) ensures Turn(cfg, inputs)(s, k) in OnTape(cfg) {
      AdvancedInStep(cfg, s, inputs(k));
    }
  }

  /** The session as the n-th tick of the feed after a run finds it. */
  function Found(cfg: SessionConfig, es: seq<Event>, pcm: seq<int>, inputs: nat -> TickInput, n: nat): Session
    requires cfg.interval > 0.0
  {
    Turns(Turn(cfg, inputs), CaughtUp(cfg, Received(cfg, Played(cfg, es), pcm)), 0, n)
  }

  lemma EveryTickIsInStep(cfg: SessionConfig, es: seq<Event>, pcm: seq<int>, inputs: nat -> TickInput, n: nat)
    requires cfg.interval > 0.0
    ensures var s := Found(cfg, es, pcm, inputs, n);
            InStep(cfg, s, s.next)
  {
    var s := Played(cfg, es);
    var s1 := CaughtUp(cfg, Received(cfg, s, pcm));
    EveryRunIsInStep(cfg, es);
    LaterInStep(cfg, s, s1, s.next, s1.next);
    assert s1 in OnTape(cfg);
    TurnKeepsStep(cfg, inputs);
    TurnsStay(Turn(cfg, inputs), OnTape(cfg), s1, 0, n);
  }

  lemma RewakeInStep(cfg: SessionConfig, s: Session, now: real, inp: TickInput)
    requires InStep(cfg, s, now) && s.fsm.state.IvrMenu?
    requires Observed(cfg.fsm, s.fsm, inp.sound, inp.confidence, now).1.WakeTier2Menu?
    ensures inp.confidence >= cfg.fsm.minConfidence
    ensures NewPromptHeard(cfg.fsm, JournalRun(cfg.fsm, BLANK, Signals(s.log)), inp.sound, now)
  {
    TapeIsTheRun(cfg.fsm, s.log);
    EveryRewakeFollowsANewPrompt(cfg.fsm, Signals(s.log), inp.sound, inp.confidence, now);
  }

  /** A tick of any run that finds the call in a menu asks for it to be read again only on the
      evidence of the call's own log: the prompt ended since the last entry, keypress or wake, and
      so on. */
  lemma SessionRewakesFollowANewPrompt(
      cfg: SessionConfig, es: seq<Event>, pcm: seq<int>, inputs: nat -> TickInput, n: nat)
    requires cfg.interval > 0.0
    requires var s := Found(cfg, es, pcm, inputs, n);
             && s.fsm.state.IvrMenu?
             && Observed(cfg.fsm, s.fsm, inputs(n).sound, inputs(n).confidence, s.next).1.WakeTier2Menu?
    ensures var s := Found(cfg, es, pcm, inputs, n);
            && inputs(n).confidence >= cfg.fsm.minConfidence
            && NewPromptHeard(cfg.fsm, JournalRun(cfg.fsm, BLANK, Signals(s.log)), inputs(n).sound, s.next)
  {
    var s := Found(cfg, es, pcm, inputs, n);
    EveryTickIsInStep(cfg, es, pcm, inputs, n);
    RewakeInStep(cfg, s, s.next, inputs(n));
  }
}
