/** What holds on every run of a session, whatever the outside world answers: one Tier 2 job at
    a time, a bound on keypresses, and exactly one way to end. */
module SessionRuns {
  import opened Prelude
  import opened CallFsm
  import opened Session

  // ---- the invariant ----

  function InFlight(s: Session): nat { if s.kind.Some? then 1 else 0 }

  function MenuInFlight(s: Session): nat { if s.kind == Some(MenuJob) then 1 else 0 }

  /** The executor's slot and the session's idea of it are the same, no answer was lost or read
      as the wrong kind, and every job started has been answered but the one in flight. */
  predicate SingleFlight(cfg: SessionConfig, s: Session) {
    && (if s.kind.None? then s.slot.Empty?
        else !s.slot.Empty? && s.slot.kind == s.kind.value && s.slot.Ready? == cfg.inlineJobs)
    && Jobs(s.log) == (Jobs(s.log).1 + InFlight(s), Jobs(s.log).1, 0)
  }

  function Cap(cfg: SessionConfig): nat { if cfg.fsm.maxMenuPresses > 0 then cfg.fsm.maxMenuPresses else 0 }

  /** Threaded jobs and a collecting time let a wake be asked for while a job is in flight, and be
      served after it. Inline jobs are answered at once; and without a collecting time a wake is
      dropped in the tick that asks for it. */
  predicate WakesOverlap(cfg: SessionConfig) { !cfg.inlineJobs && cfg.menuCollect > 0.0 }

  /** How many keys a call can press that entered menus so often. */
  function Rail(cfg: SessionConfig, entries: nat): nat {
    if entries == 0 then 0
    else if WakesOverlap(cfg) then Cap(cfg) + entries
    else if Cap(cfg) > 1 then Cap(cfg) + entries - 1
    else entries
  }

  /** A wake that is due or asked for, unless it is about to be dropped. */
  function Pending(cfg: SessionConfig, s: Session, asks: Action): nat {
    if (asks.WakeTier2Menu? || s.wakeDue.Some?) && !(cfg.menuCollect <= 0.0 && s.kind == Some(MenuJob)) then 1 else 0
  }

  /** The keypress potential: keys pressed, plus the menu job in flight, plus the pending wake. An
      entry into a menu raises it by one, and so does a wake inside a menu, for which the press cap
      leaves room: there the keys not counted are fewer than the entries. */
  predicate PressesBounded(cfg: SessionConfig, s: Session, asks: Action) {
    var (entries, digits) := Keys(s.log);
    var unspent := if s.fsm.state.IvrMenu? || s.kind == Some(MenuJob) then 1 else 0;
    && digits + MenuInFlight(s) + Pending(cfg, s, asks) <= Rail(cfg, entries)
    && s.fsm.menuPresses <= digits
    && digits + unspent <= s.fsm.menuPresses + entries
    && (cfg.menuCollect <= 0.0 && !asks.WakeTier2Menu? ==> s.wakeDue.None?)
  }

  const NOT_ENDED := Ending(0, 0, 0, 0, 0)

  /** Within a tick, `asks` being what the machine asked for and nobody has done yet. */
  predicate Status(cfg: SessionConfig, s: Session, asks: Action) {
    if s.finished then
      && asks.NoAction? && EndOf(s.log) == Ending(0, 1, 0, 1, 0) && s.fsm.state.Failed?
      && (cfg.inlineJobs ==> s.kind.None?)
    else
      && EndOf(s.log) == NOT_ENDED
      && (asks.NoAction? || (cfg.inlineJobs ==> s.kind.None?))
      && match asks
         case NoAction => IsLive(s.fsm.state)
         case WakeTier2Menu => s.fsm.state.IvrMenu?
         case WakeTier2Probe => s.fsm.state.EvaluatingSpeech?
         case Bridge => s.fsm.state.HumanDetected?
         case Fail => s.fsm.state.Failed?
  }

  predicate Mid(cfg: SessionConfig, s: Session, asks: Action) {
    && SingleFlight(cfg, s)
    && Replay(s.log) == Some(s.fsm.state)
    && PressesBounded(cfg, s, asks)
    && Status(cfg, s, asks)
  }

  /** The last notes of a completed call, from the verdict to the completion. */
  function Epilogue(log: Log, t: real): Log {
    var l1 := After(After(log, ProbeResult(t, true)), StateChanged(t, EvaluatingSpeech, HumanDetected));
    var l2 := After(After(l1, HumanWasDetected(t)), HookBridge(Started));
    var l3 := After(After(l2, StateChanged(t, HumanDetected, Bridging)), BridgeStarted(t));
    After(After(l3, StateChanged(t, Bridging, Done)), CallCompleted(t))
  }

  ghost predicate EndsWell(s: Session) {
    && s.fsm.state.Done?
    && EndOf(s.log) == Ending(1, 0, 1, 0, 0)
    && exists log, t :: s.log == Epilogue(log, t) && Replay(log) == Some(EvaluatingSpeech)
  }

  predicate EndsBadly(cfg: SessionConfig, s: Session) {
    var e := EndOf(s.log);
    && e == Ending(0, e.failed, 0, e.failed, 0)
    && 1 <= e.failed <= (if cfg.inlineJobs then 1 else 2)
  }

  /** Between ticks. */
  ghost predicate Rest(cfg: SessionConfig, s: Session) {
    && SingleFlight(cfg, s)
    && (cfg.inlineJobs ==> s.kind.None?)
    && Replay(s.log) == Some(s.fsm.state)
    && PressesBounded(cfg, s, NoAction)
    && if s.finished then EndsWell(s) || EndsBadly(cfg, s)
       else EndOf(s.log) == NOT_ENDED && IsLive(s.fsm.state)
  }

  /** The states a session can be in between ticks. */
  ghost function Settled(cfg: SessionConfig): iset<Session> { iset s: Session | Rest(cfg, s) }

  // ---- what each operation adds to the books ----

  function Books(log: Log): (Option<CallState>, (nat, nat), (nat, nat, nat), Ending) {
    (Replay(log), Keys(log), Jobs(log), EndOf(log))
  }

  lemma FailureBooks(s: Session, now: real, reason: string)
    ensures var r := FailedWith(s, now, reason);
            var e := EndOf(s.log);
            && r == s.(log := r.log, finished := true)
            && Books(r.log) ==
               (Replay(s.log), Keys(s.log), Jobs(s.log), e.(failed := e.failed + 1, hooks := e.hooks + 1))
  {
    var s1 := Emitted(s, CallFailed(now, reason));
    assert Books(s1.log) == (Replay(s.log), Keys(s.log), Jobs(s.log), EndOf(s.log).(failed := EndOf(s.log).failed + 1));
  }

  lemma StartedBooks(cfg: SessionConfig, s: Session, kind: Kind, now: real, outcome: Outcome)
    requires s.slot.Empty?
    ensures var r := JobStarted(cfg, s, kind, now, outcome);
            var (w, a, m) := Jobs(s.log);
            && r == s.(log := r.log, kind := Some(kind),
                       slot := if cfg.inlineJobs then Ready(kind, outcome) else Running(kind))
            && Books(r.log) == (Replay(s.log), Keys(s.log), (w + 1, a, m), EndOf(s.log))
  {
  }

  // ---- each stage of a tick keeps the invariant ----

  lemma ClassifiedKeeps(cfg: SessionConfig, s: Session, fsm: Fsm, asks: Action, now: real, inp: TickInput)
    requires Rest(cfg, s) && !s.finished && LegalFrame(cfg.fsm, s.fsm, (fsm, asks))
    ensures Mid(cfg, Classified(cfg, s, fsm, now, inp), asks)
  {
    var s1 := Emitted(s, FrameClassified(LookAt(cfg, s, now, inp)));
    assert Books(s1.log) == Books(s.log);
  }

  /** What is left of the machine's wish once it is dispatched: a menu's wake has a date now. */
  function Left(asks: Action): Action { if asks.WakeTier2Menu? then asks else NoAction }

  lemma DispatchedKeeps(cfg: SessionConfig, s: Session, asks: Action, now: real, inp: TickInput)
    requires Mid(cfg, s, asks) && !asks.Bridge?
    ensures Mid(cfg, Dispatched(cfg, s, asks, now, inp), Left(asks))
    ensures asks.WakeTier2Menu? ==> Dispatched(cfg, s, asks, now, inp).wakeDue == Some(now + cfg.menuCollect)
  {
    if asks.Fail? {
      FailureBooks(s, now, "non_connect");
    } else if asks.WakeTier2Probe? && s.kind.None? {
      StartedBooks(cfg, s, ProbeJob, now, inp.outcome);
    }
  }

  lemma WakeKeeps(cfg: SessionConfig, s: Session, asks: Action, now: real, inp: TickInput)
    requires Mid(cfg, s, Left(asks)) && (asks.WakeTier2Menu? ==> s.wakeDue == Some(now + cfg.menuCollect))
    ensures Mid(cfg, WakeFired(cfg, s, now, inp), NoAction)
  {
    if s.wakeDue.Some? && now >= s.wakeDue.value && s.fsm.state.IvrMenu? && s.kind.None? {
      StartedBooks(cfg, s.(wakeDue := None), MenuJob, now, inp.outcome);
    }
  }

  lemma FailingKeeps(cfg: SessionConfig, s: Session, now: real, reason: string)
    requires SingleFlight(cfg, s) && (cfg.inlineJobs ==> s.kind.None?)
    requires Replay(s.log) == Some(s.fsm.state) && PressesBounded(cfg, s, NoAction)
    requires EndOf(s.log) == NOT_ENDED || (EndOf(s.log) == Ending(0, 1, 0, 1, 0) && !cfg.inlineJobs)
    ensures FailedWith(s, now, reason) in Settled(cfg)
    ensures EndOf(FailedWith(s, now, reason).log).failed == EndOf(s.log).failed + 1
  {
    FailureBooks(s, now, reason);
  }

  /** An answered job leaves the slot empty; only the answer itself is still to be applied. */
  function Emptied(s: Session, k: Kind): Session {
    Emitted(s.(slot := Empty, kind := None), JobAnswered(k, k))
  }

  lemma EmptiedKeeps(cfg: SessionConfig, s: Session)
    requires Mid(cfg, s, NoAction) && s.kind.Some?
    ensures var r := Emptied(s, s.kind.value);
            && SingleFlight(cfg, r) && r.kind.None? && r.fsm == s.fsm && r.finished == s.finished
            && (Replay(r.log), Keys(r.log), EndOf(r.log)) == (Replay(s.log), Keys(s.log), EndOf(s.log))
            && PressesBounded(cfg, r, NoAction)
            && (cfg.inlineJobs ==> !s.finished)
  {
  }

  lemma AbstainKeeps(cfg: SessionConfig, s: Session)
    requires Mid(cfg, s, NoAction) && s.kind == Some(MenuJob)
    ensures var r := Emitted(Emptied(s, MenuJob), MenuAbstained).(fsm := MenuAbstainNoted(s.fsm));
            r in Settled(cfg) && EndOf(r.log) == EndOf(s.log)
  {
    EmptiedKeeps(cfg, s);
    assert Books(Emitted(Emptied(s, MenuJob), MenuAbstained).log) == Books(Emptied(s, MenuJob).log);
  }

  lemma PressKeeps(cfg: SessionConfig, s: Session, digits: string, now: real)
    requires Mid(cfg, s, NoAction) && s.kind == Some(MenuJob)
    ensures var r := Emitted(Emptied(s, MenuJob), DtmfSent(now, digits)).(fsm := MenuActionNoted(cfg.fsm, s.fsm, now));
            r in Settled(cfg) && EndOf(r.log) == EndOf(s.log)
  {
    EmptiedKeeps(cfg, s);
    var s1 := Emptied(s, MenuJob);
    assert Books(Emitted(s1, DtmfSent(now, digits)).log) ==
           (Replay(s.log), (Keys(s.log).0, Keys(s.log).1 + 1), Jobs(s1.log), EndOf(s.log));
  }

  lemma MenuAnswerKeeps(cfg: SessionConfig, s: Session, digits: string, now: real)
    requires Mid(cfg, s, NoAction) && s.kind == Some(MenuJob)
    ensures MenuApplied(cfg, Emptied(s, MenuJob), digits, now) in Settled(cfg)
    ensures EndOf(MenuApplied(cfg, Emptied(s, MenuJob), digits, now).log) == EndOf(s.log)
  {
    if digits == "" { AbstainKeeps(cfg, s); } else { PressKeeps(cfg, s, digits, now); }
  }

  /** A human verdict that still counts moves the machine and nothing else. */
  function HumanFound(s: Session, now: real): Session {
    Emitted(Emitted(s, ProbeResult(now, true)).(fsm := Entered(s.fsm, HumanDetected)),
            StateChanged(now, EvaluatingSpeech, HumanDetected))
  }

  lemma HumanFoundBooks(s: Session, now: real)
    requires Replay(s.log) == Some(EvaluatingSpeech)
    ensures Books(HumanFound(s, now).log) == (Some(HumanDetected), Keys(s.log), Jobs(s.log), EndOf(s.log))
  {
    assert Books(Emitted(s, ProbeResult(now, true)).log) == Books(s.log);
  }

  lemma BridgedBooks(s: Session, now: real)
    requires s.fsm.state.HumanDetected? && Replay(s.log) == Some(HumanDetected) && EndOf(s.log) == NOT_ENDED
    ensures var r := BridgedOver(s, now, Started);
            && r == s.(log := r.log, finished := true, fsm := Entered(s.fsm, Bridging).(state := Done))
            && Books(r.log) == (Some(Done), Keys(s.log), Jobs(s.log), Ending(1, 0, 1, 0, 0))
  {
    var l1 := After(s.log, HumanWasDetected(now));
    var l2 := After(l1, HookBridge(Started));
    var l3 := After(l2, StateChanged(now, HumanDetected, Bridging));
    var l4 := After(l3, BridgeStarted(now));
    var l5 := After(l4, StateChanged(now, Bridging, Done));
    var l6 := After(l5, CallCompleted(now));
    assert Books(l1) == Books(s.log);
    assert Books(l2) == (Some(HumanDetected), Keys(s.log), Jobs(s.log), Ending(0, 0, 1, 0, 0));
    assert Books(l4) == Books(l3) == (Some(Bridging), Keys(s.log), Jobs(s.log), Ending(0, 0, 1, 0, 0));
    assert Books(l5) == (Some(Done), Keys(s.log), Jobs(s.log), Ending(0, 0, 1, 0, 0));
    assert BridgedOver(s, now, Started).log == l6;
  }

  lemma HandedOverKeeps(cfg: SessionConfig, s: Session, now: real)
    requires SingleFlight(cfg, s) && s.kind.None? && PressesBounded(cfg, s, NoAction)
    requires Replay(s.log) == Some(EvaluatingSpeech) && EndOf(s.log) == NOT_ENDED && s.fsm.state.EvaluatingSpeech?
    ensures BridgedOver(HumanFound(s, now), now, Started) in Settled(cfg)
  {
    var s1 := HumanFound(s, now);
    HumanFoundBooks(s, now);
    BridgedBooks(s1, now);
    assert BridgedOver(s1, now, Started).log == Epilogue(s.log, now);
  }

  lemma RefusedHandoffKeeps(cfg: SessionConfig, s: Session, now: real, handoff: Handoff)
    requires SingleFlight(cfg, s) && s.kind.None? && PressesBounded(cfg, s, NoAction) && !handoff.Started?
    requires Replay(s.log) == Some(EvaluatingSpeech) && EndOf(s.log) == NOT_ENDED && s.fsm.state.EvaluatingSpeech?
    ensures BridgedOver(HumanFound(s, now), now, handoff) in Settled(cfg)
    ensures EndOf(BridgedOver(HumanFound(s, now), now, handoff).log).failed == 1
  {
    var s1 := HumanFound(s, now);
    HumanFoundBooks(s, now);
    var s2 := Emitted(s1, HumanWasDetected(now));
    var s3 := Emitted(s2, HookBridge(handoff));
    assert Books(s3.log) == Books(s2.log) == Books(s1.log);
    FailingKeeps(cfg, s3, now, if handoff.Impossible? then handoff.reason else "handoff_error");
  }

  /** The call ends in the handoff, or fails at it. */
  lemma HandoffKeeps(cfg: SessionConfig, s: Session, now: real, handoff: Handoff)
    requires SingleFlight(cfg, s) && s.kind.None? && PressesBounded(cfg, s, NoAction)
    requires Replay(s.log) == Some(EvaluatingSpeech) && EndOf(s.log) == NOT_ENDED && s.fsm.state.EvaluatingSpeech?
    ensures BridgedOver(HumanFound(s, now), now, handoff) in Settled(cfg)
    ensures EndOf(BridgedOver(HumanFound(s, now), now, handoff).log).failed <= 1
  {
    if handoff.Started? {
      HandedOverKeeps(cfg, s, now);
      HumanFoundBooks(s, now);
      BridgedBooks(HumanFound(s, now), now);
    } else {
      RefusedHandoffKeeps(cfg, s, now, handoff);
    }
  }

  lemma UnmovedByProbe(cfg: SessionConfig, s: Session, isHuman: bool, now: real, inp: TickInput)
    requires SingleFlight(cfg, s) && s.kind.None? && PressesBounded(cfg, s, NoAction)
    requires Replay(s.log) == Some(s.fsm.state) && !(isHuman && s.fsm.state.EvaluatingSpeech?)
    ensures var r := ProbeApplied(cfg, s, isHuman, now, inp);
            && r == s.(log := r.log, fsm := r.fsm)
            && Books(r.log) == (Some(r.fsm.state), Keys(s.log), Jobs(s.log), EndOf(s.log))
            && (r.fsm.menuPresses, r.fsm.state.IvrMenu?) == (s.fsm.menuPresses, s.fsm.state.IvrMenu?)
            && (r.fsm.state == s.fsm.state || (s.fsm.state.EvaluatingSpeech? && r.fsm.state.OnHold?))
  {
    var s1 := Emitted(s, ProbeResult(now, isHuman));
    assert Books(s1.log) == Books(s.log);
  }

  lemma ProbeWithoutHandoffKeeps(cfg: SessionConfig, s: Session, isHuman: bool, now: real, inp: TickInput)
    requires SingleFlight(cfg, s) && s.kind.None? && PressesBounded(cfg, s, NoAction)
    requires Replay(s.log) == Some(s.fsm.state) && !(isHuman && s.fsm.state.EvaluatingSpeech?)
    requires if s.finished then EndOf(s.log) == Ending(0, 1, 0, 1, 0) && s.fsm.state.Failed? && !cfg.inlineJobs
             else EndOf(s.log) == NOT_ENDED && IsLive(s.fsm.state)
    ensures ProbeApplied(cfg, s, isHuman, now, inp) in Settled(cfg)
    ensures EndOf(ProbeApplied(cfg, s, isHuman, now, inp).log).failed <= 1
  {
    UnmovedByProbe(cfg, s, isHuman, now, inp);
  }

  lemma ProbeAnswerKeeps(cfg: SessionConfig, s: Session, isHuman: bool, now: real, inp: TickInput)
    requires Mid(cfg, s, NoAction) && s.kind == Some(ProbeJob)
    ensures ProbeApplied(cfg, Emptied(s, ProbeJob), isHuman, now, inp) in Settled(cfg)
    ensures EndOf(ProbeApplied(cfg, Emptied(s, ProbeJob), isHuman, now, inp).log).failed <= 1
  {
    EmptiedKeeps(cfg, s);
    var s1 := Emptied(s, ProbeJob);
    if isHuman && s.fsm.state.EvaluatingSpeech? {
      HandoffKeeps(cfg, s1, now, inp.handoff);
    } else {
      ProbeWithoutHandoffKeeps(cfg, s1, isHuman, now, inp);
    }
  }

  lemma PolledKeeps(cfg: SessionConfig, s: Session, now: real, inp: TickInput)
    requires Mid(cfg, s, NoAction)
    ensures Polled(cfg, s, now, inp) in Settled(cfg)
  {
    var slot := Polling(s.slot, inp);
    if s.kind.Some? && slot.Ready? {
      var k := s.kind.value;
      match slot.outcome {
        case Raised(error) =>
          EmptiedKeeps(cfg, s);
          var reason := FatalReason(k, error);
          if reason.Some? { FailingKeeps(cfg, Emptied(s, k), now, reason.value); }
        case Value(digits, isHuman) =>
          if k.MenuJob? {
            MenuAnswerKeeps(cfg, s, digits, now);
          } else {
            ProbeAnswerKeeps(cfg, s, isHuman, now, inp);
          }
      }
    }
  }

  lemma TickKeeps(cfg: SessionConfig, s: Session, now: real, inp: TickInput)
    requires s in Settled(cfg) && !s.finished
    ensures Ticked(cfg, s, now, inp) in Settled(cfg)
  {
    var (fsm, asks) := Observed(cfg.fsm, s.fsm, inp.sound, inp.confidence, now);
    var s1 := Classified(cfg, s, fsm, now, inp);
    var s2 := Dispatched(cfg, s1, asks, now, inp);
    ClassifiedKeeps(cfg, s, fsm, asks, now, inp);
    DispatchedKeeps(cfg, s1, asks, now, inp);
    WakeKeeps(cfg, s2, asks, now, inp);
    PolledKeeps(cfg, WakeFired(cfg, s2, now, inp), now, inp);
  }

  lemma AudioSideIsFree(cfg: SessionConfig, s: Session, samples: nat, next: real, data: seq<int>)
    requires s in Settled(cfg)
    ensures s.(samples := samples, next := next, data := data) in Settled(cfg)
  {
  }

  lemma {:induction false} TicksKeep(cfg: SessionConfig, s: Session, inputs: nat -> TickInput, k: nat)
    requires cfg.interval > 0.0 && k <= 4 && Audio(s) - s.next <= Slack(cfg, k)
    requires s in Settled(cfg) && !s.finished
    ensures Ticks(cfg, s, inputs, k) in Settled(cfg)
    decreases 4 - k
  {
    if Audio(s) >= s.next {
      var s1 := Advanced(cfg, s, inputs(k));
      var s0 := Ticked(cfg, s, s.next, inputs(k));
      TickKeeps(cfg, s, s.next, inputs(k));
      AudioSideIsFree(cfg, s0, s0.samples, s1.next, s0.data);
      if s1.finished {
        assert Ticks(cfg, s, inputs, k) == s1;
      } else {
        TicksKeep(cfg, s1, inputs, k + 1);
        assert Ticks(cfg, s, inputs, k) == Ticks(cfg, s1, inputs, k + 1);
      }
    }
  }

  lemma StepKeeps(cfg: SessionConfig, s: Session, e: Event)
    requires cfg.interval > 0.0 && s in Settled(cfg)
    ensures Next(cfg, s, e) in Settled(cfg)
  {
    if !s.finished {
      match e {
        case Feed(pcm, inputs) =>
          var s1 := CaughtUp(cfg, Received(cfg, s, pcm));
          AudioSideIsFree(cfg, s, s1.samples, s1.next, s1.data);
          TicksKeep(cfg, s1, inputs, 0);
        case Abort(reason) => FailingKeeps(cfg, s, Audio(s), reason);
      }
    }
  }

  lemma {:induction false} RunKeeps(cfg: SessionConfig, es: seq<Event>)
    requires cfg.interval > 0.0
    ensures Played(cfg, es) in Settled(cfg)
  {
    if es != [] {
      RunKeeps(cfg, es[..|es| - 1]);
      StepKeeps(cfg, Played(cfg, es[..|es| - 1]), es[|es| - 1]);
    }
  }

  // ---- the main results ----

  /** One job at a time: the slot holds a job exactly when the session waits for one, of that
      kind; every start found it empty; every answer was read once, as what it was asked for. */
  lemma {:induction false} OneJobAtATime(cfg: SessionConfig, es: seq<Event>)
    requires cfg.interval > 0.0
    ensures var s := Played(cfg, es);
            var (started, answered, muddled) := Jobs(s.log);
            && (s.kind.Some? <==> !s.slot.Empty?)
            && (s.kind.Some? ==> s.slot.kind == s.kind.value)
            && started == answered + (if s.kind.Some? then 1 else 0)
            && muddled == 0
  {
    RunKeeps(cfg, es);
  }

  /** The keypress rail, as it really is: every entry into a menu is good for one keypress beyond
      the cap; but the first entry is not, unless wakes can overlap jobs. */
  lemma {:induction false} KeypressesAreBounded(cfg: SessionConfig, es: seq<Event>)
    requires cfg.interval > 0.0
    ensures var s := Played(cfg, es);
            var (entries, digits) := Keys(s.log);
            s.fsm.menuPresses <= digits <= Rail(cfg, entries) <= Cap(cfg) + entries
  {
    RunKeeps(cfg, es);
  }

  /** A call ends once: handed over, with nothing failed, or failed, with nothing handed over.
      The failure is reported once by inline jobs and at most twice by threaded ones, each time
      with its hook; nothing is classified afterwards; until then the machine is live. */
  lemma {:induction false} OneEnding(cfg: SessionConfig, es: seq<Event>)
    requires cfg.interval > 0.0
    ensures var s := Played(cfg, es);
            var e := EndOf(s.log);
            && e == Ending(e.completed, e.failed, e.completed, e.failed, 0)
            && (s.finished <==> e.completed + e.failed > 0)
            && e.completed <= 1
            && (e.completed == 1 ==> e.failed == 0 && s.fsm.state.Done?)
            && e.failed <= (if cfg.inlineJobs then 1 else 2)
            && (!s.finished ==> IsLive(s.fsm.state))
  {
    RunKeeps(cfg, es);
  }

  /** A finished call takes no further part in anything. */
  lemma FinishedIsFinal(cfg: SessionConfig, es: seq<Event>, e: Event)
    requires cfg.interval > 0.0 && Played(cfg, es).finished
    ensures Played(cfg, es + [e]) == Played(cfg, es)
  {
    assert (es + [e])[..|es|] == es;
  }

  /** The last reported state change. */
  function LastChange(log: Log): Option<(CallState, CallState)> {
    match log
    case Start => None
    case After(_, StateChanged(_, frm, to)) => Some((frm, to))
    case After(before, _) => LastChange(before)
  }

  lemma {:induction false} ReplayEndsInAnEdge(log: Log)
    requires Replay(log).Some?
    ensures match LastChange(log)
            case None => Replay(log).value.Dialing?
            case Some((frm, to)) => SessionEdge(frm, to) && Replay(log).value == to
  {
    if log.After? && !log.note.StateChanged? {
      ReplayEndsInAnEdge(log.before);
    }
  }

  /** A completed call was on hold, was found worth a probe, the probe heard a human, and the
      handoff began: in this order, and these are the last things in the log. */
  lemma CompletionNeedsAHuman(cfg: SessionConfig, es: seq<Event>)
    requires cfg.interval > 0.0 && EndOf(Played(cfg, es).log).completed > 0
    ensures exists log, t ::
              && Played(cfg, es).log == Epilogue(log, t)
              && LastChange(log) == Some((OnHold, EvaluatingSpeech))
  {
    RunKeeps(cfg, es);
    var s := Played(cfg, es);
    var log, t :| s.log == Epilogue(log, t) && Replay(log) == Some(EvaluatingSpeech);
    ReplayEndsInAnEdge(log);
  }

  /** When one tick reports two failures: the frames say the call never connected, and in the same
      tick the answer of the job in flight is an error that ends a call. Never with inline jobs. */
  lemma TwoFailuresInOneTick(cfg: SessionConfig, s: Session, now: real, inp: TickInput)
    requires s in Settled(cfg) && !s.finished
    ensures EndOf(Ticked(cfg, s, now, inp).log).failed == 2 <==>
            && Observed(cfg.fsm, s.fsm, inp.sound, inp.confidence, now).1.Fail?
            && s.kind.Some? && inp.arrived
            && inp.outcome.Raised?
            && (s.kind == Some(ProbeJob) || inp.outcome.error in {NotImplemented, CircuitOpen})
  {
    var (fsm, asks) := Observed(cfg.fsm, s.fsm, inp.sound, inp.confidence, now);
    var s1 := Classified(cfg, s, fsm, now, inp);
    var s2 := Dispatched(cfg, s1, asks, now, inp);
    var s3 := WakeFired(cfg, s2, now, inp);
    ClassifiedKeeps(cfg, s, fsm, asks, now, inp);
    DispatchedKeeps(cfg, s1, asks, now, inp);
    WakeKeeps(cfg, s2, asks, now, inp);
    PollFailures(cfg, s3, now, inp);
  }

  lemma PollFailures(cfg: SessionConfig, s: Session, now: real, inp: TickInput)
    requires Mid(cfg, s, NoAction)
    ensures EndOf(Polled(cfg, s, now, inp).log).failed == 2 <==>
            && s.finished && s.kind.Some? && inp.arrived
            && inp.outcome.Raised?
            && (s.kind == Some(ProbeJob) || inp.outcome.error in {NotImplemented, CircuitOpen})
  {
    var slot := Polling(s.slot, inp);
    if s.kind.Some? && slot.Ready? {
      var k := s.kind.value;
      EmptiedKeeps(cfg, s);
      match slot.outcome {
        case Raised(error) =>
          if FatalReason(k, error).Some? { FailureBooks(Emptied(s, k), now, FatalReason(k, error).value); }
        case Value(digits, isHuman) =>
          if k.MenuJob? {
            MenuAnswerKeeps(cfg, s, digits, now);
          } else {
            ProbeAnswerKeeps(cfg, s, isHuman, now, inp);
          }
      }
    }
  }
}
