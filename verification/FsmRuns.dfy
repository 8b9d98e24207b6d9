/** What the debouncing, the hysteresis and the cooldowns add up to over whole runs
    of the call state machine. */
module FsmRuns {
  import opened Prelude
  import opened CallFsm

  lemma {:induction false} RunMore(cfg: FsmConfig, s: Fsm, es: seq<Signal>, e: Signal)
    ensures Run(cfg, s, es + [e]) == Step(cfg, Run(cfg, s, es), e).0
    decreases |es|
  {
    if es == [] {
      assert [] + [e] == [e];
      assert Run(cfg, s, [e]) == Run(cfg, Step(cfg, s, e).0, []);
    } else {
      assert (es + [e])[0] == es[0] && (es + [e])[1..] == es[1..] + [e];
      RunMore(cfg, Step(cfg, s, es[0]).0, es[1..], e);
    }
  }

  // ---- low-confidence frames leave no trace ----

  /** How many more frames of a label in a row reach a threshold; one more is always needed. */
  function Missing(threshold: int, s: Fsm, heard: Label): nat {
    var have := if s.streakLabel == Some(heard) then s.streak else 0;
    if threshold - have > 1 then threshold - have else 1
  }

  predicate AllPositive(cfg: FsmConfig) {
    && cfg.enterMenuFrames > 0 && cfg.enterHoldFrames > 0 && cfg.dialingToHoldFrames > 0
    && cfg.reenterMenuFrames > 0 && cfg.enterEvalFrames > 0 && cfg.leaveEvalFrames > 0
    && cfg.nonConnectFrames > 0 && cfg.menuGapFrames > 0 && cfg.menuSpeechToHoldFrames > 0
  }

  predicate IsFaint(cfg: FsmConfig, e: Signal) { e.Frame? && e.confidence < cfg.minConfidence }

  /** The run with its low-confidence frames deleted. */
  function Erased(cfg: FsmConfig, es: seq<Signal>): seq<Signal> {
    if es == [] then []
    else if IsFaint(cfg, es[0]) then Erased(cfg, es[1..])
    else [es[0]] + Erased(cfg, es[1..])
  }

  /** The actions that ask for something. */
  function Loud(actions: seq<Action>): seq<Action> {
    if actions == [] then []
    else if actions[0].NoAction? then Loud(actions[1..])
    else [actions[0]] + Loud(actions[1..])
  }

  predicate ErasureHolds(cfg: FsmConfig, s: Fsm, es: seq<Signal>) {
    && Run(cfg, s, Erased(cfg, es)) == Run(cfg, s, es)
    && Loud(Actions(cfg, s, Erased(cfg, es))) == Loud(Actions(cfg, s, es))
  }

  lemma {:induction false} ErasureWhenPositive(cfg: FsmConfig, s: Fsm, es: seq<Signal>)
    requires AllPositive(cfg)
    ensures ErasureHolds(cfg, s, es)
    decreases |es|
  {
    if es != [] {
      var (s1, a) := Step(cfg, s, es[0]);
      ErasureWhenPositive(cfg, s1, es[1..]);
      if IsFaint(cfg, es[0]) {
        assert s1 == s && a == NoAction;
      } else {
        assert Erased(cfg, es)[1..] == Erased(cfg, es[1..]);
      }
    }
  }

  lemma {:induction false} ErasedMore(cfg: FsmConfig, es: seq<Signal>, e: Signal)
    ensures Erased(cfg, es + [e]) == Erased(cfg, es) + (if IsFaint(cfg, e) then [] else [e])
  {
    if es == [] {
      assert [] + [e] == [e] && Erased(cfg, [e][1..]) == [];
    } else {
      assert (es + [e])[0] == es[0] && (es + [e])[1..] == es[1..] + [e];
      ErasedMore(cfg, es[1..], e);
    }
  }

  /** Some run without low-confidence frames leads from the fresh machine to s. */
  ghost predicate ClearlyReached(cfg: FsmConfig, s: Fsm) {
    exists es :: Erased(cfg, es) == es && Run(cfg, FRESH, es) == s
  }

  lemma FreshIsReached(cfg: FsmConfig)
    ensures ClearlyReached(cfg, FRESH)
  {
    assert Erased(cfg, []) == [] && Run(cfg, FRESH, []) == FRESH;
  }

  lemma StepIsReached(cfg: FsmConfig, s: Fsm, e: Signal)
    requires ClearlyReached(cfg, s) && !IsFaint(cfg, e)
    ensures ClearlyReached(cfg, Step(cfg, s, e).0)
  {
    var es :| Erased(cfg, es) == es && Run(cfg, FRESH, es) == s;
    ErasedMore(cfg, es, e);
    RunMore(cfg, FRESH, es, e);
  }

  function Clear(cfg: FsmConfig, heard: Label): Signal { Frame(heard, cfg.minConfidence, 0.0) }

  /** Nothing holds a probe or a keypress back yet. */
  predicate Cold(s: Fsm) { s.refractoryUntil == s.menuRefractoryUntil == 0.0 }

  /** From dialing to a menu just entered, by menu speech. */
  lemma {:induction false} MenuIsReached(cfg: FsmConfig, s: Fsm, left: nat) returns (r: Fsm)
    requires ClearlyReached(cfg, s) && s.state.Dialing? && Cold(s)
    requires Missing(cfg.enterMenuFrames, s, MenuSpeaking) <= left
    ensures ClearlyReached(cfg, r) && r.state.IvrMenu? && Cold(r) && !r.menuGapSeen && r.menuNoops == 0
    decreases left
  {
    var s1 := Step(cfg, s, Clear(cfg, MenuSpeaking)).0;
    StepIsReached(cfg, s, Clear(cfg, MenuSpeaking));
    if s1.state.IvrMenu? { r := s1; } else { r := MenuIsReached(cfg, s1, left - 1); }
  }

  /** A menu that has been read in vain n times. */
  lemma {:induction false} VainMenuIsReached(cfg: FsmConfig, n: nat) returns (r: Fsm)
    ensures ClearlyReached(cfg, r) && r.state.IvrMenu? && Cold(r) && !r.menuGapSeen && r.menuNoops == n
  {
    if n == 0 {
      FreshIsReached(cfg);
      r := MenuIsReached(cfg, FRESH, Missing(cfg.enterMenuFrames, FRESH, MenuSpeaking));
    } else {
      var s := VainMenuIsReached(cfg, n - 1);
      StepIsReached(cfg, s, Abstained);
      r := Step(cfg, s, Abstained).0;
    }
  }

  /** From dialing to the queue, by hold music. */
  lemma {:induction false} QueueIsReached(cfg: FsmConfig, s: Fsm, left: nat) returns (r: Fsm)
    requires ClearlyReached(cfg, s) && s.state.Dialing? && Cold(s)
    requires Missing(cfg.dialingToHoldFrames, s, HoldMusic) <= left
    ensures ClearlyReached(cfg, r) && r.state.OnHold? && Cold(r)
    decreases left
  {
    var s1 := Step(cfg, s, Clear(cfg, HoldMusic)).0;
    StepIsReached(cfg, s, Clear(cfg, HoldMusic));
    if s1.state.OnHold? { r := s1; } else { r := QueueIsReached(cfg, s1, left - 1); }
  }

  /** From the queue to a probe, by live speech. */
  lemma {:induction false} ProbeIsReached(cfg: FsmConfig, s: Fsm, left: nat) returns (r: Fsm)
    requires ClearlyReached(cfg, s) && s.state.OnHold? && Cold(s)
    requires Missing(cfg.enterEvalFrames, s, LiveSpeechCandidate) <= left
    ensures ClearlyReached(cfg, r) && r.state.EvaluatingSpeech?
    decreases left
  {
    var s1 := Step(cfg, s, Clear(cfg, LiveSpeechCandidate)).0;
    StepIsReached(cfg, s, Clear(cfg, LiveSpeechCandidate));
    if s1.state.EvaluatingSpeech? { r := s1; } else { r := ProbeIsReached(cfg, s1, left - 1); }
  }

  /** A low-confidence frame that acts. */
  predicate Leaks(cfg: FsmConfig, s: Fsm, heard: Label) {
    Step(cfg, s, Frame(heard, cfg.minConfidence - 1.0, 0.0)).0 != s
  }

  /** A threshold of zero or less lets one act, in a state that is reached without any. */
  lemma SomeFrameLeaks(cfg: FsmConfig) returns (s: Fsm, heard: Label)
    requires !AllPositive(cfg)
    ensures ClearlyReached(cfg, s) && Leaks(cfg, s, heard)
  {
    FreshIsReached(cfg);
    if cfg.nonConnectFrames <= 0 {
      s, heard := FRESH, Voicemail;
    } else if cfg.enterMenuFrames <= 0 {
      s, heard := FRESH, MenuSpeaking;
    } else if cfg.dialingToHoldFrames <= 0 {
      s, heard := FRESH, HoldMusic;
    } else if cfg.enterHoldFrames <= 0 || cfg.menuGapFrames <= 0 || cfg.menuSpeechToHoldFrames <= 0 {
      s := VainMenuIsReached(cfg, if cfg.menuNoopsBeforeHold > 0 then cfg.menuNoopsBeforeHold else 0);
      heard := if cfg.enterHoldFrames <= 0 then HoldMusic
               else if cfg.menuGapFrames <= 0 then Silence
               else LiveSpeechCandidate;
    } else {
      s := QueueIsReached(cfg, FRESH, Missing(cfg.dialingToHoldFrames, FRESH, HoldMusic));
      if cfg.reenterMenuFrames <= 0 {
        heard := MenuSpeaking;
      } else if cfg.enterEvalFrames <= 0 {
        heard := LiveSpeechCandidate;
      } else {
        s := ProbeIsReached(cfg, s, Missing(cfg.enterEvalFrames, s, LiveSpeechCandidate));
        heard := Silence;
      }
    }
  }

  /** Deleting the low-confidence frames of a run of the machine never changes the final state or
      the requested actions, exactly when every frame threshold is positive. */
  lemma ErasureExactlyWhenPositive(cfg: FsmConfig)
    ensures AllPositive(cfg) <==> forall es :: ErasureHolds(cfg, FRESH, es)
  {
    if AllPositive(cfg) {
      forall es ensures ErasureHolds(cfg, FRESH, es) {
        ErasureWhenPositive(cfg, FRESH, es);
      }
    } else {
      var s, heard := SomeFrameLeaks(cfg);
      var es :| Erased(cfg, es) == es && Run(cfg, FRESH, es) == s;
      var e := Frame(heard, cfg.minConfidence - 1.0, 0.0);
      ErasedMore(cfg, es, e);
      RunMore(cfg, FRESH, es, e);
      assert es + [] == es;
      assert !ErasureHolds(cfg, FRESH, es + [e]);
    }
  }

  // ---- every transition is paid for with fresh frames ----

  /** The frame threshold on the edge an observation takes. */
  function Threshold(cfg: FsmConfig, from: CallState, to: CallState, heard: Label): int
    requires IsLive(from) && to != from
  {
    match (from, to)
    case (_, Failed) => cfg.nonConnectFrames
    case (Dialing, IvrMenu) => cfg.enterMenuFrames
    case (Dialing, _) => cfg.dialingToHoldFrames
    case (IvrMenu, _) => if heard.LiveSpeechCandidate? then cfg.menuSpeechToHoldFrames else cfg.enterHoldFrames
    case (OnHold, IvrMenu) => cfg.reenterMenuFrames
    case (OnHold, _) => cfg.enterEvalFrames
    case (_, _) => cfg.leaveEvalFrames
  }

  /** What one signal costs: the threshold of the transition, if it is a frame that takes one. */
  function CostOf(cfg: FsmConfig, s: Fsm, e: Signal): int {
    var s1 := Step(cfg, s, e).0;
    if e.Frame? && s1.state != s.state then Threshold(cfg, s.state, s1.state, e.heard) else 0
  }

  /** The thresholds of the transitions taken on frames, added up. */
  function Cost(cfg: FsmConfig, s: Fsm, es: seq<Signal>): int
    decreases |es|
  {
    if es == [] then 0 else CostOf(cfg, s, es[0]) + Cost(cfg, Step(cfg, s, es[0]).0, es[1..])
  }

  lemma {:induction false} CostMore(cfg: FsmConfig, s: Fsm, es: seq<Signal>, e: Signal)
    ensures Cost(cfg, s, es + [e]) == Cost(cfg, s, es) + CostOf(cfg, Run(cfg, s, es), e)
    decreases |es|
  {
    if es == [] {
      assert [] + [e] == [e];
      assert Cost(cfg, s, [e]) == CostOf(cfg, s, e) + Cost(cfg, Step(cfg, s, e).0, []);
    } else {
      assert (es + [e])[0] == es[0] && (es + [e])[1..] == es[1..] + [e];
      CostMore(cfg, Step(cfg, s, es[0]).0, es[1..], e);
    }
  }

  function Confident(cfg: FsmConfig, es: seq<Signal>): nat {
    if es == [] then 0
    else (if es[0].Frame? && !IsFaint(cfg, es[0]) then 1 else 0) + Confident(cfg, es[1..])
  }

  lemma {:induction false} ConfidentMore(cfg: FsmConfig, es: seq<Signal>, e: Signal)
    ensures Confident(cfg, es + [e]) == Confident(cfg, es) + Confident(cfg, [e])
  {
    if es == [] {
      assert [] + [e] == [e];
    } else {
      assert (es + [e])[0] == es[0] && (es + [e])[1..] == es[1..] + [e];
      ConfidentMore(cfg, es[1..], e);
    }
  }

  lemma StepIsPaidFor(cfg: FsmConfig, s: Fsm, e: Signal)
    ensures var s1 := Step(cfg, s, e).0;
            if !e.Frame? then s1.streak <= s.streak
            else if s1.state == s.state then s1.streak <= s.streak + Confident(cfg, [e])
            else
              && IsLive(s.state)
              && s1.streak == 0
              && Threshold(cfg, s.state, s1.state, e.heard) <= s.streak + Confident(cfg, [e])
  {
    match s.state {
      case Dialing =>
      case IvrMenu =>
      case OnHold =>
      case EvaluatingSpeech =>
      case _ =>
    }
  }

  /** The amortised bound on thrashing. The streak is the credit: a confident frame adds at
      most one, a transition spends its threshold out of it and forfeits the rest. */
  lemma {:induction false} TransitionsArePaidFor(cfg: FsmConfig, s: Fsm, es: seq<Signal>)
    ensures Cost(cfg, s, es) + Run(cfg, s, es).streak <= s.streak + Confident(cfg, es)
    decreases |es|
  {
    if es != [] {
      TransitionsArePaidFor(cfg, Step(cfg, s, es[0]).0, es[1..]);
      StepIsPaidFor(cfg, s, es[0]);
    }
  }

  // ---- probes are spaced by the cooldown ----

  function TimeOf(e: Signal): Option<real> {
    match e
    case Frame(_, _, now) => Some(now)
    case Verdict(_, now) => Some(now)
    case Pressed(now) => Some(now)
    case _ => None
  }

  /** The signals carry nondecreasing times, none before `clock`. */
  predicate Ordered(es: seq<Signal>, clock: real) {
    es == [] ||
    match TimeOf(es[0])
    case None => Ordered(es[1..], clock)
    case Some(now) => clock <= now && Ordered(es[1..], now)
  }

  /** The last time any of the signals carries, and `clock` before all of them. */
  function LastTime(es: seq<Signal>, clock: real): real {
    if es == [] then clock else LastTime(es[1..], if TimeOf(es[0]).Some? then TimeOf(es[0]).value else clock)
  }

  lemma {:induction false} OrderedMore(es: seq<Signal>, clock: real, e: Signal)
    requires Ordered(es, clock) && (TimeOf(e).Some? ==> LastTime(es, clock) <= TimeOf(e).value)
    ensures Ordered(es + [e], clock)
    ensures LastTime(es + [e], clock) == if TimeOf(e).Some? then TimeOf(e).value else LastTime(es, clock)
    decreases |es|
  {
    if es == [] {
      assert [] + [e] == [e];
      assert Ordered([], if TimeOf(e).Some? then TimeOf(e).value else clock);
      assert LastTime([e], clock) == LastTime([], if TimeOf(e).Some? then TimeOf(e).value else clock);
    } else {
      assert (es + [e])[0] == es[0] && (es + [e])[1..] == es[1..] + [e];
      OrderedMore(es[1..], if TimeOf(es[0]).Some? then TimeOf(es[0]).value else clock, e);
    }
  }

  /** When each probe was asked for. */
  function ProbeTimes(cfg: FsmConfig, s: Fsm, es: seq<Signal>): seq<real>
    decreases |es|
  {
    if es == [] then []
    else
      var (s1, a) := Step(cfg, s, es[0]);
      (if a.WakeTier2Probe? then [es[0].now] else []) + ProbeTimes(cfg, s1, es[1..])
  }

  /** No probe can be asked for before `due`. */
  predicate NotBefore(cfg: FsmConfig, s: Fsm, clock: real, due: real) {
    if s.state.EvaluatingSpeech? then clock + cfg.refractory >= due
    else IsLive(s.state) ==> s.refractoryUntil >= due
  }

  predicate SpacedBy(ts: seq<real>, pause: real) { forall k :: 0 < k < |ts| ==> ts[k] >= ts[k - 1] + pause }

  predicate FarApart(ts: seq<real>, pause: real) {
    forall i, j :: 0 <= i <= j < |ts| ==> ts[j] >= ts[i] + (j - i) as real * pause
  }

  /** No signal at or after the clock asks for a probe before it is due, or brings the date forward. */
  lemma StepIsNotBefore(cfg: FsmConfig, s: Fsm, e: Signal, clock: real, due: real)
    requires NotBefore(cfg, s, clock, due) && (TimeOf(e).Some? ==> clock <= TimeOf(e).value)
    ensures var (s1, a) := Step(cfg, s, e);
            if a.WakeTier2Probe? then e.Frame? && e.now >= due && s1.state.EvaluatingSpeech?
            else NotBefore(cfg, s1, if TimeOf(e).Some? then TimeOf(e).value else clock, due)
  {
  }

  lemma SpacedFrom(t: real, ts: seq<real>, pause: real)
    requires SpacedBy(ts, pause) && (ts != [] ==> ts[0] >= t + pause)
    ensures SpacedBy([t] + ts, pause)
  {
    forall k | 0 < k < |[t] + ts| ensures ([t] + ts)[k] >= ([t] + ts)[k - 1] + pause {
      assert ([t] + ts)[k] == ts[k - 1];
    }
  }

  lemma {:induction false} SuccessiveProbes(cfg: FsmConfig, s: Fsm, es: seq<Signal>, clock: real, due: real)
    requires Ordered(es, clock) && NotBefore(cfg, s, clock, due)
    ensures var ts := ProbeTimes(cfg, s, es);
            && (ts != [] ==> ts[0] >= due)
            && SpacedBy(ts, cfg.refractory)
    decreases |es|
  {
    if es != [] {
      var (s1, a) := Step(cfg, s, es[0]);
      StepIsNotBefore(cfg, s, es[0], clock, due);
      if a.WakeTier2Probe? {
        SuccessiveProbes(cfg, s1, es[1..], es[0].now, es[0].now + cfg.refractory);
        SpacedFrom(es[0].now, ProbeTimes(cfg, s1, es[1..]), cfg.refractory);
      } else {
        SuccessiveProbes(cfg, s1, es[1..], if TimeOf(es[0]).Some? then TimeOf(es[0]).value else clock, due);
      }
    }
  }

  lemma {:induction false} SpacingFrom(ts: seq<real>, pause: real, i: nat, j: nat)
    requires i <= j < |ts| && SpacedBy(ts, pause)
    ensures ts[j] >= ts[i] + (j - i) as real * pause
    decreases j - i
  {
    if i < j {
      SpacingFrom(ts, pause, i, j - 1);
      assert (j - 1 - i) as real * pause + pause == (j - i) as real * pause;
    }
  }

  lemma SpacingAddsUp(ts: seq<real>, pause: real)
    requires SpacedBy(ts, pause)
    ensures FarApart(ts, pause)
  {
    forall i, j | 0 <= i <= j < |ts| ensures ts[j] >= ts[i] + (j - i) as real * pause {
      SpacingFrom(ts, pause, i, j);
    }
  }

  /** Any two probes of a run are as many cooldowns apart in time as they are in number. */
  lemma ProbeSpacing(cfg: FsmConfig, s: Fsm, es: seq<Signal>, clock: real)
    requires Ordered(es, clock)
    ensures FarApart(ProbeTimes(cfg, s, es), cfg.refractory)
  {
    var due := if s.state.EvaluatingSpeech? then clock + cfg.refractory else s.refractoryUntil;
    SuccessiveProbes(cfg, s, es, clock, due);
    SpacingAddsUp(ProbeTimes(cfg, s, es), cfg.refractory);
  }

  // ---- a queue without music is left for the probe ----

  /** A frame of the stretch: too faint to count, or live speech after both cooldowns. */
  predicate SpeechOrFaint(cfg: FsmConfig, s: Fsm, e: Signal) {
    e.Frame? && (IsFaint(cfg, e)
                 || (e.heard.LiveSpeechCandidate? && e.now >= s.menuRefractoryUntil && e.now >= s.refractoryUntil))
  }

  /** No faint frame fails a call, or takes it out of the queue into a menu. */
  predicate FaintIsHarmless(cfg: FsmConfig) { cfg.nonConnectFrames > 0 && cfg.reenterMenuFrames > 0 }

  function AtLeastOne(threshold: int): nat { if threshold > 1 then threshold else 1 }

  lemma {:induction false} SpeechReachesTheProbe(cfg: FsmConfig, s: Fsm, es: seq<Signal>)
    requires FaintIsHarmless(cfg)
    requires forall e :: e in es ==> SpeechOrFaint(cfg, s, e)
    requires s.state.OnHold? || (s.state.IvrMenu? && s.menuNoops >= cfg.menuNoopsBeforeHold)
    requires Confident(cfg, es) >=
             if s.state.OnHold? then Missing(cfg.enterEvalFrames, s, LiveSpeechCandidate)
             else Missing(cfg.menuSpeechToHoldFrames, s, LiveSpeechCandidate) + AtLeastOne(cfg.enterEvalFrames)
    ensures WakeTier2Probe in Actions(cfg, s, es)
    decreases |es|
  {
    var (s1, a) := Step(cfg, s, es[0]);
    assert SpeechOrFaint(cfg, s, es[0]);
    if !a.WakeTier2Probe? {
      forall e | e in es[1..] ensures SpeechOrFaint(cfg, s1, e) {
        assert e in es;
        assert SpeechOrFaint(cfg, s, e);
      }
      SpeechReachesTheProbe(cfg, s1, es[1..]);
    }
  }

  /** In a menu that gave nothing to press, once both cooldowns are over, this many confident
      speech frames bring the probe, whatever faint frames lie between them. */
  lemma MusiclessQueueReachesTheProbe(cfg: FsmConfig, s: Fsm, es: seq<Signal>)
    requires FaintIsHarmless(cfg)
    requires s.state.IvrMenu? && s.menuNoops >= cfg.menuNoopsBeforeHold
    requires forall e :: e in es ==> SpeechOrFaint(cfg, s, e)
    requires Confident(cfg, es) >= AtLeastOne(cfg.menuSpeechToHoldFrames) + AtLeastOne(cfg.enterEvalFrames)
    ensures WakeTier2Probe in Actions(cfg, s, es)
  {
    SpeechReachesTheProbe(cfg, s, es);
  }

  // ---- narration without a pause never wakes the model again ----

  predicate StaysInMenu(cfg: FsmConfig, s: Fsm, es: seq<Signal>)
    decreases |es|
  {
    s.state.IvrMenu? && (es == [] || StaysInMenu(cfg, Step(cfg, s, es[0]).0, es[1..]))
  }

  lemma {:induction false} GapFreeNarrationNeverRewakes(cfg: FsmConfig, s: Fsm, es: seq<Signal>)
    requires StaysInMenu(cfg, s, es) && !s.menuGapSeen
    requires forall e :: e in es && e.Frame? ==> e.heard !in {HoldMusic, HoldInterjection, Silence}
    ensures WakeTier2Menu !in Actions(cfg, s, es)
    decreases |es|
  {
    if es != [] {
      var s1 := Step(cfg, s, es[0]).0;
      assert es[0] in es;
      GapFreeNarrationNeverRewakes(cfg, s1, es[1..]);
    }
  }
}
