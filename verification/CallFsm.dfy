/** The call-phase state machine: its vocabulary, one function for each of its
    operations, and the class whose fields those operations update. */
module CallFsm {
  import opened Prelude

  datatype Label =
    | Ringback | MenuSpeaking | MenuAwaitingInput | HoldMusic | HoldInterjection
    | LiveSpeechCandidate | Voicemail | ErrorTone | Silence | Unknown

  predicate IsMenu(heard: Label) { heard.MenuSpeaking? || heard.MenuAwaitingInput? }

  predicate IsSpeechy(heard: Label) { IsMenu(heard) || heard.LiveSpeechCandidate? }

  predicate IsNonConnect(heard: Label) { heard.Voicemail? || heard.ErrorTone? }

  predicate IsHold(heard: Label) { heard.HoldMusic? || heard.HoldInterjection? || heard.Silence? }

  datatype CallState =
    | Dialing | IvrMenu | OnHold | EvaluatingSpeech | HumanDetected | Bridging | Done | Failed

  predicate IsLive(state: CallState) {
    state.Dialing? || state.IvrMenu? || state.OnHold? || state.EvaluatingSpeech?
  }

  datatype Action = NoAction | WakeTier2Menu | WakeTier2Probe | Bridge | Fail

  /** The source validates none of these, so none is constrained here. */
  datatype FsmConfig = FsmConfig(
    enterMenuFrames: int,
    enterHoldFrames: int,
    dialingToHoldFrames: int,
    reenterMenuFrames: int,
    enterEvalFrames: int,
    leaveEvalFrames: int,
    nonConnectFrames: int,
    menuRefractory: real,
    menuGapFrames: int,
    maxMenuPresses: int,
    menuNoopsBeforeHold: int,
    menuSpeechToHoldFrames: int,
    refractory: real,
    minConfidence: real)

  /** The fields of the machine, as one value. */
  datatype Fsm = Fsm(
    state: CallState,
    streakLabel: Option<Label>,
    streak: nat,
    refractoryUntil: real,
    menuWoken: bool,
    menuRefractoryUntil: real,
    menuGapSeen: bool,
    menuPresses: nat,
    menuNoops: nat)

  const FRESH := Fsm(Dialing, None, 0, 0.0, false, 0.0, false, 0, 0)

  /** The moves one frame can make, and what each asks for. Only a menu can be asked about
      again without being entered, and only a probe's verdict leads to the handoff. */
  predicate FrameMove(from: CallState, asks: Action, to: CallState) {
    match asks
    case NoAction => to == from || (to.OnHold? && (from.Dialing? || from.IvrMenu? || from.EvaluatingSpeech?))
    case WakeTier2Menu => to.IvrMenu? && (from.Dialing? || from.OnHold? || from.IvrMenu?)
    case WakeTier2Probe => to.EvaluatingSpeech? && from.OnHold?
    case Fail => to.Failed? && IsLive(from)
    case Bridge => false
  }

  /** A frame's effect in outline: a legal move, no evidence carried across it, no keypress
      forgotten, and no menu read again once the keypresses are used up. */
  predicate LegalFrame(cfg: FsmConfig, s: Fsm, r: (Fsm, Action)) {
    && FrameMove(s.state, r.1, r.0.state)
    && (r.0.state != s.state ==> r.0.streak == 0 && r.0.streakLabel.None?)
    && r.0.menuPresses == s.menuPresses
    && (r.1.WakeTier2Menu? && s.state.IvrMenu? ==> s.menuPresses < cfg.maxMenuPresses)
  }

  // ---- one function per operation ----

  function Counted(cfg: FsmConfig, s: Fsm, heard: Label, confidence: real): (r: (Fsm, nat)) {
    if confidence < cfg.minConfidence then (s, 0)
    else if s.streakLabel == Some(heard) then (s.(streak := s.streak + 1), s.streak + 1)
    else (s.(streakLabel := Some(heard), streak := 1), 1)
  }

  function Entered(s: Fsm, state: CallState): Fsm {
    var kept := !state.IvrMenu?;
    s.(state := state, streakLabel := None, streak := 0,
    menuWoken := kept && s.menuWoken, menuGapSeen := kept && s.menuGapSeen,
    menuNoops := if kept then s.menuNoops else 0)
  }

  function FellBack(cfg: FsmConfig, s: Fsm, now: real): Fsm {
    Entered(s.(refractoryUntil := now + cfg.refractory), OnHold)
  }

  function HandledDialing(cfg: FsmConfig, s: Fsm, heard: Label, streak: nat): (r: (Fsm, Action))
    requires s.state.Dialing?
    ensures LegalFrame(cfg, s, r)
  {
    if IsSpeechy(heard) && streak >= cfg.enterMenuFrames then
      (Entered(s, IvrMenu).(menuWoken := true), WakeTier2Menu)
    else if heard.HoldMusic? && streak >= cfg.dialingToHoldFrames then (Entered(s, OnHold), NoAction)
    else (s, NoAction)
  }

  /** The menu has been read often enough without a keypress, and no keypress is too recent. */
  predicate GivenUpOnMenu(cfg: FsmConfig, s: Fsm, now: real) {
    s.menuNoops >= cfg.menuNoopsBeforeHold && now >= s.menuRefractoryUntil
  }

  function HandledMenu(cfg: FsmConfig, s: Fsm, heard: Label, streak: nat, now: real): (r: (Fsm, Action))
    requires s.state.IvrMenu?
    ensures LegalFrame(cfg, s, r)
  {
    if heard.HoldMusic? && streak >= cfg.enterHoldFrames then (Entered(s, OnHold), NoAction)
    else if GivenUpOnMenu(cfg, s, now) && IsHold(heard) && streak >= cfg.enterHoldFrames then
      (Entered(s, OnHold), NoAction)
    else if GivenUpOnMenu(cfg, s, now) && heard.LiveSpeechCandidate? && streak >= cfg.menuSpeechToHoldFrames then
      (Entered(s, OnHold), NoAction)
    else
      var gap := s.menuGapSeen || (IsHold(heard) && streak >= cfg.menuGapFrames);
      if IsSpeechy(heard) && gap && now >= s.menuRefractoryUntil && streak >= 2
         && s.menuPresses < cfg.maxMenuPresses
      then (s.(menuGapSeen := false, menuWoken := true), WakeTier2Menu)
      else (s.(menuGapSeen := gap), NoAction)
  }

  function HandledHold(cfg: FsmConfig, s: Fsm, heard: Label, streak: nat, now: real): (r: (Fsm, Action))
    requires s.state.OnHold?
    ensures LegalFrame(cfg, s, r)
  {
    if IsMenu(heard) && streak >= cfg.reenterMenuFrames then (Entered(s, IvrMenu), WakeTier2Menu)
    else if heard.LiveSpeechCandidate? && now >= s.refractoryUntil && streak >= cfg.enterEvalFrames then
      (Entered(s, EvaluatingSpeech), WakeTier2Probe)
    else (s, NoAction)
  }

  function HandledEvaluating(cfg: FsmConfig, s: Fsm, heard: Label, streak: nat, now: real): (r: (Fsm, Action))
    requires s.state.EvaluatingSpeech?
    ensures LegalFrame(cfg, s, r)
  {
    (if IsHold(heard) && streak >= cfg.leaveEvalFrames then FellBack(cfg, s, now) else s, NoAction)
  }

  function Observed(cfg: FsmConfig, s: Fsm, heard: Label, confidence: real, now: real): (r: (Fsm, Action))
    ensures LegalFrame(cfg, s, r)
  {
    var (s1, streak) := Counted(cfg, s, heard, confidence);
    if IsLive(s1.state) && IsNonConnect(heard) && streak >= cfg.nonConnectFrames then (Entered(s1, Failed), Fail)
    else match s1.state
      case Dialing => HandledDialing(cfg, s1, heard, streak)
      case IvrMenu => HandledMenu(cfg, s1, heard, streak, now)
      case OnHold => HandledHold(cfg, s1, heard, streak, now)
      case EvaluatingSpeech => HandledEvaluating(cfg, s1, heard, streak, now)
      case _ => (s1, NoAction)
  }

  function ProbeAnswered(cfg: FsmConfig, s: Fsm, isHuman: bool, now: real): (Fsm, Action) {
    if !s.state.EvaluatingSpeech? then (s, NoAction)
    else if isHuman then (Entered(s, HumanDetected), Bridge)
    else (FellBack(cfg, s, now), NoAction)
  }

  function MenuActionNoted(cfg: FsmConfig, s: Fsm, now: real): Fsm {
    if s.state.IvrMenu? then
      s.(menuPresses := s.menuPresses + 1, menuWoken := false, menuGapSeen := false, menuNoops := 0,
      menuRefractoryUntil := now + cfg.menuRefractory)
    else s
  }

  function MenuAbstainNoted(s: Fsm): Fsm {
    if s.state.IvrMenu? then s.(menuNoops := s.menuNoops + 1) else s
  }

  function BridgeNoted(s: Fsm): Fsm {
    if s.state.HumanDetected? then Entered(s, Bridging) else s
  }

  // ---- runs ----

  /** Everything that can happen to the machine, in any order. */
  datatype Signal =
    | Frame(heard: Label, confidence: real, now: real)
    | Verdict(isHuman: bool, now: real)
    | Pressed(now: real)
    | Abstained
    | HandoffBegun
    | Completed
    | ForcedToFail

  function Step(cfg: FsmConfig, s: Fsm, e: Signal): (Fsm, Action) {
    match e
    case Frame(heard, confidence, now) => Observed(cfg, s, heard, confidence, now)
    case Verdict(isHuman, now) => ProbeAnswered(cfg, s, isHuman, now)
    case Pressed(now) => (MenuActionNoted(cfg, s, now), NoAction)
    case Abstained => (MenuAbstainNoted(s), NoAction)
    case HandoffBegun => (BridgeNoted(s), NoAction)
    case Completed => (s.(state := Done), NoAction)
    case ForcedToFail => (s.(state := Failed), NoAction)
  }

  /** The state a run ends in. */
  function Run(cfg: FsmConfig, s: Fsm, es: seq<Signal>): Fsm
    decreases |es|
  {
    if es == [] then s else Run(cfg, Step(cfg, s, es[0]).0, es[1..])
  }

  /** The action each signal of a run returns. */
  function Actions(cfg: FsmConfig, s: Fsm, es: seq<Signal>): (r: seq<Action>)
    ensures |r| == |es|
    decreases |es|
  {
    if es == [] then [] else [Step(cfg, s, es[0]).1] + Actions(cfg, Step(cfg, s, es[0]).0, es[1..])
  }

  // ---- the class ----

  class CallStateMachine {
    const cfg: FsmConfig
    var state: CallState
    var streakLabel: Option<Label>
    var streak: nat
    var refractoryUntil: real
    var menuWoken: bool
    var menuRefractoryUntil: real
    var menuGapSeen: bool
    var menuPresses: nat
    var menuNoops: nat

    ghost function View(): Fsm
      reads this
    {
      Fsm(state, streakLabel, streak, refractoryUntil, menuWoken, menuRefractoryUntil, menuGapSeen,
          menuPresses, menuNoops)
    }

    constructor (cfg: FsmConfig)
      ensures this.cfg == cfg && View() == FRESH
    {
      this.cfg := cfg;
      state, streakLabel, streak := Dialing, None, 0;
      refractoryUntil, menuWoken, menuRefractoryUntil := 0.0, false, 0.0;
      menuGapSeen, menuPresses, menuNoops := false, 0, 0;
    }

    method StreakFor(heard: Label, confidence: real) returns (n: nat)
      modifies this
      ensures (View(), n) == Counted(cfg, old(View()), heard, confidence)
    {
      if confidence < cfg.minConfidence {
        return 0;
      }
      if streakLabel == Some(heard) {
        streak := streak + 1;
      } else {
        streakLabel := Some(heard);
        streak := 1;
      }
      return streak;
    }

    method Enter(to: CallState)
      modifies this
      ensures View() == Entered(old(View()), to)
    {
      state := to;
      streakLabel := None;
      streak := 0;
      if to == IvrMenu {
        menuWoken := false;
        menuGapSeen := false;
        menuNoops := 0;
      }
    }

    method FallBackToHold(now: real)
      modifies this
      ensures View() == FellBack(cfg, old(View()), now)
    {
      refractoryUntil := now + cfg.refractory;
      Enter(OnHold);
    }

    method Observe(heard: Label, confidence: real, now: real) returns (action: Action)
      modifies this
      ensures (View(), action) == Observed(cfg, old(View()), heard, confidence, now)
    {
      var n := StreakFor(heard, confidence);
      if IsLive(state) && IsNonConnect(heard) && n >= cfg.nonConnectFrames {
        Enter(Failed);
        return Fail;
      }
      match state {
        case Dialing => action := OnDialing(heard, n);
        case IvrMenu => action := OnIvrMenu(heard, n, now);
        case OnHold => action := OnOnHold(heard, n, now);
        case EvaluatingSpeech => action := OnEvaluatingSpeech(heard, n, now);
        case _ => action := NoAction;
      }
    }

    method OnDialing(heard: Label, n: nat) returns (action: Action)
      requires state == Dialing
      modifies this
      ensures (View(), action) == HandledDialing(cfg, old(View()), heard, n)
    {
      var speech := IsMenu(heard) || heard == LiveSpeechCandidate;
      if speech && n >= cfg.enterMenuFrames {
        Enter(IvrMenu);
        menuWoken := true;
        return WakeTier2Menu;
      }
      if heard == HoldMusic && n >= cfg.dialingToHoldFrames {
        Enter(OnHold);
      }
      return NoAction;
    }

    method OnIvrMenu(heard: Label, n: nat, now: real) returns (action: Action)
      requires state == IvrMenu
      modifies this
      ensures (View(), action) == HandledMenu(cfg, old(View()), heard, n, now)
    {
      if heard == HoldMusic && n >= cfg.enterHoldFrames {
        Enter(OnHold);
        return NoAction;
      }
      if menuNoops >= cfg.menuNoopsBeforeHold && now >= menuRefractoryUntil {
        if IsHold(heard) && n >= cfg.enterHoldFrames {
          Enter(OnHold);
          return NoAction;
        }
        if heard == LiveSpeechCandidate && n >= cfg.menuSpeechToHoldFrames {
          Enter(OnHold);
          return NoAction;
        }
      }
      if IsHold(heard) && n >= cfg.menuGapFrames {
        menuGapSeen := true;
      }
      if IsSpeechy(heard) && menuGapSeen && now >= menuRefractoryUntil && n >= 2 && menuPresses < cfg.maxMenuPresses {
        menuGapSeen := false;
        menuWoken := true;
        return WakeTier2Menu;
      }
      return NoAction;
    }

    method OnOnHold(heard: Label, n: nat, now: real) returns (action: Action)
      requires state == OnHold
      modifies this
      ensures (View(), action) == HandledHold(cfg, old(View()), heard, n, now)
    {
      if IsMenu(heard) && n >= cfg.reenterMenuFrames {
        Enter(IvrMenu);
        return WakeTier2Menu;
      }
      if heard == LiveSpeechCandidate && now >= refractoryUntil && n >= cfg.enterEvalFrames {
        Enter(EvaluatingSpeech);
        return WakeTier2Probe;
      }
      return NoAction;
    }

    method OnEvaluatingSpeech(heard: Label, n: nat, now: real) returns (action: Action)
      requires state == EvaluatingSpeech
      modifies this
      ensures (View(), action) == HandledEvaluating(cfg, old(View()), heard, n, now)
    {
      if IsHold(heard) && n >= cfg.leaveEvalFrames {
        FallBackToHold(now);
      }
      return NoAction;
    }

    method TakeProbeResult(isHuman: bool, now: real) returns (action: Action)
      modifies this
      ensures (View(), action) == ProbeAnswered(cfg, old(View()), isHuman, now)
    {
      if state != EvaluatingSpeech {
        return NoAction;
      }
      if isHuman {
        Enter(HumanDetected);
        return Bridge;
      }
      FallBackToHold(now);
      return NoAction;
    }

    method NoteMenuAction(now: real)
      modifies this
      ensures View() == MenuActionNoted(cfg, old(View()), now)
    {
      if state == IvrMenu {
        menuPresses := menuPresses + 1;
        menuWoken := false;
        menuGapSeen := false;
        menuNoops := 0;
        menuRefractoryUntil := now + cfg.menuRefractory;
      }
    }

    method NoteMenuAbstained()
      modifies this
      ensures View() == MenuAbstainNoted(old(View()))
    {
      if state == IvrMenu {
        menuNoops := menuNoops + 1;
      }
    }

    method NoteBridged()
      modifies this
      ensures View() == BridgeNoted(old(View()))
    {
      if state == HumanDetected {
        Enter(Bridging);
      }
    }

    method NoteCompleted()
      modifies this
      ensures View() == old(View()).(state := Done)
    {
      state := Done;
    }

    method NoteFailed()
      modifies this
      ensures View() == old(View()).(state := Failed)
    {
      state := Failed;
    }
  }
}
