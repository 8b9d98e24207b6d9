/** What each label does to a call, label by label: where a sound that lasts leads, after how many
    frames, and which pairs of sounds have a menu read again. */
module FsmLabels {
  import opened Prelude
  import opened CallFsm
  import opened FsmRuns

  /** Nothing but confident frames of one label. */
  predicate Steady(cfg: FsmConfig, es: seq<Signal>, heard: Label) {
    forall e :: e in es ==> e.Frame? && e.heard == heard && e.confidence >= cfg.minConfidence
  }

  /** What a sound that lasts does: nothing, or a move after so many frames. */
  datatype WayOut = NoWayOut | After(frames: int, to: CallState, asks: Action)

  /** Where the sound leads to from a live state. `givenUp` is whether the menu was read in vain often
      enough and no keypress is too recent, `free` whether the cooldown of the last probe is over. */
  function WayOutOf(cfg: FsmConfig, from: CallState, heard: Label, givenUp: bool, free: bool): WayOut {
    match heard
    case Voicemail | ErrorTone => After(cfg.nonConnectFrames, Failed, Fail)
    case MenuSpeaking | MenuAwaitingInput =>
      (match from
       case Dialing => After(cfg.enterMenuFrames, IvrMenu, WakeTier2Menu)
       case OnHold => After(cfg.reenterMenuFrames, IvrMenu, WakeTier2Menu)
       case _ => NoWayOut)
    case LiveSpeechCandidate =>
      (match from
       case Dialing => After(cfg.enterMenuFrames, IvrMenu, WakeTier2Menu)
       case IvrMenu => if givenUp then After(cfg.menuSpeechToHoldFrames, OnHold, NoAction) else NoWayOut
       case OnHold => if free then After(cfg.enterEvalFrames, EvaluatingSpeech, WakeTier2Probe) else NoWayOut
       case _ => NoWayOut)
    case HoldMusic =>
      (match from
       case Dialing => After(cfg.dialingToHoldFrames, OnHold, NoAction)
       case IvrMenu => After(cfg.enterHoldFrames, OnHold, NoAction)
       case EvaluatingSpeech => After(cfg.leaveEvalFrames, OnHold, NoAction)
       case _ => NoWayOut)
    case HoldInterjection | Silence =>
      (match from
       case IvrMenu => if givenUp then After(cfg.enterHoldFrames, OnHold, NoAction) else NoWayOut
       case EvaluatingSpeech => After(cfg.leaveEvalFrames, OnHold, NoAction)
       case _ => NoWayOut)
    case Ringback | Unknown => NoWayOut
  }

  /** All the frames come after the menu's cooldown, or all before it; and after the probe's, or
      before it. */
  predicate Dated(s: Fsm, es: seq<Signal>, cooled: bool, free: bool) {
    forall e :: e in es && e.Frame? ==>
      (e.now >= s.menuRefractoryUntil <==> cooled) && (e.now >= s.refractoryUntil <==> free)
  }

  /** Still where it was, with the sound counted so often. */
  predicate Counting(s: Fsm, r: Fsm, heard: Label, n: nat) {
    && r.state == s.state
    && (n > 0 ==> r.streakLabel == Some(heard) && r.streak == n)
    && r.refractoryUntil == s.refractoryUntil
    && (r.menuRefractoryUntil, r.menuNoops) == (s.menuRefractoryUntil, s.menuNoops)
  }

  /** What the machine asked for last. */
  function LastAsked(cfg: FsmConfig, s: Fsm, es: seq<Signal>): Action
    requires es != []
  {
    Step(cfg, Run(cfg, s, es[..|es| - 1]), es[|es| - 1]).1
  }

  predicate NoConnection(cfg: FsmConfig, heard: Label, n: nat) {
    heard in {Voicemail, ErrorTone} && n >= cfg.nonConnectFrames
  }

  /** What one more frame of the sound does, the counting done: the sound has now lasted n frames. */
  predicate OneMoreDoes(cfg: FsmConfig, way: WayOut, s: Fsm, heard: Label, n: nat, r: (Fsm, Action)) {
    if way.After? && n >= way.frames then (r.0.state, r.1) == (way.to, way.asks)
    else Counting(s, r.0, heard, n) && (r.1.NoAction? || (r.1.WakeTier2Menu? && s.state.IvrMenu?))
  }

  lemma OneMoreWhileDialing(cfg: FsmConfig, s: Fsm, r: Fsm, heard: Label, n: nat, givenUp: bool, free: bool)
    requires s.state.Dialing? && Counting(s, r, heard, n) && !NoConnection(cfg, heard, n)
    ensures OneMoreDoes(cfg, WayOutOf(cfg, Dialing, heard, givenUp, free), s, heard, n,
                        HandledDialing(cfg, r, heard, n))
  {
  }

  lemma OneMoreInAMenu(cfg: FsmConfig, s: Fsm, r: Fsm, heard: Label, n: nat, now: real, free: bool)
    requires s.state.IvrMenu? && Counting(s, r, heard, n) && !NoConnection(cfg, heard, n)
    ensures var givenUp := now >= s.menuRefractoryUntil && s.menuNoops >= cfg.menuNoopsBeforeHold;
            OneMoreDoes(cfg, WayOutOf(cfg, IvrMenu, heard, givenUp, free), s, heard, n,
                        HandledMenu(cfg, r, heard, n, now))
  {
  }

  lemma OneMoreInTheQueue(cfg: FsmConfig, s: Fsm, r: Fsm, heard: Label, n: nat, now: real, givenUp: bool)
    requires s.state.OnHold? && Counting(s, r, heard, n) && !NoConnection(cfg, heard, n)
    ensures OneMoreDoes(cfg, WayOutOf(cfg, OnHold, heard, givenUp, now >= s.refractoryUntil), s, heard, n,
                        HandledHold(cfg, r, heard, n, now))
  {
  }

  lemma OneMoreInAProbe(cfg: FsmConfig, s: Fsm, r: Fsm, heard: Label, n: nat, now: real, givenUp: bool, free: bool)
    requires s.state.EvaluatingSpeech? && Counting(s, r, heard, n)
    requires !NoConnection(cfg, heard, n)
    ensures OneMoreDoes(cfg, WayOutOf(cfg, EvaluatingSpeech, heard, givenUp, free), s, heard, n,
                        HandledEvaluating(cfg, r, heard, n, now))
  {
  }

  lemma OneMore(cfg: FsmConfig, s: Fsm, r: Fsm, e: Signal, n: nat, cooled: bool, free: bool)
    requires s.state in {Dialing, IvrMenu, OnHold, EvaluatingSpeech}
    requires e.Frame? && e.confidence >= cfg.minConfidence && Dated(s, [e], cooled, free)
    requires Counting(s, r, e.heard, n) && (n == 0 ==> r.streakLabel != Some(e.heard))
    ensures var way := WayOutOf(cfg, s.state, e.heard, cooled && s.menuNoops >= cfg.menuNoopsBeforeHold, free);
            OneMoreDoes(cfg, way, s, e.heard, n + 1, Step(cfg, r, e))
  {
    assert e in [e];
    var givenUp := cooled && s.menuNoops >= cfg.menuNoopsBeforeHold;
    var (r1, streak) := Counted(cfg, r, e.heard, e.confidence);
    assert streak == n + 1 && Counting(s, r1, e.heard, n + 1);
    if NoConnection(cfg, e.heard, n + 1) {
      assert Step(cfg, r, e) == (Entered(r1, Failed), Fail);
    } else {
      match s.state {
        case Dialing =>
          OneMoreWhileDialing(cfg, s, r1, e.heard, n + 1, givenUp, free);
          assert Step(cfg, r, e) == HandledDialing(cfg, r1, e.heard, n + 1);
        case IvrMenu =>
          OneMoreInAMenu(cfg, s, r1, e.heard, n + 1, e.now, free);
          assert Step(cfg, r, e) == HandledMenu(cfg, r1, e.heard, n + 1, e.now);
        case OnHold =>
          OneMoreInTheQueue(cfg, s, r1, e.heard, n + 1, e.now, givenUp);
          assert Step(cfg, r, e) == HandledHold(cfg, r1, e.heard, n + 1, e.now);
        case EvaluatingSpeech =>
          OneMoreInAProbe(cfg, s, r1, e.heard, n + 1, e.now, givenUp, free);
          assert Step(cfg, r, e) == HandledEvaluating(cfg, r1, e.heard, n + 1, e.now);
        case _ =>
      }
    }
  }

  /** One sound that lasts, from any live state in which it is new: it leads out of the state in
      exactly the frame that completes its count, to the place and with the wish of the table; with
      no way out, or before that, it leads nowhere. */
  lemma {:induction false} OneSoundLeads(
      cfg: FsmConfig, s: Fsm, heard: Label, es: seq<Signal>, cooled: bool, free: bool)
    requires s.state in {Dialing, IvrMenu, OnHold, EvaluatingSpeech} && s.streakLabel != Some(heard)
    requires Steady(cfg, es, heard) && Dated(s, es, cooled, free)
    ensures var way := WayOutOf(cfg, s.state, heard, cooled && s.menuNoops >= cfg.menuNoopsBeforeHold, free);
            var r := Run(cfg, s, es);
            if way.NoWayOut? || |es| < AtLeastOne(way.frames) then
              && Counting(s, r, heard, |es|)
              && (|es| == 0 ==> r == s)
              && (es != [] ==> LastAsked(cfg, s, es).NoAction?
                               || (s.state.IvrMenu? && LastAsked(cfg, s, es).WakeTier2Menu?))
            else |es| == AtLeastOne(way.frames) ==> (r.state, LastAsked(cfg, s, es)) == (way.to, way.asks)
    decreases |es|
  {
    if es != [] {
      var front, last := es[..|es| - 1], es[|es| - 1];
      assert front + [last] == es && last in es;
      assert forall e :: e in front ==> e in es;
      OneSoundLeads(cfg, s, heard, front, cooled, free);
      RunMore(cfg, s, front, last);
      var way := WayOutOf(cfg, s.state, heard, cooled && s.menuNoops >= cfg.menuNoopsBeforeHold, free);
      if way.NoWayOut? || |es| <= AtLeastOne(way.frames) {
        OneMore(cfg, s, Run(cfg, s, front), last, |front|, cooled, free);
      }
    }
  }

  /** The last frame ends the dialing, with this state and this wish. */
  predicate EndsDialing(cfg: FsmConfig, es: seq<Signal>, to: CallState, asks: Action) {
    && es != [] && Run(cfg, FRESH, es[..|es| - 1]).state.Dialing?
    && Run(cfg, FRESH, es).state == to && LastAsked(cfg, FRESH, es) == asks
  }

  lemma {:induction false} NeverDialsAgain(cfg: FsmConfig, es: seq<Signal>, k: nat)
    requires k <= |es| && !Run(cfg, FRESH, es[..k]).state.Dialing?
    ensures !Run(cfg, FRESH, es).state.Dialing?
    decreases |es|
  {
    if k == |es| {
      assert es[..k] == es;
    } else {
      var front := es[..|es| - 1];
      assert front[..k] == es[..k] && front + [es[|es| - 1]] == es;
      NeverDialsAgain(cfg, front, k);
      RunMore(cfg, FRESH, front, es[|es| - 1]);
    }
  }

  lemma EndsWithItsCount(cfg: FsmConfig, heard: Label, es: seq<Signal>)
    requires Steady(cfg, es, heard) && (forall e :: e in es && e.Frame? ==> e.now >= 0.0) && es != []
    ensures var way := WayOutOf(cfg, Dialing, heard, cfg.menuNoopsBeforeHold <= 0, true);
            if way.After? && |es| == AtLeastOne(way.frames) then EndsDialing(cfg, es, way.to, way.asks)
            else forall to, asks :: EndsDialing(cfg, es, to, asks) ==> to.Dialing?
  {
    var way := WayOutOf(cfg, Dialing, heard, cfg.menuNoopsBeforeHold <= 0, true);
    var front := es[..|es| - 1];
    OneSoundLeads(cfg, FRESH, heard, es, true, true);
    OneSoundLeads(cfg, FRESH, heard, front, true, true);
    if way.After? && |es| > AtLeastOne(way.frames) {
      var k := AtLeastOne(way.frames);
      OneSoundLeads(cfg, FRESH, heard, es[..k], true, true);
      assert front[..k] == es[..k];
      NeverDialsAgain(cfg, front, k);
    }
  }

  /** From the start: a sound that is all a call hears is taken for an answer, and the menu asked
      about, exactly if it is speech of any kind; for a failure exactly if it is a voicemail or an
      error tone; for a queue exactly if it is hold music; each in the very frame that completes the
      count. Any other sound is waited through for ever. */
  lemma OneSoundFromTheStart(cfg: FsmConfig, heard: Label, es: seq<Signal>)
    requires Steady(cfg, es, heard) && (forall e :: e in es && e.Frame? ==> e.now >= 0.0) && es != []
    ensures EndsDialing(cfg, es, IvrMenu, WakeTier2Menu) <==>
              heard in {MenuSpeaking, MenuAwaitingInput, LiveSpeechCandidate} && |es| == AtLeastOne(cfg.enterMenuFrames)
    ensures EndsDialing(cfg, es, Failed, Fail) <==>
              heard in {Voicemail, ErrorTone} && |es| == AtLeastOne(cfg.nonConnectFrames)
    ensures EndsDialing(cfg, es, OnHold, NoAction) <==>
              heard == HoldMusic && |es| == AtLeastOne(cfg.dialingToHoldFrames)
    ensures heard in {Ringback, HoldInterjection, Silence, Unknown} ==> Run(cfg, FRESH, es).state.Dialing?
  {
    EndsWithItsCount(cfg, heard, es);
    OneSoundLeads(cfg, FRESH, heard, es, true, true);
  }

  // ---- which sounds have a menu read again ----

  /** A menu that is not given up, at the beginning of a prompt. */
  predicate AtAPrompt(cfg: FsmConfig, s: Fsm) {
    s.state.IvrMenu? && !s.menuGapSeen && s.menuNoops < cfg.menuNoopsBeforeHold
  }

  /** The sound lasts too short a time to end the stay. */
  predicate StaysInMenu(cfg: FsmConfig, heard: Label, n: nat) {
    && (heard == HoldMusic ==> n < AtLeastOne(cfg.enterHoldFrames))
    && (heard in {Voicemail, ErrorTone} ==> n < AtLeastOne(cfg.nonConnectFrames))
  }

  /** What a sound that has lasted n frames makes of a menu at a prompt. */
  function Heeded(cfg: FsmConfig, s: Fsm, heard: Label, n: nat): Fsm {
    s.(streakLabel := Some(heard), streak := n,
    menuGapSeen := heard in {HoldMusic, HoldInterjection, Silence} && n >= AtLeastOne(cfg.menuGapFrames))
  }

  lemma HeedsOneMore(cfg: FsmConfig, s: Fsm, r: Fsm, e: Signal, n: nat)
    requires AtAPrompt(cfg, s) && e.Frame? && e.confidence >= cfg.minConfidence && StaysInMenu(cfg, e.heard, n + 1)
    requires if n == 0 then r == s && s.streakLabel != Some(e.heard) else r == Heeded(cfg, s, e.heard, n)
    ensures Step(cfg, r, e) == (Heeded(cfg, s, e.heard, n + 1), NoAction)
  {
    var (r1, streak) := Counted(cfg, r, e.heard, e.confidence);
    assert streak == n + 1 && r1 == r.(streakLabel := Some(e.heard), streak := n + 1);
    assert Step(cfg, r, e) == HandledMenu(cfg, r1, e.heard, n + 1, e.now);
  }

  /** One sound ends the prompt exactly if it is no speech and lasts; it never has the menu read. */
  lemma {:induction false} OneSoundEndsThePrompt(cfg: FsmConfig, s: Fsm, heard: Label, es: seq<Signal>)
    requires AtAPrompt(cfg, s) && s.streakLabel != Some(heard) && es != []
    requires Steady(cfg, es, heard) && StaysInMenu(cfg, heard, |es|)
    ensures Run(cfg, s, es) == Heeded(cfg, s, heard, |es|) && LastAsked(cfg, s, es).NoAction?
    decreases |es|
  {
    var front, last := es[..|es| - 1], es[|es| - 1];
    assert front + [last] == es && last in es;
    assert forall e :: e in front ==> e in es;
    if front != [] { OneSoundEndsThePrompt(cfg, s, heard, front); }
    RunMore(cfg, s, front, last);
    HeedsOneMore(cfg, s, Run(cfg, s, front), last, |front|);
  }

  /** The second frame of another sound has the menu read again exactly if it is speech, the prompt had
      ended, no keypress is too recent, and there is room under the cap. */
  lemma SecondFrameRereads(cfg: FsmConfig, r: Fsm, heard: Label, e1: Signal, e2: Signal)
    requires r.state.IvrMenu? && r.menuNoops < cfg.menuNoopsBeforeHold && r.streakLabel != Some(heard)
    requires e1.Frame? && e1.heard == heard && e1.confidence >= cfg.minConfidence
    requires e2.Frame? && e2.heard == heard && e2.confidence >= cfg.minConfidence
    ensures Step(cfg, Step(cfg, r, e1).0, e2).1.WakeTier2Menu? <==>
            && heard in {MenuSpeaking, MenuAwaitingInput, LiveSpeechCandidate}
            && r.menuGapSeen && e2.now >= r.menuRefractoryUntil && r.menuPresses < cfg.maxMenuPresses
  {
  }

  /** One sound, then two frames of another: the menu is read again exactly if the first was no speech
      and lasted, and the second is speech. */
  lemma TwoSoundsReread(cfg: FsmConfig, s: Fsm, first: Label, es: seq<Signal>, heard: Label, e1: Signal, e2: Signal)
    requires AtAPrompt(cfg, s) && s.streakLabel != Some(first) && heard != first && es != []
    requires Steady(cfg, es, first) && StaysInMenu(cfg, first, |es|) && Steady(cfg, [e1, e2], heard)
    ensures LastAsked(cfg, s, es + [e1] + [e2]).WakeTier2Menu? <==>
            && first in {HoldMusic, HoldInterjection, Silence} && |es| >= AtLeastOne(cfg.menuGapFrames)
            && heard in {MenuSpeaking, MenuAwaitingInput, LiveSpeechCandidate}
            && e2.now >= s.menuRefractoryUntil && s.menuPresses < cfg.maxMenuPresses
  {
    OneSoundEndsThePrompt(cfg, s, first, es);
    RunMore(cfg, s, es, e1);
    assert (es + [e1] + [e2])[..|es| + 1] == es + [e1];
    assert e1 in [e1, e2] && e2 in [e1, e2];
    SecondFrameRereads(cfg, Run(cfg, s, es), heard, e1, e2);
  }
}
