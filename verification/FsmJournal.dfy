/** The state machine again, with no counters, flags or deadlines: it keeps a journal and
    re-reads it at every frame. The counting machine is proved to behave exactly like it. */
module FsmJournal {
  import opened Prelude
  import opened CallFsm

  /** What happened during the present stay in a state. */
  datatype Mark =
    | Heard(sound: Label, confident: bool)
    | DigitPressed
    | NothingToPress
    | Woken

  datatype Journal = Journal(
    phase: CallState,
    stay: seq<Mark>,
    pressTimes: seq<real>,
    lastFallback: Option<real>)

  const BLANK := Journal(Dialing, [], [], None)

  // ---- what the labels are evidence of ----

  const SPEECH := {MenuSpeaking, MenuAwaitingInput, LiveSpeechCandidate}
  const A_MENU := {MenuSpeaking, MenuAwaitingInput}
  const NO_SPEECH := {HoldMusic, HoldInterjection, Silence}
  const NO_CONNECTION := {Voicemail, ErrorTone}
  const IN_PROGRESS := {Dialing, IvrMenu, OnHold, EvaluatingSpeech}

  // ---- reading the journal ----

  /** The labels of the confident frames. */
  function Sounds(stay: seq<Mark>): seq<Label> {
    if stay == [] then []
    else
      var front, last := stay[..|stay| - 1], stay[|stay| - 1];
      if last.Heard? && last.confident then Sounds(front) + [last.sound] else Sounds(front)
  }

  /** The length of the longest constant suffix. */
  function Trail(sounds: seq<Label>): (n: nat)
    ensures n <= |sounds| && (sounds != [] ==> n > 0)
    ensures forall i :: |sounds| - n <= i < |sounds| ==> sounds[i] == sounds[|sounds| - 1]
    ensures n < |sounds| ==> sounds[|sounds| - n - 1] != sounds[|sounds| - 1]
  {
    if |sounds| <= 1 then |sounds|
    else if sounds[|sounds| - 2] == sounds[|sounds| - 1] then Trail(sounds[..|sounds| - 1]) + 1
    else 1
  }

  /** The evidence the frame at position k brings: none if it was faint. */
  function Evidence(stay: seq<Mark>, k: nat): nat
    requires k < |stay|
  {
    if stay[k].Heard? && stay[k].confident then Trail(Sounds(stay[..k + 1])) else 0
  }

  predicate Settled(m: Mark) { m.DigitPressed? || m.Woken? }

  /** The frame at k ended a prompt: a hold sound that had lasted long enough. */
  predicate EndsPrompt(cfg: FsmConfig, stay: seq<Mark>, k: nat)
    requires k < |stay|
  {
    stay[k].Heard? && stay[k].sound in NO_SPEECH && Evidence(stay, k) >= cfg.menuGapFrames
  }

  /** Since the last keypress or wake of this stay, some frame ended the prompt. */
  ghost predicate PromptEnded(cfg: FsmConfig, stay: seq<Mark>) { exists k: nat :: PromptEndedBy(cfg, stay, k) }

  predicate PromptEndedBy(cfg: FsmConfig, stay: seq<Mark>, k: nat) {
    k < |stay| && EndsPrompt(cfg, stay, k) && forall i :: k < i < |stay| ==> !Settled(stay[i])
  }

  /** How many readings of the menu found nothing since the last keypress of this stay. */
  function Fruitless(stay: seq<Mark>): nat {
    if stay == [] || stay[|stay| - 1].DigitPressed? then 0
    else Fruitless(stay[..|stay| - 1]) + (if stay[|stay| - 1].NothingToPress? then 1 else 0)
  }

  predicate Cooled(last: Option<real>, pause: real, now: real) {
    match last
    case None => now >= 0.0
    case Some(t) => now >= t + pause
  }

  // ---- deciding from the journal ----

  /** All that a decision needs to know of the past. */
  datatype Brief = Brief(
    phase: CallState,
    promptEnded: bool,
    fruitless: nat,
    presses: nat,
    lastPress: Option<real>,
    lastFallback: Option<real>)

  ghost function BriefOf(cfg: FsmConfig, j: Journal): Brief {
    Brief(j.phase, PromptEnded(cfg, j.stay), Fruitless(j.stay), |j.pressTimes|,
          if j.pressTimes == [] then None else Some(j.pressTimes[|j.pressTimes| - 1]), j.lastFallback)
  }

  predicate MustNotWait(cfg: FsmConfig, b: Brief, sound: Label, n: nat, now: real) {
    || (sound.HoldMusic? && n >= cfg.enterHoldFrames)
    || (&& b.fruitless >= cfg.menuNoopsBeforeHold
        && Cooled(b.lastPress, cfg.menuRefractory, now)
        && (|| (sound in NO_SPEECH && n >= cfg.enterHoldFrames)
            || (sound.LiveSpeechCandidate? && n >= cfg.menuSpeechToHoldFrames)))
  }

  predicate MustReadAgain(cfg: FsmConfig, b: Brief, sound: Label, n: nat, now: real) {
    && sound in SPEECH
    && n >= 2
    && b.promptEnded
    && Cooled(b.lastPress, cfg.menuRefractory, now)
    && b.presses < cfg.maxMenuPresses
  }

  /** Where a frame with n frames of evidence leads, and what is asked for. */
  function Decide(cfg: FsmConfig, b: Brief, sound: Label, n: nat, now: real): (CallState, Action) {
    if b.phase in IN_PROGRESS && sound in NO_CONNECTION && n >= cfg.nonConnectFrames then (Failed, Fail)
    else match b.phase
      case Dialing =>
        if sound in SPEECH && n >= cfg.enterMenuFrames then (IvrMenu, WakeTier2Menu)
        else if sound.HoldMusic? && n >= cfg.dialingToHoldFrames then (OnHold, NoAction)
        else (Dialing, NoAction)
      case IvrMenu =>
        if MustNotWait(cfg, b, sound, n, now) then (OnHold, NoAction)
        else if MustReadAgain(cfg, b, sound, n, now) then (IvrMenu, WakeTier2Menu)
        else (IvrMenu, NoAction)
      case OnHold =>
        if sound in A_MENU && n >= cfg.reenterMenuFrames then (IvrMenu, WakeTier2Menu)
        else if sound.LiveSpeechCandidate? && Cooled(b.lastFallback, cfg.refractory, now) && n >= cfg.enterEvalFrames
        then (EvaluatingSpeech, WakeTier2Probe)
        else (OnHold, NoAction)
      case EvaluatingSpeech =>
        if sound in NO_SPEECH && n >= cfg.leaveEvalFrames then (OnHold, NoAction) else (EvaluatingSpeech, NoAction)
      case _ => (b.phase, NoAction)
  }

  /** A new stay begins with a blank page; leaving a probe for the queue is remembered. */
  function Moved(j: Journal, to: CallState, now: real): Journal {
    Journal(to, [], j.pressTimes, if j.phase.EvaluatingSpeech? && to.OnHold? then Some(now) else j.lastFallback)
  }

  function WrittenDown(cfg: FsmConfig, j: Journal, sound: Label, confidence: real): Journal {
    j.(stay := j.stay + [Heard(sound, confidence >= cfg.minConfidence)])
  }

  ghost function Reread(cfg: FsmConfig, j: Journal, sound: Label, confidence: real, now: real): (Journal, Action) {
    var j1 := WrittenDown(cfg, j, sound, confidence);
    var (to, a) := Decide(cfg, BriefOf(cfg, j1), sound, Evidence(j1.stay, |j.stay|), now);
    if to != j.phase then (Moved(j1, to, now), a)
    else if a.WakeTier2Menu? then (j1.(stay := j1.stay + [Woken]), a)
    else (j1, a)
  }

  ghost function JournalStep(cfg: FsmConfig, j: Journal, e: Signal): (Journal, Action) {
    match e
    case Frame(sound, confidence, now) => Reread(cfg, j, sound, confidence, now)
    case Verdict(isHuman, now) =>
      if !j.phase.EvaluatingSpeech? then (j, NoAction)
      else if isHuman then (Moved(j, HumanDetected, now), Bridge)
      else (Moved(j, OnHold, now), NoAction)
    case Pressed(now) =>
      (if j.phase.IvrMenu? then AfterPress(j, now) else j, NoAction)
    case Abstained => (if j.phase.IvrMenu? then j.(stay := j.stay + [NothingToPress]) else j, NoAction)
    case HandoffBegun => (if j.phase.HumanDetected? then Moved(j, Bridging, 0.0) else j, NoAction)
    case Completed => (j.(phase := Done), NoAction)
    case ForcedToFail => (j.(phase := Failed), NoAction)
  }

  ghost function JournalRun(cfg: FsmConfig, j: Journal, es: seq<Signal>): Journal
    decreases |es|
  {
    if es == [] then j else JournalRun(cfg, JournalStep(cfg, j, es[0]).0, es[1..])
  }

  ghost function JournalActions(cfg: FsmConfig, j: Journal, es: seq<Signal>): (r: seq<Action>)
    ensures |r| == |es|
    decreases |es|
  {
    if es == [] then []
    else [JournalStep(cfg, j, es[0]).1] + JournalActions(cfg, JournalStep(cfg, j, es[0]).0, es[1..])
  }

  // ---- the counting machine agrees ----

  ghost predicate StreakMatches(s: Fsm, stay: seq<Mark>) {
    (s.streak, s.streakLabel) == TrailOf(Sounds(stay))
  }

  /** How long the last sound has lasted, and which it is. */
  function TrailOf(sounds: seq<Label>): (nat, Option<Label>) {
    (Trail(sounds), if sounds == [] then None else Some(sounds[|sounds| - 1]))
  }

  /** The rest of what the machine remembers; the menu's part only while in a menu. */
  datatype Digest = Digest(
    state: CallState,
    refractoryUntil: real,
    menuRefractoryUntil: real,
    presses: nat,
    gapSeen: bool,
    noops: nat)

  function DigestOf(s: Fsm): Digest {
    Digest(s.state, s.refractoryUntil, s.menuRefractoryUntil, s.menuPresses,
           s.state.IvrMenu? && s.menuGapSeen, if s.state.IvrMenu? then s.menuNoops else 0)
  }

  function Deadline(last: Option<real>, pause: real): real {
    if last.None? then 0.0 else last.value + pause
  }

  function DigestOfBrief(cfg: FsmConfig, b: Brief): Digest {
    Digest(b.phase, Deadline(b.lastFallback, cfg.refractory), Deadline(b.lastPress, cfg.menuRefractory), b.presses,
           b.phase.IvrMenu? && b.promptEnded, if b.phase.IvrMenu? then b.fruitless else 0)
  }

  /** The counters, flags and deadlines say what the journal says. */
  ghost predicate Agree(cfg: FsmConfig, s: Fsm, j: Journal) {
    StreakMatches(s, j.stay) && DigestOf(s) == DigestOfBrief(cfg, BriefOf(cfg, j))
  }

  lemma SoundsGrow(stay: seq<Mark>, m: Mark)
    ensures Sounds(stay + [m]) == Sounds(stay) + (if m.Heard? && m.confident then [m.sound] else [])
  {
    assert (stay + [m])[..|stay|] == stay;
  }

  lemma TrailGrows(sounds: seq<Label>, sound: Label)
    ensures Trail(sounds + [sound]) ==
            if sounds != [] && sounds[|sounds| - 1] == sound then Trail(sounds) + 1 else 1
  {
    var more := sounds + [sound];
    assert more[..|more| - 1] == sounds && more[|more| - 1] == sound;
    if sounds != [] { assert more[|more| - 2] == sounds[|sounds| - 1]; }
  }

  lemma FruitlessGrows(stay: seq<Mark>, m: Mark)
    ensures Fruitless(stay + [m]) ==
            match m
            case DigitPressed => 0
            case NothingToPress => Fruitless(stay) + 1
            case _ => Fruitless(stay)
  {
    assert (stay + [m])[..|stay|] == stay;
  }

  lemma EndsPromptInPrefix(cfg: FsmConfig, stay: seq<Mark>, m: Mark, k: nat)
    requires k < |stay|
    ensures EndsPrompt(cfg, stay + [m], k) == EndsPrompt(cfg, stay, k)
  {
    assert (stay + [m])[..k + 1] == stay[..k + 1];
  }

  lemma EndedByGrows(cfg: FsmConfig, stay: seq<Mark>, m: Mark, k: nat)
    requires k < |stay|
    ensures PromptEndedBy(cfg, stay + [m], k) <==> PromptEndedBy(cfg, stay, k) && !Settled(m)
  {
    var longer := stay + [m];
    EndsPromptInPrefix(cfg, stay, m, k);
    assert longer[|stay|] == m && forall i :: 0 <= i < |stay| ==> longer[i] == stay[i];
  }

  lemma EndedByLast(cfg: FsmConfig, stay: seq<Mark>, m: Mark)
    ensures PromptEndedBy(cfg, stay + [m], |stay|) <==> EndsPrompt(cfg, stay + [m], |stay|)
  {
  }

  lemma PromptEndedGrows(cfg: FsmConfig, stay: seq<Mark>, m: Mark)
    ensures PromptEnded(cfg, stay + [m]) <==>
            !Settled(m) && (PromptEnded(cfg, stay) || EndsPrompt(cfg, stay + [m], |stay|))
  {
    var longer := stay + [m];
    EndedByLast(cfg, stay, m);
    if PromptEnded(cfg, longer) {
      var k: nat :| PromptEndedBy(cfg, longer, k);
      if k < |stay| { EndedByGrows(cfg, stay, m, k); }
    }
    if PromptEnded(cfg, stay) && !Settled(m) {
      var k: nat :| PromptEndedBy(cfg, stay, k);
      EndedByGrows(cfg, stay, m, k);
    }
    if EndsPrompt(cfg, longer, |stay|) { assert PromptEndedBy(cfg, longer, |stay|); }
  }

  lemma TrailOfGrows(sounds: seq<Label>, sound: Label)
    ensures TrailOf(sounds + [sound]) ==
            (if TrailOf(sounds).1 == Some(sound) then TrailOf(sounds).0 + 1 else 1, Some(sound))
  {
    TrailGrows(sounds, sound);
    assert (sounds + [sound])[|sounds|] == sound;
  }

  /** What a confident label does to the streak is what it does to the trail. */
  lemma StreakGrows(cfg: FsmConfig, s: Fsm, trail: (nat, Option<Label>), sound: Label, confidence: real)
    requires confidence >= cfg.minConfidence && (s.streak, s.streakLabel) == trail
    ensures var (s1, n) := Counted(cfg, s, sound, confidence);
            && (s1.streak, s1.streakLabel) == (if trail.1 == Some(sound) then trail.0 + 1 else 1, Some(sound))
            && n == s1.streak
  {
  }

  /** The evidence of the last frame is the whole trail, or nothing. */
  lemma {:induction false} LastEvidence(stay: seq<Mark>, sound: Label, confident: bool)
    ensures var m := Heard(sound, confident);
            Evidence(stay + [m], |stay|) == if confident then TrailOf(Sounds(stay) + [sound]).0 else 0
  {
    var m := Heard(sound, confident);
    SoundsGrow(stay, m);
    WholePrefix(stay, m);
  }

  /** Counting a frame keeps the streak equal to the trail, and returns the frame's evidence. */
  lemma CountingAgrees(cfg: FsmConfig, s: Fsm, stay: seq<Mark>, sound: Label, confidence: real)
    requires StreakMatches(s, stay)
    ensures var (s1, n) := Counted(cfg, s, sound, confidence);
            var stay1 := stay + [Heard(sound, confidence >= cfg.minConfidence)];
            StreakMatches(s1, stay1) && n == Evidence(stay1, |stay|)
  {
    var confident := confidence >= cfg.minConfidence;
    SoundsGrow(stay, Heard(sound, confident));
    LastEvidence(stay, sound, confident);
    if confident {
      TrailOfGrows(Sounds(stay), sound);
      StreakGrows(cfg, s, TrailOf(Sounds(stay)), sound, confidence);
    } else {
      assert Sounds(stay) + [] == Sounds(stay);
    }
  }

  lemma WholePrefix(stay: seq<Mark>, m: Mark)
    ensures (stay + [m])[..|stay| + 1] == stay + [m] && (stay + [m])[|stay|] == m
  {
  }

  lemma EmptyStayAgrees(cfg: FsmConfig)
    ensures Sounds([]) == [] && Fruitless([]) == 0 && !PromptEnded(cfg, [])
  {
  }

  /** What a frame does to the machine, given where it led: s0 is the state once it was counted. */
  predicate Effect(cfg: FsmConfig, s0: Fsm, s1: Fsm, a: Action, b: Brief, now: real) {
    var stays := s1.state == s0.state;
    var until := if s0.state.EvaluatingSpeech? && !stays && s1.state.OnHold? then now + cfg.refractory
                 else s0.refractoryUntil;
    && (s1.streak, s1.streakLabel) == (if stays then (s0.streak, s0.streakLabel) else (0, None))
    && DigestOf(s1) == Digest(s1.state, until, s0.menuRefractoryUntil, s0.menuPresses,
                              stays && s1.state.IvrMenu? && b.promptEnded && !a.WakeTier2Menu?,
                              if stays && s1.state.IvrMenu? then s0.menuNoops else 0)
  }

  /** The brief a counted frame is decided from: its own evidence may end the prompt. */
  predicate Informs(cfg: FsmConfig, b: Brief, s: Fsm, sound: Label, n: nat) {
    var d := DigestOf(s);
    DigestOfBrief(cfg, b) ==
    d.(gapSeen := s.state.IvrMenu? && (d.gapSeen || (sound in NO_SPEECH && n >= cfg.menuGapFrames)))
  }

  lemma MenuDecides(cfg: FsmConfig, s: Fsm, b: Brief, sound: Label, n: nat, now: real)
    requires s.state.IvrMenu? && !(sound in NO_CONNECTION && n >= cfg.nonConnectFrames)
    requires Informs(cfg, b, s, sound, n)
    ensures var (s1, a) := HandledMenu(cfg, s, sound, n, now);
            (s1.state, a) == Decide(cfg, b, sound, n, now) && Effect(cfg, s, s1, a, b, now)
  {
    if MustNotWait(cfg, b, sound, n, now) {
    } else if MustReadAgain(cfg, b, sound, n, now) {
    } else {
    }
  }

  lemma QueueDecides(cfg: FsmConfig, s: Fsm, b: Brief, sound: Label, n: nat, now: real)
    requires s.state.OnHold? && Informs(cfg, b, s, sound, n) && !(sound in NO_CONNECTION && n >= cfg.nonConnectFrames)
    ensures var (s1, a) := HandledHold(cfg, s, sound, n, now);
            (s1.state, a) == Decide(cfg, b, sound, n, now) && Effect(cfg, s, s1, a, b, now)
  {
  }

  lemma DialingDecides(cfg: FsmConfig, s: Fsm, b: Brief, sound: Label, n: nat, now: real)
    requires s.state.Dialing? && Informs(cfg, b, s, sound, n) && !(sound in NO_CONNECTION && n >= cfg.nonConnectFrames)
    ensures var (s1, a) := HandledDialing(cfg, s, sound, n);
            (s1.state, a) == Decide(cfg, b, sound, n, now) && Effect(cfg, s, s1, a, b, now)
  {
  }

  lemma ProbingDecides(cfg: FsmConfig, s: Fsm, b: Brief, sound: Label, n: nat, now: real)
    requires s.state.EvaluatingSpeech? && !(sound in NO_CONNECTION && n >= cfg.nonConnectFrames)
    requires Informs(cfg, b, s, sound, n)
    ensures var (s1, a) := HandledEvaluating(cfg, s, sound, n, now);
            (s1.state, a) == Decide(cfg, b, sound, n, now) && Effect(cfg, s, s1, a, b, now)
  {
  }

  lemma NoConnectionDecides(cfg: FsmConfig, s: Fsm, b: Brief, sound: Label, n: nat, now: real)
    requires s.state in IN_PROGRESS && sound in NO_CONNECTION && n >= cfg.nonConnectFrames
    requires Informs(cfg, b, s, sound, n)
    ensures (Failed, Fail) == Decide(cfg, b, sound, n, now) && Effect(cfg, s, Entered(s, Failed), Fail, b, now)
  {
  }

  lemma OverDecides(cfg: FsmConfig, s: Fsm, b: Brief, sound: Label, n: nat, now: real)
    requires s.state !in IN_PROGRESS && Informs(cfg, b, s, sound, n)
    ensures (s.state, NoAction) == Decide(cfg, b, sound, n, now) && Effect(cfg, s, s, NoAction, b, now)
  {
  }

  /** One frame through the counting machine does what is decided from the brief. */
  lemma ObservedDecides(cfg: FsmConfig, s: Fsm, b: Brief, sound: Label, confidence: real, now: real)
    requires var (s0, n) := Counted(cfg, s, sound, confidence); Informs(cfg, b, s0, sound, n)
    ensures var (s0, n) := Counted(cfg, s, sound, confidence);
            var (s1, a) := Observed(cfg, s, sound, confidence, now);
            (s1.state, a) == Decide(cfg, b, sound, n, now) && Effect(cfg, s0, s1, a, b, now)
  {
    var (s0, n) := Counted(cfg, s, sound, confidence);
    if s.state in IN_PROGRESS && sound in NO_CONNECTION && n >= cfg.nonConnectFrames {
      NoConnectionDecides(cfg, s0, b, sound, n, now);
      assert Observed(cfg, s, sound, confidence, now) == (Entered(s0, Failed), Fail);
    } else {
      match s.state {
        case Dialing => DialingDecides(cfg, s0, b, sound, n, now);
        case IvrMenu => MenuDecides(cfg, s0, b, sound, n, now);
        case OnHold => QueueDecides(cfg, s0, b, sound, n, now);
        case EvaluatingSpeech => ProbingDecides(cfg, s0, b, sound, n, now);
        case _ => OverDecides(cfg, s0, b, sound, n, now);
      }
    }
  }

  /** Whatever machine decides and acts so, agrees with the journal written up the same way. */
  lemma EffectAgrees(cfg: FsmConfig, s0: Fsm, s1: Fsm, a: Action, j: Journal, now: real)
    requires StreakMatches(s0, j.stay) && Effect(cfg, s0, s1, a, BriefOf(cfg, j), now)
    requires DigestOfBrief(cfg, BriefOf(cfg, j)) ==
             DigestOf(s0).(gapSeen := s0.state.IvrMenu? && PromptEnded(cfg, j.stay))
    ensures s1.state != j.phase ==> Agree(cfg, s1, Moved(j, s1.state, now))
    ensures s1.state == j.phase && a.WakeTier2Menu? ==> Agree(cfg, s1, j.(stay := j.stay + [Woken]))
    ensures s1.state == j.phase && !a.WakeTier2Menu? ==> Agree(cfg, s1, j)
  {
    if s1.state != j.phase {
      EmptyStayAgrees(cfg);
    } else if a.WakeTier2Menu? {
      WakingAgrees(cfg, s1, j);
    }
  }

  lemma WakingAgrees(cfg: FsmConfig, s: Fsm, j: Journal)
    requires StreakMatches(s, j.stay)
    requires DigestOf(s) == DigestOfBrief(cfg, BriefOf(cfg, j).(promptEnded := false))
    ensures Agree(cfg, s, j.(stay := j.stay + [Woken]))
  {
    FruitlessGrows(j.stay, Woken);
    PromptEndedGrows(cfg, j.stay, Woken);
    SoundsGrow(j.stay, Woken);
  }

  lemma HearingBriefs(cfg: FsmConfig, j: Journal, sound: Label, confidence: real)
    ensures var j1 := WrittenDown(cfg, j, sound, confidence);
            var ends := sound in NO_SPEECH && Evidence(j1.stay, |j.stay|) >= cfg.menuGapFrames;
            BriefOf(cfg, j1) == BriefOf(cfg, j).(promptEnded := PromptEnded(cfg, j.stay) || ends)
  {
    var m := Heard(sound, confidence >= cfg.minConfidence);
    FruitlessGrows(j.stay, m);
    PromptEndedGrows(cfg, j.stay, m);
  }

  lemma EndingInforms(cfg: FsmConfig, s: Fsm, b: Brief, sound: Label, n: nat)
    requires DigestOf(s) == DigestOfBrief(cfg, b)
    ensures var ends := sound in NO_SPEECH && n >= cfg.menuGapFrames;
            Informs(cfg, b.(promptEnded := b.promptEnded || ends), s, sound, n)
  {
  }

  lemma CountedInforms(cfg: FsmConfig, s: Fsm, j: Journal, sound: Label, confidence: real)
    requires Agree(cfg, s, j)
    ensures var (s0, n) := Counted(cfg, s, sound, confidence);
            Informs(cfg, BriefOf(cfg, WrittenDown(cfg, j, sound, confidence)), s0, sound, n)
  {
    var (s0, n) := Counted(cfg, s, sound, confidence);
    EndingInforms(cfg, s0, BriefOf(cfg, j), sound, n);
    assert n == Evidence(WrittenDown(cfg, j, sound, confidence).stay, |j.stay|) by {
      CountingAgrees(cfg, s, j.stay, sound, confidence);
    }
    HearingBriefs(cfg, j, sound, confidence);
  }

  lemma FrameAgrees(cfg: FsmConfig, s: Fsm, j: Journal, sound: Label, confidence: real, now: real)
    requires Agree(cfg, s, j)
    ensures Observed(cfg, s, sound, confidence, now).1 == Reread(cfg, j, sound, confidence, now).1
    ensures Agree(cfg, Observed(cfg, s, sound, confidence, now).0, Reread(cfg, j, sound, confidence, now).0)
  {
    var j1 := WrittenDown(cfg, j, sound, confidence);
    var (s0, _) := Counted(cfg, s, sound, confidence);
    var (s1, a) := Observed(cfg, s, sound, confidence, now);
    CountingAgrees(cfg, s, j.stay, sound, confidence);
    CountedInforms(cfg, s, j, sound, confidence);
    ObservedDecides(cfg, s, BriefOf(cfg, j1), sound, confidence, now);
    EffectAgrees(cfg, s0, s1, a, j1, now);
  }

  /** A keypress settles the prompt and the fruitless readings, and is remembered. */
  lemma PressBriefs(cfg: FsmConfig, j: Journal, now: real)
    ensures BriefOf(cfg, AfterPress(j, now)) ==
            BriefOf(cfg, j).(promptEnded := false, fruitless := 0, presses := |j.pressTimes| + 1,
                             lastPress := Some(now))
  {
    FruitlessGrows(j.stay, DigitPressed);
    PromptEndedGrows(cfg, j.stay, DigitPressed);
  }

  function AfterPress(j: Journal, now: real): Journal {
    j.(stay := j.stay + [DigitPressed], pressTimes := j.pressTimes + [now])
  }

  lemma PressDigests(cfg: FsmConfig, s: Fsm, b: Brief, now: real)
    requires s.state.IvrMenu? && DigestOf(s) == DigestOfBrief(cfg, b)
    ensures DigestOf(MenuActionNoted(cfg, s, now)) ==
            DigestOfBrief(cfg, b.(promptEnded := false, fruitless := 0, presses := b.presses + 1,
                                    lastPress := Some(now)))
  {
  }

  lemma PressAgrees(cfg: FsmConfig, s: Fsm, j: Journal, now: real)
    requires Agree(cfg, s, j) && s.state.IvrMenu?
    ensures Agree(cfg, MenuActionNoted(cfg, s, now), AfterPress(j, now))
  {
    SoundsGrow(j.stay, DigitPressed);
    assert StreakMatches(MenuActionNoted(cfg, s, now), AfterPress(j, now).stay);
    PressBriefs(cfg, j, now);
    PressDigests(cfg, s, BriefOf(cfg, j), now);
  }

  /** A fruitless reading ends no prompt and settles nothing. */
  lemma AbstainBriefs(cfg: FsmConfig, j: Journal)
    ensures BriefOf(cfg, j.(stay := j.stay + [NothingToPress])) == BriefOf(cfg, j).(fruitless := Fruitless(j.stay) + 1)
  {
    FruitlessGrows(j.stay, NothingToPress);
    PromptEndedGrows(cfg, j.stay, NothingToPress);
  }

  lemma AbstainAgrees(cfg: FsmConfig, s: Fsm, j: Journal)
    requires Agree(cfg, s, j) && s.state.IvrMenu?
    ensures Agree(cfg, MenuAbstainNoted(s), j.(stay := j.stay + [NothingToPress]))
  {
    SoundsGrow(j.stay, NothingToPress);
    AbstainBriefs(cfg, j);
  }

  lemma StepAgrees(cfg: FsmConfig, s: Fsm, j: Journal, e: Signal)
    requires Agree(cfg, s, j)
    ensures Step(cfg, s, e).1 == JournalStep(cfg, j, e).1
    ensures Agree(cfg, Step(cfg, s, e).0, JournalStep(cfg, j, e).0)
  {
    EmptyStayAgrees(cfg);
    match e {
      case Frame(sound, confidence, now) => FrameAgrees(cfg, s, j, sound, confidence, now);
      case Pressed(now) => if s.state.IvrMenu? { PressAgrees(cfg, s, j, now); }
      case Abstained => if s.state.IvrMenu? { AbstainAgrees(cfg, s, j); }
      case _ =>
    }
  }

  lemma {:induction false} RunsAgree(cfg: FsmConfig, s: Fsm, j: Journal, es: seq<Signal>)
    requires Agree(cfg, s, j)
    ensures Agree(cfg, Run(cfg, s, es), JournalRun(cfg, j, es))
    ensures Actions(cfg, s, es) == JournalActions(cfg, j, es)
    decreases |es|
  {
    if es != [] {
      StepAgrees(cfg, s, j, es[0]);
      RunsAgree(cfg, Step(cfg, s, es[0]).0, JournalStep(cfg, j, es[0]).0, es[1..]);
    }
  }

  /** On every run, the machine that counts and the machine that re-reads its history
      are in the same state and have asked for the same things. */
  lemma CountersRefineTheJournal(cfg: FsmConfig, es: seq<Signal>)
    ensures Run(cfg, FRESH, es).state == JournalRun(cfg, BLANK, es).phase
    ensures Actions(cfg, FRESH, es) == JournalActions(cfg, BLANK, es)
    ensures StreakMatches(Run(cfg, FRESH, es), JournalRun(cfg, BLANK, es).stay)
  {
    EmptyStayAgrees(cfg);
    RunsAgree(cfg, FRESH, BLANK, es);
  }

  /** Why a menu already entered is read again: the prompt ended after the last entry, keypress
      or wake, then the same speech was heard twice, and the last keypress is old enough. */
  ghost predicate NewPromptHeard(cfg: FsmConfig, j: Journal, sound: Label, now: real) {
    var sounds := Sounds(j.stay);
    && sound in SPEECH
    && sounds != [] && sounds[|sounds| - 1] == sound
    && PromptEnded(cfg, j.stay)
    && |j.pressTimes| < cfg.maxMenuPresses
    && now >= if j.pressTimes == [] then 0.0 else j.pressTimes[|j.pressTimes| - 1] + cfg.menuRefractory
  }

  lemma RewakeNeedsANewPrompt(cfg: FsmConfig, s: Fsm, j: Journal, sound: Label, confidence: real, now: real)
    requires Agree(cfg, s, j) && s.state.IvrMenu?
    requires Observed(cfg, s, sound, confidence, now).1.WakeTier2Menu?
    ensures confidence >= cfg.minConfidence && NewPromptHeard(cfg, j, sound, now)
  {
    var (s1, n) := Counted(cfg, s, sound, confidence);
    assert sound in SPEECH && n >= 2 && s.menuGapSeen;
  }

  lemma EveryRewakeFollowsANewPrompt(cfg: FsmConfig, es: seq<Signal>, sound: Label, confidence: real, now: real)
    requires Run(cfg, FRESH, es).state.IvrMenu?
    requires Step(cfg, Run(cfg, FRESH, es), Frame(sound, confidence, now)).1.WakeTier2Menu?
    ensures confidence >= cfg.minConfidence && NewPromptHeard(cfg, JournalRun(cfg, BLANK, es), sound, now)
  {
    EmptyStayAgrees(cfg);
    RunsAgree(cfg, FRESH, BLANK, es);
    RewakeNeedsANewPrompt(cfg, Run(cfg, FRESH, es), JournalRun(cfg, BLANK, es), sound, confidence, now);
  }
}
