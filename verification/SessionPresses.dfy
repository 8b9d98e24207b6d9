/** The press cap bounds no session: by coming back to the menu from the queue, a call of any
    configuration can press as many keys as it likes, one for each entry. */
module SessionPresses {
  import opened Prelude
  import opened CallFsm
  import opened FsmRuns
  import opened Session
  import opened SessionRuns
  import opened SessionFeeds

  // ---- one tick ----

  /** No job is in flight, and all keys were counted. */
  predicate Free(s: Session) {
    !s.finished && s.kind.None? && s.slot.Empty? && s.fsm.menuPresses == Keys(s.log).1
  }

  /** Nothing is due either. */
  predicate Idle(s: Session) { Free(s) && s.wakeDue.None? }

  /** In a menu that is to be read when the wake is due. */
  predicate Waiting(s: Session) { Free(s) && s.wakeDue.Some? && s.fsm.state.IvrMenu? && !s.fsm.menuGapSeen }

  predicate AfterKey(s: Session) { Idle(s) && s.fsm.state.IvrMenu? && !s.fsm.menuGapSeen && s.fsm.menuNoops == 0 }

  /** A menu speaks, and whoever is asked about it says: press one. */
  function Speaking(cfg: SessionConfig): TickInput {
    TickInput(MenuSpeaking, cfg.fsm.minConfidence, true, Value("1", false), Started)
  }

  function Music(cfg: SessionConfig): TickInput { Speaking(cfg).(sound := HoldMusic) }

  /** A due wake in a menu is answered at once, and the key is pressed. */
  lemma FiringPresses(cfg: SessionConfig, s: Session, now: real, inp: TickInput)
    requires s.kind.None? && s.slot.Empty? && s.wakeDue.Some? && now >= s.wakeDue.value && s.fsm.state.IvrMenu?
    requires inp.arrived && inp.outcome.Value? && inp.outcome.digits != ""
    ensures var r := Polled(cfg, WakeFired(cfg, s, now, inp), now, inp);
            && r == s.(wakeDue := None, fsm := MenuActionNoted(cfg.fsm, s.fsm, now), log := r.log)
            && Keys(r.log) == (Keys(s.log).0, Keys(s.log).1 + 1)
  {
    var s1 := WakeFired(cfg, s, now, inp);
    StartedBooks(cfg, s.(wakeDue := None), MenuJob, now, inp.outcome);
    var s2 := Emitted(s1.(slot := Empty, kind := None), JobAnswered(MenuJob, MenuJob));
    assert Polled(cfg, s1, now, inp) == MenuApplied(cfg, s2, inp.outcome.digits, now);
    assert Keys(s2.log) == Keys(s1.log);
  }

  /** How many frames of a menu's speech lead into it, from dialing or from the queue. */
  function EntryFrames(cfg: FsmConfig, state: CallState): int {
    if state.Dialing? then cfg.enterMenuFrames else cfg.reenterMenuFrames
  }

  /** Outside a menu, with so many frames at most to go, and so many entries and keys behind it. */
  predicate Outside(cfg: SessionConfig, keys: (nat, nat), left: nat, s: Session) {
    && Idle(s) && (s.fsm.state.Dialing? || s.fsm.state.OnHold?) && Keys(s.log) == keys
    && Missing(EntryFrames(cfg.fsm, s.fsm.state), s.fsm, MenuSpeaking) <= left
  }

  /** In the next menu, the key still to be pressed, or pressed. */
  predicate Inside(s: Session, keys: (nat, nat)) { Waiting(s) && Keys(s.log) == (keys.0 + 1, keys.1) }

  predicate KeyPressed(s: Session, keys: (nat, nat)) { AfterKey(s) && Keys(s.log) == (keys.0 + 1, keys.1 + 1) }

  predicate Toward(cfg: SessionConfig, keys: (nat, nat), left: nat, s: Session) {
    Outside(cfg, keys, left, s) || Inside(s, keys) || KeyPressed(s, keys)
  }

  /** What menu speech does to the machine outside a menu and in one. */
  lemma SpeechObserved(cfg: FsmConfig, f: Fsm, now: real)
    requires f.state.Dialing? || f.state.OnHold? || (f.state.IvrMenu? && !f.menuGapSeen)
    ensures var (f1, asks) := Observed(cfg, f, MenuSpeaking, cfg.minConfidence, now);
            var threshold := EntryFrames(cfg, f.state);
            var missing := Missing(threshold, f, MenuSpeaking);
            if f.state.IvrMenu? then
              f1.state.IvrMenu? && !f1.menuGapSeen && asks.NoAction? && f1.menuNoops == f.menuNoops
            else if missing == 1 then f1.state.IvrMenu? && !f1.menuGapSeen && asks.WakeTier2Menu?
            else f1.state == f.state && asks.NoAction? && Missing(threshold, f1, MenuSpeaking) < missing
  {
  }

  lemma MusicObserved(cfg: FsmConfig, f: Fsm, now: real)
    requires f.state.IvrMenu? || f.state.OnHold?
    ensures var (f1, asks) := Observed(cfg, f, HoldMusic, cfg.minConfidence, now);
            var missing := Missing(cfg.enterHoldFrames, f, HoldMusic);
            && asks.NoAction?
            && (if f.state.OnHold? || missing == 1 then f1.state.OnHold?
                else f1.state.IvrMenu? && Missing(cfg.enterHoldFrames, f1, HoldMusic) < missing)
  {
  }

  lemma ClassifiedKeys(cfg: SessionConfig, s: Session, fsm: Fsm, now: real, inp: TickInput)
    ensures var r := Classified(cfg, s, fsm, now, inp);
            && r == s.(fsm := fsm, log := r.log)
            && Keys(r.log) ==
               if fsm.state.IvrMenu? && !s.fsm.state.IvrMenu? then (Keys(s.log).0 + 1, Keys(s.log).1) else Keys(s.log)
  {
    assert Keys(After(s.log, FrameClassified(LookAt(cfg, s, now, inp)))) == Keys(s.log);
  }

  /** The machine asks for the menu to be read, entering it or not. */
  predicate Asks(cfg: SessionConfig, s: Session, now: real) {
    var (f1, asks) := Observed(cfg.fsm, s.fsm, MenuSpeaking, cfg.fsm.minConfidence, now);
    f1.state.IvrMenu? && !f1.menuGapSeen && asks.WakeTier2Menu?
  }

  /** The session once it has asked, the wake dated. */
  function Asking(cfg: SessionConfig, s: Session, now: real): Session {
    var inp := Speaking(cfg);
    var f1 := Observed(cfg.fsm, s.fsm, inp.sound, inp.confidence, now).0;
    Classified(cfg, s, f1, now, inp).(wakeDue := Some(now + cfg.menuCollect))
  }

  lemma AskingWaits(cfg: SessionConfig, s: Session, now: real, keys: (nat, nat))
    requires Idle(s) && Asks(cfg, s, now)
    requires Keys(s.log) == (if s.fsm.state.IvrMenu? then (keys.0 + 1, keys.1) else keys)
    ensures Inside(Asking(cfg, s, now), keys)
  {
    var inp := Speaking(cfg);
    ClassifiedKeys(cfg, s, Observed(cfg.fsm, s.fsm, inp.sound, inp.confidence, now).0, now, inp);
  }

  lemma AskingComesFirst(cfg: SessionConfig, s: Session, now: real)
    requires Asks(cfg, s, now)
    ensures Ticked(cfg, s, now, Speaking(cfg)) ==
            Polled(cfg, WakeFired(cfg, Asking(cfg, s, now), now, Speaking(cfg)), now, Speaking(cfg))
  {
    var inp := Speaking(cfg);
    var (f1, asks) := Observed(cfg.fsm, s.fsm, inp.sound, inp.confidence, now);
    ActedAsked(cfg, Classified(cfg, s, f1, now, inp), now, inp);
    assert Ticked(cfg, s, now, inp) == Acted(cfg, Classified(cfg, s, f1, now, inp), asks, now, inp);
  }

  lemma ActedAsked(cfg: SessionConfig, s: Session, now: real, inp: TickInput)
    ensures Acted(cfg, s, WakeTier2Menu, now, inp) ==
            Polled(cfg, WakeFired(cfg, s.(wakeDue := Some(now + cfg.menuCollect)), now, inp), now, inp)
  {
    assert Dispatched(cfg, s, WakeTier2Menu, now, inp) == s.(wakeDue := Some(now + cfg.menuCollect));
  }

  /** The menu is read at once if nothing is to be collected first, and else it waits. */
  lemma AskingTick(cfg: SessionConfig, s: Session, now: real, keys: (nat, nat))
    requires Idle(s) && Asks(cfg, s, now)
    requires Keys(s.log) == (if s.fsm.state.IvrMenu? then (keys.0 + 1, keys.1) else keys)
    ensures var r := Ticked(cfg, s, now, Speaking(cfg));
            Inside(r, keys) || KeyPressed(r, keys)
  {
    AskingWaits(cfg, s, now, keys);
    AskingComesFirst(cfg, s, now);
    WakeInMenu(cfg, Asking(cfg, s, now), now, keys);
  }

  /** A wake in a menu is served if it is due, and else it waits. */
  lemma WakeInMenu(cfg: SessionConfig, s: Session, now: real, keys: (nat, nat))
    requires Inside(s, keys)
    ensures var r := Polled(cfg, WakeFired(cfg, s, now, Speaking(cfg)), now, Speaking(cfg));
            if now >= s.wakeDue.value then KeyPressed(r, keys) else r == s
  {
    if now >= s.wakeDue.value { FiringPresses(cfg, s, now, Speaking(cfg)); }
  }

  /** Menu speech in a menu that waits to be read: it is read once the wake is due. */
  lemma WaitingTick(cfg: SessionConfig, s: Session, now: real)
    requires Waiting(s)
    ensures var r := Ticked(cfg, s, now, Speaking(cfg));
            if now >= s.wakeDue.value then AfterKey(r) && Keys(r.log) == (Keys(s.log).0, Keys(s.log).1 + 1)
            else Waiting(r) && Keys(r.log) == Keys(s.log) && r.wakeDue == s.wakeDue
  {
    var inp := Speaking(cfg);
    var f1 := Observed(cfg.fsm, s.fsm, inp.sound, inp.confidence, now).0;
    SpeechObserved(cfg.fsm, s.fsm, now);
    ClassifiedKeys(cfg, s, f1, now, inp);
    var s2 := Classified(cfg, s, f1, now, inp);
    if now >= s.wakeDue.value {
      FiringPresses(cfg, s2, now, inp);
      assert Ticked(cfg, s, now, inp) == Polled(cfg, WakeFired(cfg, s2, now, inp), now, inp);
    } else {
      QuietTick(cfg, s, now, inp);
    }
  }

  lemma AfterKeyTick(cfg: SessionConfig, s: Session, now: real)
    requires AfterKey(s)
    ensures var r := Ticked(cfg, s, now, Speaking(cfg));
            AfterKey(r) && Keys(r.log) == Keys(s.log)
  {
    var inp := Speaking(cfg);
    SpeechObserved(cfg.fsm, s.fsm, now);
    QuietTick(cfg, s, now, inp);
    ClassifiedKeys(cfg, s, Observed(cfg.fsm, s.fsm, inp.sound, inp.confidence, now).0, now, inp);
  }

  lemma OutsideTick(cfg: SessionConfig, keys: (nat, nat), left: nat, s: Session, now: real)
    requires Outside(cfg, keys, left, s)
    ensures Toward(cfg, keys, if left > 0 then left - 1 else 0, Ticked(cfg, s, now, Speaking(cfg)))
  {
    var inp := Speaking(cfg);
    var (f1, asks) := Observed(cfg.fsm, s.fsm, inp.sound, inp.confidence, now);
    SpeechObserved(cfg.fsm, s.fsm, now);
    if asks.NoAction? {
      QuietTick(cfg, s, now, inp);
      ClassifiedKeys(cfg, s, f1, now, inp);
      assert Outside(cfg, keys, left - 1, Ticked(cfg, s, now, inp));
    } else {
      AskingTick(cfg, s, now, keys);
    }
  }

  lemma SpeechTick(cfg: SessionConfig, keys: (nat, nat), left: nat, s: Session, now: real)
    requires Toward(cfg, keys, left, s)
    ensures Toward(cfg, keys, if left > 0 then left - 1 else 0, Ticked(cfg, s, now, Speaking(cfg)))
  {
    if Inside(s, keys) {
      WaitingTick(cfg, s, now);
    } else if KeyPressed(s, keys) {
      AfterKeyTick(cfg, s, now);
    } else {
      OutsideTick(cfg, keys, left, s, now);
    }
  }

  // ---- a cycle ----

  /** None of this depends on the clock or the buffer. */
  lemma TowardLater(cfg: SessionConfig, keys: (nat, nat), left: nat, s: Session, s1: Session)
    requires Toward(cfg, keys, left, s) && s1 == s.(samples := s1.samples, next := s1.next, data := s1.data)
    ensures Toward(cfg, keys, left, s1)
  {
  }

  lemma AdvancedToward(cfg: SessionConfig, keys: (nat, nat), left: nat, s: Session)
    requires Toward(cfg, keys, left, s)
    ensures Toward(cfg, keys, if left > 0 then left - 1 else 0, Advanced(cfg, s, Speaking(cfg)))
  {
    SpeechTick(cfg, keys, left, s, s.next);
    var r := Ticked(cfg, s, s.next, Speaking(cfg));
    TowardLater(cfg, keys, if left > 0 then left - 1 else 0, r, Advanced(cfg, s, Speaking(cfg)));
  }

  /** One long feed of menu speech, while frames are still missing. */
  lemma SpeechFeed(cfg: SessionConfig, keys: (nat, nat), left: nat, s: Session) returns (e: Event)
    requires cfg.interval > 0.0 && left > 0 && Toward(cfg, keys, left, s)
    ensures Toward(cfg, keys, left - 1, Next(cfg, s, e))
  {
    var pcm, s1 := LongFeed(cfg, s, Speaking(cfg), Speaking(cfg), 0.0);
    e := Feed(pcm, Pair(Speaking(cfg), Speaking(cfg)));
    TowardLater(cfg, keys, left, s, s1);
    AdvancedToward(cfg, keys, left, s1);
    AdvancedToward(cfg, keys, left - 1, Advanced(cfg, s1, Speaking(cfg)));
    TowardMore(cfg, keys, left - 1, Next(cfg, s, e));
  }

  lemma TowardMore(cfg: SessionConfig, keys: (nat, nat), left: nat, s: Session)
    requires Toward(cfg, keys, if left > 0 then left - 1 else 0, s)
    ensures Toward(cfg, keys, left, s)
  {
  }

  lemma KeyPressedLater(s: Session, s1: Session, keys: (nat, nat))
    requires KeyPressed(s, keys) && s1 == s.(samples := s1.samples, next := s1.next, data := s1.data)
    ensures KeyPressed(s1, keys)
  {
  }

  lemma DueIsPressed(cfg: SessionConfig, keys: (nat, nat), s: Session)
    requires Inside(s, keys) && s.next >= s.wakeDue.value
    ensures KeyPressed(Advanced(cfg, s, Speaking(cfg)), keys)
  {
    WaitingTick(cfg, s, s.next);
    KeyPressedLater(Ticked(cfg, s, s.next, Speaking(cfg)), Advanced(cfg, s, Speaking(cfg)), keys);
  }

  lemma PressedStays(cfg: SessionConfig, keys: (nat, nat), s: Session)
    requires KeyPressed(s, keys)
    ensures KeyPressed(Advanced(cfg, s, Speaking(cfg)), keys)
  {
    AfterKeyTick(cfg, s, s.next);
    KeyPressedLater(Ticked(cfg, s, s.next, Speaking(cfg)), Advanced(cfg, s, Speaking(cfg)), keys);
  }

  lemma AdvancedKeyPressed(cfg: SessionConfig, keys: (nat, nat), s: Session)
    requires Toward(cfg, keys, 0, s) && (s.wakeDue.Some? ==> s.next >= s.wakeDue.value)
    ensures KeyPressed(Advanced(cfg, s, Speaking(cfg)), keys)
  {
    if Inside(s, keys) { DueIsPressed(cfg, keys, s); } else { PressedStays(cfg, keys, s); }
  }

  /** One more when none is missing, so long that the wake falls due. */
  lemma LastFeed(cfg: SessionConfig, keys: (nat, nat), s: Session) returns (e: Event)
    requires cfg.interval > 0.0 && Toward(cfg, keys, 0, s)
    ensures KeyPressed(Next(cfg, s, e), keys)
  {
    var pcm, s1 := LongFeed(cfg, s, Speaking(cfg), Speaking(cfg), if s.wakeDue.Some? then s.wakeDue.value else 0.0);
    e := Feed(pcm, Pair(Speaking(cfg), Speaking(cfg)));
    TowardLater(cfg, keys, 0, s, s1);
    AdvancedKeyPressed(cfg, keys, s1);
    AdvancedKeyPressed(cfg, keys, Advanced(cfg, s1, Speaking(cfg)));
  }

  /** Menu speech long enough, and a key is pressed. */
  lemma {:induction false} SpeechPresses(
      cfg: SessionConfig, all: iset<Session>, s: Session, keys: (nat, nat), left: nat) returns (r: Session)
    requires cfg.interval > 0.0 && Closed(cfg, all) && s in all && Toward(cfg, keys, left, s)
    ensures r in all && KeyPressed(r, keys)
    decreases left
  {
    if left > 0 {
      var e := SpeechFeed(cfg, keys, left, s);
      r := SpeechPresses(cfg, all, Next(cfg, s, e), keys, left - 1);
    } else {
      var e := LastFeed(cfg, keys, s);
      r := Next(cfg, s, e);
    }
  }

  // ---- back to the queue ----

  /** A call in a menu with nothing left to do there, or already back in the queue. */
  predicate Leaving(cfg: SessionConfig, keys: (nat, nat), left: nat, s: Session) {
    && Idle(s) && Keys(s.log) == keys
    && (s.fsm.state.OnHold? || (s.fsm.state.IvrMenu? && Missing(cfg.fsm.enterHoldFrames, s.fsm, HoldMusic) <= left))
  }

  lemma AdvancedLeaving(cfg: SessionConfig, keys: (nat, nat), left: nat, s: Session)
    requires Leaving(cfg, keys, left, s)
    ensures Leaving(cfg, keys, if left > 0 then left - 1 else 0, Advanced(cfg, s, Music(cfg)))
  {
    var inp := Music(cfg);
    MusicObserved(cfg.fsm, s.fsm, s.next);
    QuietTick(cfg, s, s.next, inp);
    ClassifiedKeys(cfg, s, Observed(cfg.fsm, s.fsm, inp.sound, inp.confidence, s.next).0, s.next, inp);
  }

  lemma MusicFeed(cfg: SessionConfig, keys: (nat, nat), left: nat, s: Session) returns (e: Event)
    requires cfg.interval > 0.0 && left > 0 && Leaving(cfg, keys, left, s)
    ensures Leaving(cfg, keys, left - 1, Next(cfg, s, e))
  {
    var pcm, s1 := LongFeed(cfg, s, Music(cfg), Music(cfg), 0.0);
    e := Feed(pcm, Pair(Music(cfg), Music(cfg)));
    AdvancedLeaving(cfg, keys, left, s1);
    AdvancedLeaving(cfg, keys, left - 1, Advanced(cfg, s1, Music(cfg)));
  }

  lemma {:induction false} MusicLeaves(
      cfg: SessionConfig, all: iset<Session>, s: Session, keys: (nat, nat), left: nat) returns (r: Session)
    requires cfg.interval > 0.0 && Closed(cfg, all) && s in all && Leaving(cfg, keys, left, s)
    ensures r in all && Leaving(cfg, keys, 0, r)
    decreases left
  {
    if left > 0 {
      var e := MusicFeed(cfg, keys, left, s);
      r := MusicLeaves(cfg, all, Next(cfg, s, e), keys, left - 1);
    } else {
      r := s;
    }
  }

  // ---- another key in the same menu ----

  function Hush(cfg: SessionConfig): TickInput { Speaking(cfg).(sound := Silence) }

  /** In a menu where a key was pressed: its prompt has ended, or so many frames of silence end it. */
  predicate PromptEnding(cfg: SessionConfig, keys: (nat, nat), left: nat, s: Session) {
    && Idle(s) && s.fsm.state.IvrMenu? && s.fsm.menuNoops == 0 && Keys(s.log) == keys
    && (s.fsm.menuGapSeen || Missing(cfg.fsm.menuGapFrames, s.fsm, Silence) <= left)
  }

  lemma HushObserved(cfg: FsmConfig, f: Fsm, now: real)
    requires f.state.IvrMenu? && f.menuNoops < cfg.menuNoopsBeforeHold
    ensures var (f1, asks) := Observed(cfg, f, Silence, cfg.minConfidence, now);
            && asks.NoAction? && f1.state.IvrMenu? && f1.menuNoops == f.menuNoops && f1.streakLabel == Some(Silence)
            && f1.menuRefractoryUntil == f.menuRefractoryUntil
            && (f1.menuGapSeen
                || (!f.menuGapSeen && Missing(cfg.menuGapFrames, f1, Silence) < Missing(cfg.menuGapFrames, f, Silence)))
  {
  }

  lemma AdvancedEnding(cfg: SessionConfig, keys: (nat, nat), left: nat, s: Session)
    requires PromptEnding(cfg, keys, left, s) && cfg.fsm.menuNoopsBeforeHold > 0
    ensures PromptEnding(cfg, keys, if left > 0 then left - 1 else 0, Advanced(cfg, s, Hush(cfg)))
  {
    var inp := Hush(cfg);
    HushObserved(cfg.fsm, s.fsm, s.next);
    QuietTick(cfg, s, s.next, inp);
    ClassifiedKeys(cfg, s, Observed(cfg.fsm, s.fsm, inp.sound, inp.confidence, s.next).0, s.next, inp);
  }

  lemma HushFeed(cfg: SessionConfig, keys: (nat, nat), left: nat, s: Session) returns (e: Event)
    requires cfg.interval > 0.0 && left > 0 && PromptEnding(cfg, keys, left, s) && cfg.fsm.menuNoopsBeforeHold > 0
    ensures PromptEnding(cfg, keys, left - 1, Next(cfg, s, e))
  {
    var pcm, s1 := LongFeed(cfg, s, Hush(cfg), Hush(cfg), 0.0);
    e := Feed(pcm, Pair(Hush(cfg), Hush(cfg)));
    AdvancedEnding(cfg, keys, left, s1);
    AdvancedEnding(cfg, keys, left - 1, Advanced(cfg, s1, Hush(cfg)));
  }

  lemma {:induction false} HushEndsThePrompt(
      cfg: SessionConfig, all: iset<Session>, s: Session, keys: (nat, nat), left: nat)
      returns (r: Session)
    requires cfg.interval > 0.0 && Closed(cfg, all) && s in all && PromptEnding(cfg, keys, left, s)
    requires cfg.fsm.menuNoopsBeforeHold > 0
    ensures r in all && PromptEnding(cfg, keys, 0, r)
    decreases left
  {
    if left > 0 {
      var e := HushFeed(cfg, keys, left, s);
      r := HushEndsThePrompt(cfg, all, Next(cfg, s, e), keys, left - 1);
    } else {
      r := s;
    }
  }

  /** What menu speech does once the prompt has ended and the cooldown is over: the second frame of
      it asks again, as long as the cap allows. */
  lemma NewPromptObserved(cfg: FsmConfig, f: Fsm, now: real)
    requires f.state.IvrMenu? && f.menuGapSeen && now >= f.menuRefractoryUntil && f.menuPresses < cfg.maxMenuPresses
    ensures var (f1, asks) := Observed(cfg, f, MenuSpeaking, cfg.minConfidence, now);
            && f1.state.IvrMenu? && (f1.menuRefractoryUntil, f1.menuNoops) == (f.menuRefractoryUntil, f.menuNoops)
            && (if f.streakLabel == Some(MenuSpeaking) && f.streak >= 1 then asks.WakeTier2Menu? && !f1.menuGapSeen
                else if asks.WakeTier2Menu? then !f1.menuGapSeen
                else asks.NoAction? && f1.menuGapSeen && f1.streakLabel == Some(MenuSpeaking) && f1.streak >= 1)
  {
  }

  /** In a menu whose prompt has ended, cooled down, with room under the cap. */
  predicate Renewed(cfg: SessionConfig, keys: (nat, nat), s: Session) {
    && Idle(s) && s.fsm.state.IvrMenu? && s.fsm.menuGapSeen && Keys(s.log) == keys
    && s.fsm.menuPresses < cfg.fsm.maxMenuPresses && s.next >= s.fsm.menuRefractoryUntil && s.fsm.menuNoops == 0
  }

  lemma AdvancedRenewed(cfg: SessionConfig, keys: (nat, nat), s: Session)
    requires cfg.interval > 0.0 && Renewed(cfg, (keys.0 + 1, keys.1), s)
    ensures var r := Advanced(cfg, s, Speaking(cfg));
            || Toward(cfg, keys, 0, r)
            || (Renewed(cfg, (keys.0 + 1, keys.1), r) && r.fsm.streakLabel == Some(MenuSpeaking) && r.fsm.streak >= 1)
    ensures s.fsm.streakLabel == Some(MenuSpeaking) && s.fsm.streak >= 1 ==>
              Toward(cfg, keys, 0, Advanced(cfg, s, Speaking(cfg)))
  {
    var inp := Speaking(cfg);
    var (f1, asks) := Observed(cfg.fsm, s.fsm, inp.sound, inp.confidence, s.next);
    NewPromptObserved(cfg.fsm, s.fsm, s.next);
    if asks.WakeTier2Menu? {
      AskingTick(cfg, s, s.next, keys);
      TowardLater(cfg, keys, 0, Ticked(cfg, s, s.next, inp), Advanced(cfg, s, inp));
    } else {
      QuietTick(cfg, s, s.next, inp);
      ClassifiedKeys(cfg, s, f1, s.next, inp);
    }
  }

  lemma NewPromptFeed(cfg: SessionConfig, keys: (nat, nat), s: Session) returns (e: Event)
    requires cfg.interval > 0.0 && PromptEnding(cfg, (keys.0 + 1, keys.1), 0, s) && keys.1 < cfg.fsm.maxMenuPresses
    ensures Toward(cfg, keys, 0, Next(cfg, s, e))
  {
    var pcm, s1 := LongFeed(cfg, s, Speaking(cfg), Speaking(cfg), s.fsm.menuRefractoryUntil);
    e := Feed(pcm, Pair(Speaking(cfg), Speaking(cfg)));
    assert Renewed(cfg, (keys.0 + 1, keys.1), s1);
    AdvancedRenewed(cfg, keys, s1);
    var a := Advanced(cfg, s1, Speaking(cfg));
    if Toward(cfg, keys, 0, a) { AdvancedToward(cfg, keys, 0, a); } else { AdvancedRenewed(cfg, keys, a); }
  }

  /** From a key to the next in the same menu. */
  lemma KeyToKey(cfg: SessionConfig, all: iset<Session>, s: Session, keys: (nat, nat)) returns (r: Session)
    requires cfg.interval > 0.0 && Closed(cfg, all) && s in all && cfg.fsm.menuNoopsBeforeHold > 0
    requires AfterKey(s) && Keys(s.log) == (keys.0 + 1, keys.1) && keys.1 < cfg.fsm.maxMenuPresses
    ensures r in all && KeyPressed(r, keys)
  {
    r := HushEndsThePrompt(cfg, all, s, (keys.0 + 1, keys.1), Missing(cfg.fsm.menuGapFrames, s.fsm, Silence));
    var e := NewPromptFeed(cfg, keys, r);
    r := Next(cfg, r, e);
    e := LastFeed(cfg, keys, r);
    r := Next(cfg, r, e);
  }

  // ---- as many cycles as one likes ----

  /** A call that has just pressed a key, with the given entries and keys behind it. */
  ghost predicate Pressing(s: Session, all: iset<Session>, keys: (nat, nat)) {
    s in all && AfterKey(s) && Keys(s.log) == keys
  }

  lemma FirstKey(cfg: SessionConfig, all: iset<Session>) returns (r: Session)
    requires cfg.interval > 0.0 && Closed(cfg, all) && OPENED in all
    ensures Pressing(r, all, (1, 1))
  {
    r := SpeechPresses(cfg, all, OPENED, (0, 0), Missing(cfg.fsm.enterMenuFrames, FRESH, MenuSpeaking));
  }

  /** So many more entries, with a key each. */
  lemma {:induction false} Cycles(cfg: SessionConfig, all: iset<Session>, s: Session, keys: (nat, nat), n: nat)
      returns (r: Session)
    requires cfg.interval > 0.0 && Closed(cfg, all) && Pressing(s, all, keys)
    ensures Pressing(r, all, (keys.0 + n, keys.1 + n))
    decreases n
  {
    if n == 0 {
      r := s;
    } else {
      r := MusicLeaves(cfg, all, s, keys, Missing(cfg.fsm.enterHoldFrames, s.fsm, HoldMusic));
      r := SpeechPresses(cfg, all, r, keys, Missing(cfg.fsm.reenterMenuFrames, r.fsm, MenuSpeaking));
      r := Cycles(cfg, all, r, (keys.0 + 1, keys.1 + 1), n - 1);
    }
  }

  /** So many more keys in the first menu, under the cap. */
  lemma {:induction false} FirstMenu(cfg: SessionConfig, all: iset<Session>, s: Session, k: nat, n: nat)
      returns (r: Session)
    requires cfg.interval > 0.0 && Closed(cfg, all) && Pressing(s, all, (1, k)) && k + n <= cfg.fsm.maxMenuPresses
    requires n > 0 ==> cfg.fsm.menuNoopsBeforeHold > 0
    ensures Pressing(r, all, (1, k + n))
    decreases n
  {
    if n == 0 {
      r := s;
    } else {
      r := KeyToKey(cfg, all, s, (0, k));
      r := FirstMenu(cfg, all, r, k + 1, n - 1);
    }
  }

  /** Whatever the configuration, and whatever n: some run enters menus n + 1 times and presses
      as many keys. */
  lemma AnyNumberOfKeys(cfg: SessionConfig, n: nat)
    requires cfg.interval > 0.0
    ensures exists es :: Keys(Played(cfg, es).log) == (n + 1, n + 1)
  {
    ReachedIsClosed(cfg);
    var s := FirstKey(cfg, Reached(cfg));
    s := Cycles(cfg, Reached(cfg), s, (1, 1), n);
    KeysReached(cfg, s, (n + 1, n + 1));
  }

  lemma KeysReached(cfg: SessionConfig, s: Session, keys: (nat, nat))
    requires cfg.interval > 0.0 && Pressing(s, Reached(cfg), keys)
    ensures exists es :: Keys(Played(cfg, es).log) == keys
  {
    var es :| Played(cfg, es) == s;
    assert Keys(Played(cfg, es).log) == keys;
  }

  /** So no configuration bounds the keys of a call by its cap. */
  lemma CapAloneIsNoBound(cfg: SessionConfig)
    requires cfg.interval > 0.0
    ensures exists es :: Keys(Played(cfg, es).log).1 > Cap(cfg)
  {
    AnyNumberOfKeys(cfg, Cap(cfg));
    var es :| Keys(Played(cfg, es).log) == (Cap(cfg) + 1, Cap(cfg) + 1);
    assert Keys(Played(cfg, es).log).1 > Cap(cfg);
  }

  /** As many keys as one entry is good for without overlapping wakes. */
  function FirstKeys(cfg: SessionConfig): nat { if Cap(cfg) > 1 then Cap(cfg) else 1 }

  lemma FullRun(cfg: SessionConfig, all: iset<Session>, entries: nat) returns (s: Session)
    requires cfg.interval > 0.0 && (Cap(cfg) <= 1 || cfg.fsm.menuNoopsBeforeHold > 0)
    requires Closed(cfg, all) && OPENED in all && entries > 0
    ensures Pressing(s, all, (entries, FirstKeys(cfg) + entries - 1))
  {
    s := FirstKey(cfg, all);
    if FirstKeys(cfg) > 1 { s := FirstMenu(cfg, all, s, 1, FirstKeys(cfg) - 1); }
    s := Cycles(cfg, all, s, (1, FirstKeys(cfg)), entries - 1);
  }
}
