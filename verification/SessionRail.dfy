/** The keypress rail is exact. With threaded jobs and a collecting time, a wake asked for while a
    slow answer is awaited is still due when that answer has brought the keys up to the cap. */
module SessionRail {
  import opened Prelude
  import opened CallFsm
  import opened FsmRuns
  import opened Session
  import opened SessionRuns
  import opened SessionFeeds
  import opened SessionPresses

  /** The menu speaks, and the answer is not there yet. */
  function Slow(cfg: SessionConfig): TickInput { Speaking(cfg).(arrived := false) }

  function SlowHush(cfg: SessionConfig): TickInput { Hush(cfg).(arrived := false) }

  /** In a menu, with a job running that was asked to read it. */
  predicate Asked(s: Session, keys: (nat, nat)) {
    && !s.finished && s.kind == Some(MenuJob) && s.slot == Running(MenuJob) && s.wakeDue.None?
    && s.fsm.state.IvrMenu? && s.fsm.menuNoops == 0 && Keys(s.log) == keys && s.fsm.menuPresses == keys.1
  }

  predicate SlowWaiting(s: Session, keys: (nat, nat)) { Waiting(s) && s.fsm.menuNoops == 0 && Keys(s.log) == keys }

  // ---- a job is asked for and not answered ----

  lemma SlowFiring(cfg: SessionConfig, s: Session, now: real)
    requires !cfg.inlineJobs && s.kind.None? && s.slot.Empty? && s.fsm.state.IvrMenu?
    requires s.wakeDue.Some? && now >= s.wakeDue.value
    ensures var r := Polled(cfg, WakeFired(cfg, s, now, Slow(cfg)), now, Slow(cfg));
            && r == s.(wakeDue := None, kind := Some(MenuJob), slot := Running(MenuJob), log := r.log)
            && Keys(r.log) == Keys(s.log)
  {
    StartedBooks(cfg, s.(wakeDue := None), MenuJob, now, Slow(cfg).outcome);
  }

  lemma SlowWaitingTick(cfg: SessionConfig, s: Session, keys: (nat, nat), now: real)
    requires !cfg.inlineJobs && SlowWaiting(s, keys)
    ensures var r := Ticked(cfg, s, now, Slow(cfg));
            if now >= s.wakeDue.value then Asked(r, keys) && !r.fsm.menuGapSeen else SlowWaiting(r, keys)
  {
    var inp := Slow(cfg);
    var f1 := Observed(cfg.fsm, s.fsm, inp.sound, inp.confidence, now).0;
    SpeechObserved(cfg.fsm, s.fsm, now);
    ClassifiedKeys(cfg, s, f1, now, inp);
    var s2 := Classified(cfg, s, f1, now, inp);
    if now >= s.wakeDue.value {
      SlowFiring(cfg, s2, now);
      assert Ticked(cfg, s, now, inp) == Polled(cfg, WakeFired(cfg, s2, now, inp), now, inp);
    } else {
      QuietTick(cfg, s, now, inp);
    }
  }

  lemma AskedTick(cfg: SessionConfig, s: Session, keys: (nat, nat), now: real)
    requires Asked(s, keys) && !s.fsm.menuGapSeen
    ensures var r := Ticked(cfg, s, now, Slow(cfg));
            Asked(r, keys) && !r.fsm.menuGapSeen
  {
    var inp := Slow(cfg);
    SpeechObserved(cfg.fsm, s.fsm, now);
    QuietTick(cfg, s, now, inp);
    ClassifiedKeys(cfg, s, Observed(cfg.fsm, s.fsm, inp.sound, inp.confidence, now).0, now, inp);
  }

  /** A tick that asks for the menu to be read once the prompt is collected. */
  lemma SlowAskingTick(cfg: SessionConfig, s: Session, now: real, keys: (nat, nat))
    requires cfg.menuCollect > 0.0 && Idle(s)
    requires Keys(s.log) == if s.fsm.state.IvrMenu? then keys else (keys.0 - 1, keys.1)
    requires keys.0 > 0
    requires var (f1, asks) := Observed(cfg.fsm, s.fsm, MenuSpeaking, cfg.fsm.minConfidence, now);
             f1.state.IvrMenu? && !f1.menuGapSeen && f1.menuNoops == 0 && asks.WakeTier2Menu?
    ensures SlowWaiting(Ticked(cfg, s, now, Slow(cfg)), keys)
  {
    var inp := Slow(cfg);
    var (f1, asks) := Observed(cfg.fsm, s.fsm, inp.sound, inp.confidence, now);
    ClassifiedKeys(cfg, s, f1, now, inp);
    var s2 := Dispatched(cfg, Classified(cfg, s, f1, now, inp), asks, now, inp);
    assert Ticked(cfg, s, now, inp) == s2;
  }

  /** How far a call still has to go until a job is asked for. */
  predicate SlowToward(cfg: SessionConfig, keys: (nat, nat), left: nat, s: Session) {
    || (Idle(s) && s.fsm.state.Dialing? && keys == (1, 0) && Keys(s.log) == (0, 0)
        && Missing(cfg.fsm.enterMenuFrames, s.fsm, MenuSpeaking) <= left)
    || SlowWaiting(s, keys)
    || (Asked(s, keys) && !s.fsm.menuGapSeen)
  }

  lemma EntryObserved(cfg: FsmConfig, f: Fsm, now: real)
    requires f.state.Dialing? && Missing(cfg.enterMenuFrames, f, MenuSpeaking) == 1
    ensures Observed(cfg, f, MenuSpeaking, cfg.minConfidence, now).0.menuNoops == 0
  {
  }

  lemma AdvancedSlow(cfg: SessionConfig, keys: (nat, nat), left: nat, s: Session)
    requires WakesOverlap(cfg) && SlowToward(cfg, keys, left, s)
    ensures var r := Advanced(cfg, s, Slow(cfg));
            && SlowToward(cfg, keys, if left > 0 then left - 1 else 0, r)
            && (left == 0 && (s.wakeDue.Some? ==> s.next >= s.wakeDue.value) ==> Asked(r, keys) && !r.fsm.menuGapSeen)
  {
    var inp := Slow(cfg);
    if SlowWaiting(s, keys) {
      SlowWaitingTick(cfg, s, keys, s.next);
    } else if Asked(s, keys) && !s.fsm.menuGapSeen {
      AskedTick(cfg, s, keys, s.next);
    } else {
      var (f1, asks) := Observed(cfg.fsm, s.fsm, inp.sound, inp.confidence, s.next);
      SpeechObserved(cfg.fsm, s.fsm, s.next);
      if asks.NoAction? {
        QuietTick(cfg, s, s.next, inp);
        ClassifiedKeys(cfg, s, f1, s.next, inp);
      } else {
        EntryObserved(cfg.fsm, s.fsm, s.next);
        SlowAskingTick(cfg, s, s.next, keys);
      }
    }
  }

  lemma SlowFeed(cfg: SessionConfig, keys: (nat, nat), left: nat, s: Session) returns (e: Event)
    requires cfg.interval > 0.0 && WakesOverlap(cfg) && left > 0 && SlowToward(cfg, keys, left, s)
    ensures SlowToward(cfg, keys, left - 1, Next(cfg, s, e))
  {
    var pcm, s1 := LongFeed(cfg, s, Slow(cfg), Slow(cfg), 0.0);
    e := Feed(pcm, Pair(Slow(cfg), Slow(cfg)));
    AdvancedSlow(cfg, keys, left, s1);
    AdvancedSlow(cfg, keys, left - 1, Advanced(cfg, s1, Slow(cfg)));
  }

  lemma AskedStays(cfg: SessionConfig, keys: (nat, nat), s: Session)
    requires WakesOverlap(cfg) && Asked(s, keys) && !s.fsm.menuGapSeen
    ensures var r := Advanced(cfg, s, Slow(cfg));
            Asked(r, keys) && !r.fsm.menuGapSeen
  {
    AskedTick(cfg, s, keys, s.next);
  }

  lemma LastSlowFeed(cfg: SessionConfig, keys: (nat, nat), s: Session) returns (e: Event)
    requires cfg.interval > 0.0 && WakesOverlap(cfg) && SlowToward(cfg, keys, 0, s)
    ensures var r := Next(cfg, s, e);
            Asked(r, keys) && !r.fsm.menuGapSeen
  {
    var pcm, s1 := LongFeed(cfg, s, Slow(cfg), Slow(cfg), if s.wakeDue.Some? then s.wakeDue.value else 0.0);
    e := Feed(pcm, Pair(Slow(cfg), Slow(cfg)));
    AdvancedSlow(cfg, keys, 0, s1);
    AskedStays(cfg, keys, Advanced(cfg, s1, Slow(cfg)));
  }

  lemma {:induction false} SpeechAsks(cfg: SessionConfig, all: iset<Session>, s: Session, keys: (nat, nat), left: nat)
      returns (r: Session)
    requires cfg.interval > 0.0 && WakesOverlap(cfg) && Closed(cfg, all) && s in all && SlowToward(cfg, keys, left, s)
    ensures r in all && Asked(r, keys) && !r.fsm.menuGapSeen
    decreases left
  {
    if left > 0 {
      var e := SlowFeed(cfg, keys, left, s);
      r := SpeechAsks(cfg, all, Next(cfg, s, e), keys, left - 1);
    } else {
      var e := LastSlowFeed(cfg, keys, s);
      r := Next(cfg, s, e);
    }
  }

  /** The same again in a menu where a key was pressed: silence, then speech. */
  lemma AdvancedRenewedSlow(cfg: SessionConfig, keys: (nat, nat), s: Session)
    requires cfg.interval > 0.0 && WakesOverlap(cfg) && keys.0 > 0 && Renewed(cfg, keys, s)
    ensures var r := Advanced(cfg, s, Slow(cfg));
            || SlowWaiting(r, keys)
            || (Renewed(cfg, keys, r) && r.fsm.streakLabel == Some(MenuSpeaking) && r.fsm.streak >= 1)
    ensures s.fsm.streakLabel == Some(MenuSpeaking) && s.fsm.streak >= 1 ==>
              SlowWaiting(Advanced(cfg, s, Slow(cfg)), keys)
  {
    var inp := Slow(cfg);
    var (f1, asks) := Observed(cfg.fsm, s.fsm, inp.sound, inp.confidence, s.next);
    NewPromptObserved(cfg.fsm, s.fsm, s.next);
    if asks.WakeTier2Menu? {
      SlowAskingTick(cfg, s, s.next, keys);
    } else {
      QuietTick(cfg, s, s.next, inp);
      ClassifiedKeys(cfg, s, f1, s.next, inp);
    }
  }

  lemma NewPromptAsks(cfg: SessionConfig, keys: (nat, nat), s: Session) returns (e: Event)
    requires cfg.interval > 0.0 && WakesOverlap(cfg) && keys.0 > 0
    requires PromptEnding(cfg, keys, 0, s) && keys.1 < cfg.fsm.maxMenuPresses
    ensures SlowToward(cfg, keys, 0, Next(cfg, s, e))
  {
    var pcm, s1 := LongFeed(cfg, s, Slow(cfg), Slow(cfg), s.fsm.menuRefractoryUntil);
    e := Feed(pcm, Pair(Slow(cfg), Slow(cfg)));
    assert Renewed(cfg, keys, s1);
    AdvancedRenewedSlow(cfg, keys, s1);
    var a := Advanced(cfg, s1, Slow(cfg));
    if SlowWaiting(a, keys) { AdvancedSlow(cfg, keys, 0, a); } else { AdvancedRenewedSlow(cfg, keys, a); }
  }

  lemma AskedAgain(cfg: SessionConfig, all: iset<Session>, s: Session, keys: (nat, nat)) returns (r: Session)
    requires cfg.interval > 0.0 && WakesOverlap(cfg) && cfg.fsm.menuNoopsBeforeHold > 0
    requires Closed(cfg, all) && Pressing(s, all, keys) && keys.0 > 0 && keys.1 < cfg.fsm.maxMenuPresses
    ensures r in all && Asked(r, keys) && !r.fsm.menuGapSeen
  {
    r := HushEndsThePrompt(cfg, all, s, keys, Missing(cfg.fsm.menuGapFrames, s.fsm, Silence));
    var e := NewPromptAsks(cfg, keys, r);
    r := SpeechAsks(cfg, all, Next(cfg, r, e), keys, 0);
  }

  // ---- the prompt ends while the answer is awaited ----

  predicate Hushed(cfg: SessionConfig, keys: (nat, nat), left: nat, s: Session) {
    && Asked(s, keys)
    && ((s.fsm.menuGapSeen && s.fsm.streakLabel == Some(Silence))
        || (!s.fsm.menuGapSeen && Missing(cfg.fsm.menuGapFrames, s.fsm, Silence) <= left))
  }

  lemma AdvancedHushed(cfg: SessionConfig, keys: (nat, nat), left: nat, s: Session)
    requires Hushed(cfg, keys, left, s) && cfg.fsm.menuNoopsBeforeHold > 0
    ensures Hushed(cfg, keys, if left > 0 then left - 1 else 0, Advanced(cfg, s, SlowHush(cfg)))
  {
    var inp := SlowHush(cfg);
    HushObserved(cfg.fsm, s.fsm, s.next);
    QuietTick(cfg, s, s.next, inp);
    ClassifiedKeys(cfg, s, Observed(cfg.fsm, s.fsm, inp.sound, inp.confidence, s.next).0, s.next, inp);
  }

  lemma SlowHushFeed(cfg: SessionConfig, keys: (nat, nat), left: nat, s: Session) returns (e: Event)
    requires cfg.interval > 0.0 && left > 0 && Hushed(cfg, keys, left, s) && cfg.fsm.menuNoopsBeforeHold > 0
    ensures Hushed(cfg, keys, left - 1, Next(cfg, s, e))
  {
    var pcm, s1 := LongFeed(cfg, s, SlowHush(cfg), SlowHush(cfg), 0.0);
    e := Feed(pcm, Pair(SlowHush(cfg), SlowHush(cfg)));
    AdvancedHushed(cfg, keys, left, s1);
    AdvancedHushed(cfg, keys, left - 1, Advanced(cfg, s1, SlowHush(cfg)));
  }

  lemma {:induction false} HushWhileAsked(
      cfg: SessionConfig, all: iset<Session>, s: Session, keys: (nat, nat), left: nat)
      returns (r: Session)
    requires cfg.interval > 0.0 && Closed(cfg, all) && s in all
    requires Hushed(cfg, keys, left, s) && cfg.fsm.menuNoopsBeforeHold > 0
    ensures r in all && Hushed(cfg, keys, 0, r)
    decreases left
  {
    if left > 0 {
      var e := SlowHushFeed(cfg, keys, left, s);
      r := HushWhileAsked(cfg, all, Next(cfg, s, e), keys, left - 1);
    } else {
      r := s;
    }
  }

  // ---- two keys for the price of one ----

  /** The first frame of speech after silence asks for nothing yet. */
  lemma FirstFrame(cfg: SessionConfig, s: Session, keys: (nat, nat))
    requires Asked(s, keys) && s.fsm.menuGapSeen && s.fsm.streakLabel == Some(Silence)
    ensures var r := Advanced(cfg, s, Slow(cfg));
            && Asked(r, keys) && r.fsm.menuGapSeen && r.fsm.streakLabel == Some(MenuSpeaking) && r.fsm.streak == 1
            && r.fsm.menuRefractoryUntil == s.fsm.menuRefractoryUntil && r.next == s.next + cfg.interval
  {
    var inp := Slow(cfg);
    FirstFrameObserved(cfg.fsm, s.fsm, s.next);
    QuietTick(cfg, s, s.next, inp);
    ClassifiedKeys(cfg, s, Observed(cfg.fsm, s.fsm, inp.sound, inp.confidence, s.next).0, s.next, inp);
  }

  lemma FirstFrameObserved(cfg: FsmConfig, f: Fsm, now: real)
    requires f.state.IvrMenu? && f.menuGapSeen && f.streakLabel == Some(Silence)
    ensures var (f1, asks) := Observed(cfg, f, MenuSpeaking, cfg.minConfidence, now);
            asks.NoAction? && f1 == f.(streakLabel := Some(MenuSpeaking), streak := 1)
  {
  }

  /** The second one asks again; the answer arrives in its tick and leaves the new wake due. */
  lemma SecondFrame(cfg: SessionConfig, s: Session, keys: (nat, nat))
    requires WakesOverlap(cfg) && Asked(s, keys) && s.fsm.menuGapSeen
    requires s.fsm.streakLabel == Some(MenuSpeaking) && s.fsm.streak == 1
    requires s.next >= s.fsm.menuRefractoryUntil && keys.1 < cfg.fsm.maxMenuPresses
    ensures var r := Advanced(cfg, s, Speaking(cfg));
            Waiting(r) && Keys(r.log) == (keys.0, keys.1 + 1)
  {
    var inp, now := Speaking(cfg), s.next;
    var (f1, asks) := Observed(cfg.fsm, s.fsm, inp.sound, inp.confidence, now);
    NewPromptObserved(cfg.fsm, s.fsm, now);
    ClassifiedKeys(cfg, s, f1, now, inp);
    AnswerAndWake(cfg, Classified(cfg, s, f1, now, inp), now);
    assert Ticked(cfg, s, now, inp) == Acted(cfg, Classified(cfg, s, f1, now, inp), asks, now, inp);
  }

  lemma AnswerAndWake(cfg: SessionConfig, s: Session, now: real)
    requires cfg.menuCollect > 0.0 && s.kind == Some(MenuJob) && s.slot == Running(MenuJob) && s.fsm.state.IvrMenu?
    ensures var r := Acted(cfg, s, WakeTier2Menu, now, Speaking(cfg));
            && r == s.(slot := Empty, kind := None, wakeDue := Some(now + cfg.menuCollect),
                       fsm := MenuActionNoted(cfg.fsm, s.fsm, now), log := r.log)
            && Keys(r.log) == (Keys(s.log).0, Keys(s.log).1 + 1)
  {
    AnswerPresses(cfg, s.(wakeDue := Some(now + cfg.menuCollect)), now, Speaking(cfg));
  }

  lemma AnswerPresses(cfg: SessionConfig, s: Session, now: real, inp: TickInput)
    requires s.kind == Some(MenuJob) && s.slot == Running(MenuJob) && s.fsm.state.IvrMenu?
    requires inp.arrived && inp.outcome.Value? && inp.outcome.digits != ""
    ensures var r := Polled(cfg, s, now, inp);
            && r == s.(slot := Empty, kind := None, fsm := MenuActionNoted(cfg.fsm, s.fsm, now), log := r.log)
            && Keys(r.log) == (Keys(s.log).0, Keys(s.log).1 + 1)
  {
    var s2 := Emitted(s.(slot := Empty, kind := None), JobAnswered(MenuJob, MenuJob));
    assert Polled(cfg, s, now, inp) == MenuApplied(cfg, s2, inp.outcome.digits, now);
    assert Keys(s2.log) == Keys(s.log);
  }

  lemma AnswerFeed(cfg: SessionConfig, s: Session, keys: (nat, nat)) returns (e: Event)
    requires cfg.interval > 0.0 && WakesOverlap(cfg) && Hushed(cfg, keys, 0, s) && keys.1 < cfg.fsm.maxMenuPresses
    ensures var r := Next(cfg, s, e);
            Waiting(r) && Keys(r.log) == (keys.0, keys.1 + 1)
  {
    var pcm, s1 := LongFeed(cfg, s, Slow(cfg), Speaking(cfg), s.fsm.menuRefractoryUntil);
    e := Feed(pcm, Pair(Slow(cfg), Speaking(cfg)));
    FirstFrame(cfg, s1, keys);
    SecondFrame(cfg, Advanced(cfg, s1, Slow(cfg)), keys);
  }

  lemma HushTheMenu(cfg: SessionConfig, all: iset<Session>, s: Session, keys: (nat, nat)) returns (r: Session)
    requires cfg.interval > 0.0 && cfg.fsm.menuNoopsBeforeHold > 0
    requires Closed(cfg, all) && s in all && Asked(s, keys) && !s.fsm.menuGapSeen
    ensures r in all && Hushed(cfg, keys, 0, r)
  {
    r := HushWhileAsked(cfg, all, s, keys, Missing(cfg.fsm.menuGapFrames, s.fsm, Silence));
  }

  lemma FirstOfTwo(cfg: SessionConfig, all: iset<Session>, s: Session, keys: (nat, nat)) returns (r: Session)
    requires cfg.interval > 0.0 && WakesOverlap(cfg) && Closed(cfg, all)
    requires s in all && Hushed(cfg, keys, 0, s) && keys.1 < cfg.fsm.maxMenuPresses
    ensures r in all && Waiting(r) && Keys(r.log) == (keys.0, keys.1 + 1)
  {
    var e := AnswerFeed(cfg, s, keys);
    r := Next(cfg, s, e);
  }

  lemma SecondOfTwo(cfg: SessionConfig, all: iset<Session>, s: Session, k: nat) returns (r: Session)
    requires cfg.interval > 0.0 && Closed(cfg, all) && s in all && Waiting(s) && Keys(s.log) == (1, k + 1)
    ensures Pressing(r, all, (1, k + 2))
  {
    var e := LastFeed(cfg, (0, k + 1), s);
    r := Next(cfg, s, e);
  }

  lemma TwoKeys(cfg: SessionConfig, all: iset<Session>, s: Session, k: nat) returns (r: Session)
    requires cfg.interval > 0.0 && WakesOverlap(cfg) && cfg.fsm.menuNoopsBeforeHold > 0
    requires Closed(cfg, all) && s in all && Asked(s, (1, k)) && !s.fsm.menuGapSeen && k < cfg.fsm.maxMenuPresses
    ensures Pressing(r, all, (1, k + 2))
  {
    r := HushTheMenu(cfg, all, s, (1, k));
    r := FirstOfTwo(cfg, all, r, (1, k));
    r := SecondOfTwo(cfg, all, r, k);
  }

  // ---- the rail ----

  /** In the first menu, the cap and one key more. */
  lemma OverTheCap(cfg: SessionConfig, all: iset<Session>) returns (r: Session)
    requires cfg.interval > 0.0 && WakesOverlap(cfg) && cfg.fsm.menuNoopsBeforeHold > 0 && Cap(cfg) > 0
    requires Closed(cfg, all) && OPENED in all
    ensures Pressing(r, all, (1, Cap(cfg) + 1))
  {
    var k := Cap(cfg) - 1;
    if k == 0 {
      r := SpeechAsks(cfg, all, OPENED, (1, 0), Missing(cfg.fsm.enterMenuFrames, FRESH, MenuSpeaking));
    } else {
      r := FirstKey(cfg, all);
      r := FirstMenu(cfg, all, r, 1, k - 1);
      r := AskedAgain(cfg, all, r, (1, k));
    }
    r := TwoKeys(cfg, all, r, k);
  }

  /** Silence does not drive a call out of a menu it has pressed a key in, or need not. */
  predicate RoomInMenus(cfg: SessionConfig) {
    cfg.fsm.menuNoopsBeforeHold > 0 || Cap(cfg) == 0 || (Cap(cfg) == 1 && !WakesOverlap(cfg))
  }

  lemma FullRail(cfg: SessionConfig, all: iset<Session>, entries: nat) returns (r: Session)
    requires cfg.interval > 0.0 && RoomInMenus(cfg) && Closed(cfg, all) && OPENED in all && entries > 0
    ensures Pressing(r, all, (entries, Rail(cfg, entries)))
  {
    if WakesOverlap(cfg) && Cap(cfg) > 0 {
      r := OverTheCap(cfg, all);
      r := Cycles(cfg, all, r, (1, Cap(cfg) + 1), entries - 1);
    } else {
      r := FullRun(cfg, all, entries);
    }
  }

  /** The rail is exact: for every number of entries some run presses as many keys as it allows. */
  lemma RailIsReached(cfg: SessionConfig, entries: nat)
    requires cfg.interval > 0.0 && RoomInMenus(cfg)
    ensures exists es :: Keys(Played(cfg, es).log) == (entries, Rail(cfg, entries))
  {
    if entries == 0 {
      assert Keys(Played(cfg, []).log) == (0, 0);
    } else {
      ReachedIsClosed(cfg);
      var s := FullRail(cfg, Reached(cfg), entries);
      KeysReached(cfg, s, (entries, Rail(cfg, entries)));
    }
  }
}
