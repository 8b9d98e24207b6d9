/** What becomes of the user of a call: told, still reachable, or forgotten without a word. */
module RegistryFates {
  import opened Prelude
  import opened Registry
  import opened RegistryRuns
  import opened RegistryCare
  import opened RegistryLegs

  ghost function Texts(a: App, g: Group): nat { Count(a, FallbackText(g)) }

  // ---- who is texted by each operation ----

  lemma TeardownTextsNoOther(cfg: AppConfig, a: App, g: Group, text: bool, hangUp: bool, h: Group)
    requires Wf(a) && h != g
    ensures Texts(TornDown(cfg, a, g, text, hangUp), h) == Texts(a, h)
  {
    if g in a.bridges {
      var call := a.made[a.bridges[g]];
      FarewellAsks(cfg, a, call, text, hangUp, h);
      AskedMore(a, TornDown(cfg, a, g, text, hangUp), Farewell(cfg, a, call, text, hangUp), FallbackText(h));
    }
  }

  /** Whether the group's number is known, and how often it was texted. */
  ghost function Told(a: App, h: Group): (bool, nat) { (h in a.userNumbers, Texts(a, h)) }

  lemma QuietTeardown(cfg: AppConfig, a: App, g: Group, h: Group)
    requires Wf(a)
    ensures Told(TornDown(cfg, a, g, false, false), h) == (h in a.userNumbers && h != g, Texts(a, h))
  {
    if g in a.bridges {
      var call := a.made[a.bridges[g]];
      FarewellAsks(cfg, a, call, false, false, h);
      AskedMore(a, TornDown(cfg, a, g, false, false), Farewell(cfg, a, call, false, false), FallbackText(h));
    }
  }

  lemma RedialTellsNobody(cfg: AppConfig, a: App, g: Group, placed: bool, h: Group)
    ensures Told(Redialed(cfg, a, g, placed).0, h) == Told(a, h)
  {
    if Redialable(cfg, a, g) { AskedMore(a, Redialed(cfg, a, g, placed).0, [Placed(g)], FallbackText(h)); }
  }

  lemma ReplacingTellsNobody(a: App, id: BridgeId, h: Group)
    requires Wf(a) && id < |a.made|
    ensures Told(Replaced(a, id), h) == Told(a, h)
  {
  }

  /** What a user knows after an event that ends the group, or does not, loudly or not, with a bridge
      registered or without. */
  function ToldBy(cfg: AppConfig, was: (bool, nat), registered: bool, ends: bool, loud: bool): (bool, nat) {
    (was.0 && !ends, was.1 + if cfg.telephony && ends && loud && registered && was.0 then 1 else 0)
  }

  /** A loud teardown of g texts h exactly when it takes h's number away, with a bridge to end. */
  lemma LoudTeardown(cfg: AppConfig, a: App, g: Group, h: Group)
    requires Wf(a)
    ensures Told(TornDown(cfg, a, g, true, true), h) == ToldBy(cfg, Told(a, h), h in a.bridges, h == g, true)
  {
    if h == g {
      TeardownTexts(cfg, a, g);
      TornDownIsGone(cfg, a, g, true, true);
      assert Held(TornDown(cfg, a, g, true, true), g).number == false;
    } else {
      TeardownTextsNoOther(cfg, a, g, true, true, h);
      TeardownTouchesNoOther(cfg, a, g, true, true, h);
      assert Held(TornDown(cfg, a, g, true, true), h).number == Held(a, h).number;
    }
  }

  /** A leg closes with a stop, or when its session has finished: nothing to tell. */
  ghost predicate ClosesQuietly(a: App, e: Event)
    requires Wf(a) && Enabled(a, e)
  {
    e.AgentCloses? && (e.sawStop || a.made[a.agentSockets[e.socket]].finished)
  }

  ghost predicate Loses(cfg: AppConfig, a: App, e: Event, g: Group)
    requires Wf(a) && Enabled(a, e)
  {
    g in a.userNumbers && g !in Step(cfg, a, e).userNumbers
  }

  /** An event takes the number away without a word: there is no bridge to end, or nothing to tell. */
  ghost predicate Forgets(cfg: AppConfig, a: App, e: Event, g: Group)
    requires Wf(a) && Enabled(a, e)
  {
    Loses(cfg, a, e, g) && (g !in a.bridges || ClosesQuietly(a, e))
  }

  /** The event sends the text exactly when it takes the number away and does not forget. */
  ghost predicate TextsExactly(cfg: AppConfig, a: App, e: Event, g: Group)
    requires Wf(a) && Enabled(a, e)
  {
    Texts(Step(cfg, a, e), g) ==
    Texts(a, g) + if cfg.telephony && Loses(cfg, a, e, g) && !Forgets(cfg, a, e, g) then 1 else 0
  }

  lemma FailingTexts(cfg: AppConfig, a: App, id: BridgeId, h: Group)
    requires Wf(a) && id < |a.made|
    ensures Told(SessionFailed(cfg, a, id), h) ==
            ToldBy(cfg, Told(a, h), h in a.bridges, h == a.made[id].group, true)
  {
    var b := MarkSet(a, (id, a.made[id].(finished := true)));
    assert Told(b, h) == Told(a, h);
    LoudTeardown(cfg, b, a.made[id].group, h);
  }

  lemma ClosingTexts(cfg: AppConfig, a: App, id: BridgeId, sawStop: bool, placed: bool, h: Group)
    requires Wf(a) && id < |a.made|
    ensures var call := a.made[id];
            Told(LegFinished(cfg, a, id, sawStop, placed), h) ==
            ToldBy(cfg, Told(a, h), h in a.bridges, Ends(cfg, a, id, sawStop, placed) && h == call.group,
                   !sawStop && !call.finished)
  {
    var call := a.made[id];
    if !call.reconnecting {
      if sawStop || call.finished {
        QuietTeardown(cfg, a, call.group, h);
      } else if Ends(cfg, a, id, false, placed) {
        DropIsTornDown(cfg, a, id, placed);
        FailedRedialTexts(cfg, a, call.group, placed, h);
      } else {
        DropIsReplaced(cfg, a, id, placed);
        RedialTellsNobody(cfg, a, call.group, placed, h);
        ReplacingTellsNobody(Redialed(cfg, a, call.group, placed).0, id, h);
      }
    }
  }

  lemma FailedRedialTexts(cfg: AppConfig, a: App, g: Group, placed: bool, h: Group)
    requires Wf(a)
    ensures Told(TornDown(cfg, Redialed(cfg, a, g, placed).0, g, true, true), h) ==
            ToldBy(cfg, Told(a, h), h in a.bridges, h == g, true)
  {
    var a1 := Redialed(cfg, a, g, placed).0;
    RedialTellsNobody(cfg, a, g, placed, h);
    LoudTeardown(cfg, a1, g, h);
    assert a1.bridges == a.bridges;
  }

  /** The first of a listing, then the rest of it. */
  lemma ToldTwice(cfg: AppConfig, was: (bool, nat), registered: bool, first: bool, later: bool)
    requires (first ==> registered) && !(first && later)
    ensures ToldBy(cfg, ToldBy(cfg, was, registered, first, true), true, later, true) ==
            ToldBy(cfg, was, true, first || later, true)
  {
  }

  lemma {:induction false} ReapingTexts(cfg: AppConfig, a: App, now: real, listing: seq<Group>, h: Group)
    requires Wf(a) && NoRepeats(listing)
    ensures Told(Reaped(cfg, a, now, listing).0, h) ==
            ToldBy(cfg, Told(a, h), true, h in StaleAmong(a, now, listing), true)
    decreases |listing|
  {
    if listing != [] {
      var g := listing[0];
      if IsStale(a, g, now) {
        var b := TornDown(cfg, a, g, true, true);
        FirstIsReaped(cfg, a, now, listing);
        LoudTeardown(cfg, a, g, h);
        ReapingTexts(cfg, b, now, listing[1..], h);
        ToldTwice(cfg, Told(a, h), h in a.bridges, h == g, h in StaleAmong(b, now, listing[1..]));
        assert Reaped(cfg, a, now, listing).0 == Reaped(cfg, b, now, listing[1..]).0;
      } else {
        StaleAmongRest(a, a, now, listing);
        ReapingTexts(cfg, a, now, listing[1..], h);
      }
    }
  }

  lemma UserClosingTexts(cfg: AppConfig, a: App, s: Socket, h: Group)
    requires Wf(a) && s in a.userSockets
    ensures var call := a.made[a.userSockets[s]];
            Told(UserLegEnded(cfg, a, s), h) ==
            ToldBy(cfg, Told(a, h), h in a.bridges, !call.relayOpen && !call.finished && h == call.group, true)
  {
    var b := a.(userSockets := Without(a.userSockets, s));
    var call := a.made[a.userSockets[s]];
    assert Told(b, h) == Told(a, h);
    FailingTexts(cfg, b, a.userSockets[s], h);
  }

  lemma CreatingTexts(cfg: AppConfig, a: App, g: Group, placed: bool, userLeg: Option<CallId>, h: Group)
    requires Wf(a)
    ensures var r := CallCreated(cfg, a, g, placed, userLeg);
            Texts(r, h) == Texts(a, h) && (h in a.userNumbers ==> h in r.userNumbers)
  {
    var r := CallCreated(cfg, a, g, placed, userLeg);
    if r != a { AskedMore(a, r, [Placed(g)], FallbackText(h)); }
  }

  /** All this of one event: it texts exactly, and brings no number of an existing call back. */
  ghost predicate Fair(cfg: AppConfig, a: App, e: Event, g: Group)
    requires Wf(a) && Enabled(a, e)
  {
    var r := Step(cfg, a, e);
    && TextsExactly(cfg, a, e, g)
    && a.created <= r.created
    && (g in a.created && g in r.userNumbers ==> g in a.userNumbers)
  }

  /** What makes an event fair: how it changes what the user is told. */
  lemma FairIfTold(cfg: AppConfig, a: App, e: Event, g: Group, ends: bool, loud: bool)
    requires Wf(a) && Enabled(a, e) && Step(cfg, a, e).created == a.created
    requires ends ==> (loud <==> !ClosesQuietly(a, e))
    requires Told(Step(cfg, a, e), g) == ToldBy(cfg, Told(a, g), g in a.bridges, ends, loud)
    ensures Fair(cfg, a, e, g)
  {
  }

  lemma CreatedKept(cfg: AppConfig, a: App, g: Group, text: bool, hangUp: bool)
    requires Wf(a)
    ensures TornDown(cfg, a, g, text, hangUp).created == a.created
  {
  }

  lemma FailingIsFair(cfg: AppConfig, a: App, id: BridgeId, g: Group)
    requires Wf(a) && id < |a.made|
    ensures Fair(cfg, a, Fails(id), g)
  {
    FailingTexts(cfg, a, id, g);
    var b := MarkSet(a, (id, a.made[id].(finished := true)));
    CreatedKept(cfg, b, a.made[id].group, true, true);
    assert Step(cfg, a, Fails(id)) == SessionFailed(cfg, a, id);
    FairIfTold(cfg, a, Fails(id), g, g == a.made[id].group, true);
  }

  lemma UserClosingKeepsCreated(cfg: AppConfig, a: App, s: Socket)
    requires Wf(a) && s in a.userSockets
    ensures UserLegEnded(cfg, a, s).created == a.created
  {
    var call := a.made[a.userSockets[s]];
    var b := a.(userSockets := Without(a.userSockets, s));
    CreatedKept(cfg, MarkSet(b, (a.userSockets[s], call.(finished := true))), call.group, true, true);
  }

  lemma UserClosingIsFair(cfg: AppConfig, a: App, s: Socket, g: Group)
    requires Wf(a) && s in a.userSockets
    ensures Fair(cfg, a, UserCloses(s), g)
  {
    var call := a.made[a.userSockets[s]];
    UserClosingTexts(cfg, a, s, g);
    UserClosingKeepsCreated(cfg, a, s);
    assert Step(cfg, a, UserCloses(s)) == UserLegEnded(cfg, a, s);
    FairIfTold(cfg, a, UserCloses(s), g, !call.relayOpen && !call.finished && g == call.group, true);
  }

  lemma {:induction false} ReapingKeepsCreated(cfg: AppConfig, a: App, now: real, listing: seq<Group>)
    requires Wf(a)
    ensures Reaped(cfg, a, now, listing).0.created == a.created
    decreases |listing|
  {
    if listing != [] {
      if IsStale(a, listing[0], now) {
        CreatedKept(cfg, a, listing[0], true, true);
        ReapingKeepsCreated(cfg, TornDown(cfg, a, listing[0], true, true), now, listing[1..]);
      } else {
        ReapingKeepsCreated(cfg, a, now, listing[1..]);
      }
    }
  }

  lemma ReapingIsFair(cfg: AppConfig, a: App, now: real, listing: seq<Group>, g: Group)
    requires Wf(a) && Lists(a, listing)
    ensures Fair(cfg, a, Reap(now, listing), g)
  {
    ReapingTexts(cfg, a, now, listing, g);
    ReapingKeepsCreated(cfg, a, now, listing);
    assert Step(cfg, a, Reap(now, listing)) == Reaped(cfg, a, now, listing).0;
    FairIfTold(cfg, a, Reap(now, listing), g, g in StaleAmong(a, now, listing), true);
  }

  lemma ClosingKeepsCreated(cfg: AppConfig, a: App, id: BridgeId, sawStop: bool, placed: bool)
    requires Wf(a) && id < |a.made|
    ensures LegFinished(cfg, a, id, sawStop, placed).created == a.created
  {
    var call := a.made[id];
    var a1 := Redialed(cfg, a, call.group, placed).0;
    if call.reconnecting {
    } else if sawStop || call.finished {
      CreatedKept(cfg, a, call.group, false, false);
    } else if Ends(cfg, a, id, false, placed) {
      DropIsTornDown(cfg, a, id, placed);
      CreatedKept(cfg, a1, call.group, true, true);
    } else {
      DropIsReplaced(cfg, a, id, placed);
    }
  }

  lemma AgentClosingIsFair(cfg: AppConfig, a: App, s: Socket, sawStop: bool, placed: bool, g: Group)
    requires Wf(a) && s in a.agentSockets
    ensures Fair(cfg, a, AgentCloses(s, sawStop, placed), g)
  {
    var e := AgentCloses(s, sawStop, placed);
    var b := a.(agentSockets := Without(a.agentSockets, s));
    var id := a.agentSockets[s];
    var ends := Ends(cfg, b, id, sawStop, placed) && g == a.made[id].group;
    var loud := !sawStop && !a.made[id].finished;
    assert Told(b, g) == Told(a, g);
    ClosingTexts(cfg, b, id, sawStop, placed, g);
    ClosingKeepsCreated(cfg, b, id, sawStop, placed);
    assert Step(cfg, a, e) == LegFinished(cfg, b, id, sawStop, placed);
    FairIfTold(cfg, a, e, g, ends, loud);
  }

  lemma OthersAreFair(cfg: AppConfig, a: App, e: Event, g: Group)
    requires Wf(a) && Enabled(a, e) && (e.AgentStart? || e.UserStart? || e.UserGivesUp? || IsMark(e))
    ensures Fair(cfg, a, e, g)
  {
    var r := Step(cfg, a, e);
    assert (r.created, r.userNumbers, r.asked) == (a.created, a.userNumbers, a.asked);
    FairIfTold(cfg, a, e, g, false, false);
  }

  lemma CreatingIsFair(cfg: AppConfig, a: App, h: Group, placed: bool, userLeg: Option<CallId>, g: Group)
    requires Wf(a) && h !in a.created
    ensures Fair(cfg, a, Create(h, placed, userLeg), g)
  {
    CreatingTexts(cfg, a, h, placed, userLeg, g);
    assert Step(cfg, a, Create(h, placed, userLeg)) == CallCreated(cfg, a, h, placed, userLeg);
  }

  /** Every event of the registry texts a user exactly when it takes the number away and there is a
      bridge to end and something to tell. */
  lemma EveryEventTextsExactly(cfg: AppConfig, a: App, e: Event, g: Group)
    requires Wf(a) && Enabled(a, e)
    ensures Fair(cfg, a, e, g)
  {
    match e
    case Create(h, placed, userLeg) => CreatingIsFair(cfg, a, h, placed, userLeg, g);
    case Fails(id) => FailingIsFair(cfg, a, id, g);
    case UserCloses(s) => UserClosingIsFair(cfg, a, s, g);
    case Reap(now, listing) => ReapingIsFair(cfg, a, now, listing, g);
    case AgentCloses(s, sawStop, placed) => AgentClosingIsFair(cfg, a, s, sawStop, placed, g);
    case _ => OthersAreFair(cfg, a, e, g);
  }

  // ---- over a run ----

  /** The user's number was known at some time. */
  ghost predicate EverKnown(cfg: AppConfig, es: seq<Event>, g: Group)
    requires IsRun(cfg, es)
  {
    g in After(cfg, es).userNumbers || (es != [] && EverKnown(cfg, es[..|es| - 1], g))
  }

  ghost predicate NeverForgotten(cfg: AppConfig, es: seq<Event>, g: Group)
    requires IsRun(cfg, es)
  {
    es == [] ||
    (NeverForgotten(cfg, es[..|es| - 1], g) && !Forgets(cfg, After(cfg, es[..|es| - 1]), es[|es| - 1], g))
  }

  /** A user whose number was known, and was never forgotten, can still be reached or has been told
      once; a forgotten one has not been told and cannot be reached. */
  ghost predicate Fate(a: App, g: Group, known: bool, never: bool) {
    && (g in a.userNumbers ==> known)
    && (known ==> g in a.created)
    && (if known then never <==> g in a.userNumbers || Texts(a, g) == 1 else never)
  }

  lemma FateGoesOn(cfg: AppConfig, a: App, e: Event, g: Group, known: bool, never: bool)
    requires Wf(a) && Enabled(a, e) && cfg.telephony && Fate(a, g, known, never)
    requires Fair(cfg, a, e, g) && WithinBudget(a, g) && WithinBudget(Step(cfg, a, e), g)
    ensures var r := Step(cfg, a, e);
            Fate(r, g, known || g in r.userNumbers, never && !Forgets(cfg, a, e, g))
  {
    var r := Step(cfg, a, e);
    assert Texts(a, g) == Count(a, FallbackText(g)) && Texts(r, g) == Count(r, FallbackText(g));
  }

  lemma {:induction false} FatesOverARun(cfg: AppConfig, es: seq<Event>, g: Group)
    requires IsRun(cfg, es) && cfg.telephony
    ensures Fate(After(cfg, es), g, EverKnown(cfg, es, g), NeverForgotten(cfg, es, g))
  {
    if es != [] {
      var front, e := es[..|es| - 1], es[|es| - 1];
      FatesOverARun(cfg, front, g);
      CallsAndTextsAreBounded(cfg, front, g);
      CallsAndTextsAreBounded(cfg, es, g);
      EveryEventTextsExactly(cfg, After(cfg, front), e, g);
      FateGoesOn(cfg, After(cfg, front), e, g, EverKnown(cfg, front, g), NeverForgotten(cfg, front, g));
    }
  }

  /** Over a whole run: once a user's number has been known, the user can still be reached, or has been
      sent the fallback text, once, if and only if no event took the number away without a word. */
  lemma ToldUnlessForgotten(cfg: AppConfig, es: seq<Event>, g: Group)
    requires IsRun(cfg, es) && cfg.telephony && EverKnown(cfg, es, g)
    ensures NeverForgotten(cfg, es, g) <==> g in After(cfg, es).userNumbers || Texts(After(cfg, es), g) == 1
  {
    FatesOverARun(cfg, es, g);
  }
}
