/** What the end of a leg does to its call: to the bridge it sat on, to a successor of that bridge,
    and to the user. */
module RegistryLegs {
  import opened Prelude
  import opened Registry
  import opened RegistryRuns
  import opened RegistryCare

  // ---- what a closing leg does to its call ----

  ghost predicate Redialable(cfg: AppConfig, a: App, g: Group) {
    cfg.telephony && cfg.publicBase && g in a.redials && a.redials[g] < 2
  }

  /** A closing leg ends its group unless a redirect is in flight or the call is placed again. */
  ghost predicate Ends(cfg: AppConfig, a: App, id: BridgeId, sawStop: bool, placed: bool)
    requires Wf(a) && id < |a.made|
  {
    var call := a.made[id];
    !call.reconnecting && (sawStop || call.finished || !(Redialable(cfg, a, call.group) && placed))
  }

  lemma DropIsReplaced(cfg: AppConfig, a: App, id: BridgeId, placed: bool)
    requires Wf(a) && id < |a.made| && !a.made[id].reconnecting && !a.made[id].finished
    requires !Ends(cfg, a, id, false, placed)
    ensures LegFinished(cfg, a, id, false, placed) == Replaced(Redialed(cfg, a, a.made[id].group, placed).0, id)
  {
  }

  lemma DropIsTornDown(cfg: AppConfig, a: App, id: BridgeId, placed: bool)
    requires Wf(a) && id < |a.made| && !a.made[id].reconnecting && !a.made[id].finished
    requires Ends(cfg, a, id, false, placed)
    ensures var g := a.made[id].group;
            LegFinished(cfg, a, id, false, placed) == TornDown(cfg, Redialed(cfg, a, g, placed).0, g, true, true)
  {
  }

  /** A closing leg leaves its group registered exactly when its own bridge has a redirect in flight,
      or when that bridge is no longer the registered one and the drop of it is answered by placing
      yet another call. So a stale leg's close takes a successor down in every other case. */
  lemma CloseKeepsTheGroupExactlyWhen(cfg: AppConfig, a: App, id: BridgeId, sawStop: bool, placed: bool)
    requires Wf(a) && id < |a.made| && a.made[id].group in a.bridges
    ensures var call := a.made[id];
            call.group in LegFinished(cfg, a, id, sawStop, placed).bridges <==>
            || call.reconnecting
            || (a.bridges[call.group] != id && !sawStop && !call.finished && Redialable(cfg, a, call.group) && placed)
  {
    var call := a.made[id];
    var g := call.group;
    var a1 := Redialed(cfg, a, g, placed).0;
    if call.reconnecting {
    } else if sawStop || call.finished {
      TornDownIsGone(cfg, a, g, false, false);
    } else if Ends(cfg, a, id, false, placed) {
      DropIsTornDown(cfg, a, id, placed);
      TornDownIsGone(cfg, a1, g, true, true);
    } else {
      DropIsReplaced(cfg, a, id, placed);
      ReplacedIsUnregistered(a1, id);
    }
  }

  lemma ReplacedIsUnregistered(a: App, id: BridgeId)
    requires Wf(a) && id < |a.made| && a.made[id].group in a.bridges
    ensures a.made[id].group in Replaced(a, id).bridges <==> a.bridges[a.made[id].group] != id
  {
  }

  /** A redirect keeps the call if the old leg closes before the new one starts: nothing is changed by
      it but the leg, and nobody waits for a redirect any more. */
  lemma RedirectInOrder(
      cfg: AppConfig, a: App, s: Socket, t: Socket, g: Group, call: CallId, now: real, sawStop: bool, placed: bool)
    requires Wf(a) && s in a.agentSockets && t !in a.agentSockets && t !in a.userSockets
    requires g in a.bridges && a.bridges[g] == a.agentSockets[s]
    ensures var closed := Step(cfg, Pressed(a, s, now), AgentCloses(s, sawStop, placed));
            var r := Step(cfg, closed, AgentStart(t, g, call));
            var waited := a.made[a.bridges[g]];
            r == a.(agentSockets := Without(a.agentSockets, s)[t := a.bridges[g]],
                    made := a.made[a.bridges[g] := waited.(reconnecting := false, reconnectSince := None)])
  {
    ClosedWhileRedirecting(cfg, Pressed(a, s, now), s, sawStop, placed);
    var closed := Step(cfg, Pressed(a, s, now), AgentCloses(s, sawStop, placed));
    assert Step(cfg, closed, AgentStart(t, g, call)) == Resumed(closed, t, g);
  }

  /** If the new leg starts first, the old one's close takes the call down under it. */
  lemma RedirectOverlapped(
      cfg: AppConfig, a: App, s: Socket, t: Socket, g: Group, call: CallId, now: real, sawStop: bool, placed: bool)
    requires Wf(a) && s in a.agentSockets && t !in a.agentSockets && t !in a.userSockets
    requires g in a.bridges && a.bridges[g] == a.agentSockets[s]
    ensures var started := Step(cfg, Pressed(a, s, now), AgentStart(t, g, call));
            var r := Step(cfg, started, AgentCloses(s, sawStop, placed));
            g !in r.bridges && t in r.agentSockets && r.agentSockets[t] == a.bridges[g]
  {
    var started := Resumed(Pressed(a, s, now), t, g);
    assert Step(cfg, Pressed(a, s, now), AgentStart(t, g, call)) == started;
    ClosesForGood(cfg, started, s, sawStop, placed, t);
  }

  lemma ClosesForGood(cfg: AppConfig, a: App, s: Socket, sawStop: bool, placed: bool, t: Socket)
    requires Wf(a) && s in a.agentSockets && t in a.agentSockets && s != t
    requires var call := a.made[a.agentSockets[s]];
             !call.reconnecting && call.group in a.bridges && a.bridges[call.group] == a.agentSockets[s]
    ensures var r := Step(cfg, a, AgentCloses(s, sawStop, placed));
            && a.made[a.agentSockets[s]].group !in r.bridges
            && t in r.agentSockets && r.agentSockets[t] == a.agentSockets[t]
  {
    var b := a.(agentSockets := Without(a.agentSockets, s));
    CloseKeepsTheGroupExactlyWhen(cfg, b, a.agentSockets[s], sawStop, placed);
    FinishingKeepsTheLegs(cfg, b, a.agentSockets[s], sawStop, placed);
  }

  lemma FinishingKeepsTheLegs(cfg: AppConfig, a: App, id: BridgeId, sawStop: bool, placed: bool)
    requires Wf(a) && id < |a.made|
    ensures LegFinished(cfg, a, id, sawStop, placed).agentSockets == a.agentSockets
  {
    var call := a.made[id];
    var a1 := Redialed(cfg, a, call.group, placed).0;
    assert a1.agentSockets == a.agentSockets;
    TeardownKeepsTheLegs(cfg, a, call.group, false, false);
    TeardownKeepsTheLegs(cfg, a1, call.group, true, true);
  }

  lemma TeardownKeepsTheLegs(cfg: AppConfig, a: App, g: Group, text: bool, hangUp: bool)
    requires Wf(a)
    ensures TornDown(cfg, a, g, text, hangUp).agentSockets == a.agentSockets
  {
  }

  /** On every run, a call that drops is placed again if and only if there is a client and an address,
      the group's context is there, and fewer than three calls were placed for it so far. */
  lemma DropIsPlacedAgainExactlyWhen(cfg: AppConfig, es: seq<Event>, s: Socket, placed: bool)
    requires IsRun(cfg, es) && s in After(cfg, es).agentSockets
    requires var call := After(cfg, es).made[After(cfg, es).agentSockets[s]]; !call.reconnecting && !call.finished
    ensures var a, r := After(cfg, es), Step(cfg, After(cfg, es), AgentCloses(s, false, placed));
            var g := a.made[a.agentSockets[s]].group;
            Count(r, Placed(g)) == Count(a, Placed(g)) +
            if cfg.telephony && cfg.publicBase && g in a.redials && Count(a, Placed(g)) < 3 then 1 else 0
  {
    var a := After(cfg, es);
    var id := a.agentSockets[s];
    var b := a.(agentSockets := Without(a.agentSockets, s));
    CallsAndTextsAreBounded(cfg, es, a.made[id].group);
    assert Step(cfg, a, AgentCloses(s, false, placed)) == LegFinished(cfg, b, id, false, placed);
    DropPlaces(cfg, b, id, placed);
  }

  lemma DropPlaces(cfg: AppConfig, a: App, id: BridgeId, placed: bool)
    requires Wf(a) && id < |a.made| && !a.made[id].reconnecting && !a.made[id].finished
    ensures var g := a.made[id].group;
            Count(LegFinished(cfg, a, id, false, placed), Placed(g)) ==
            Count(a, Placed(g)) + if Redialable(cfg, a, g) then 1 else 0
  {
    var g := a.made[id].group;
    var a1 := Redialed(cfg, a, g, placed).0;
    RedialPlaces(cfg, a, g, placed);
    if Ends(cfg, a, id, false, placed) {
      DropIsTornDown(cfg, a, id, placed);
      TeardownPlacesNothing(cfg, a1, g, g);
    } else {
      DropIsReplaced(cfg, a, id, placed);
      assert Replaced(a1, id).asked == a1.asked;
    }
  }

  lemma RedialPlaces(cfg: AppConfig, a: App, g: Group, placed: bool)
    ensures Count(Redialed(cfg, a, g, placed).0, Placed(g)) ==
            Count(a, Placed(g)) + if Redialable(cfg, a, g) then 1 else 0
  {
    if Redialable(cfg, a, g) { AskedMore(a, Redialed(cfg, a, g, placed).0, [Placed(g)], Placed(g)); }
  }

  lemma TeardownPlacesNothing(cfg: AppConfig, a: App, g: Group, h: Group)
    requires Wf(a)
    ensures Count(TornDown(cfg, a, g, true, true), Placed(h)) == Count(a, Placed(h))
  {
    if g in a.bridges {
      var call := a.made[a.bridges[g]];
      FarewellAsks(cfg, a, call, true, true, h);
      AskedMore(a, TornDown(cfg, a, g, true, true), Farewell(cfg, a, call, true, true), Placed(h));
    }
  }

  // ---- what a teardown asks for ----

  /** A leg that can be hung up. */
  predicate CanBeHungUp(leg: CallId) { leg != "" && leg != "unknown" }

  /** A teardown with a bridge to end asks for the text, if there is a reason for one and a number to
      send it to, and then for the end of the business's leg and of the user's, whichever is known;
      without a client, or a bridge, it asks for nothing. */
  lemma TeardownAsksExactly(cfg: AppConfig, a: App, g: Group, text: bool, hangUp: bool)
    requires Wf(a)
    ensures TornDown(cfg, a, g, text, hangUp).asked == a.asked +
            if !cfg.telephony || g !in a.bridges then []
            else
              var call := a.made[a.bridges[g]];
              (if text && g in a.userNumbers then [FallbackText(g)] else []) +
              (if hangUp && CanBeHungUp(call.id) then [HungUp(call.id)] else []) +
              (if hangUp && call.userLeg.Some? && CanBeHungUp(call.userLeg.value) then [HungUp(call.userLeg.value)]
               else [])
  {
    if g in a.bridges {
      var call := a.made[a.bridges[g]];
      FarewellIs(cfg, a, call, text, hangUp);
      assert TornDown(cfg, a, g, text, hangUp).asked == a.asked + Farewell(cfg, a, call, text, hangUp);
    }
  }

  lemma FarewellIs(cfg: AppConfig, a: App, call: Call, text: bool, hangUp: bool)
    ensures Farewell(cfg, a, call, text, hangUp) ==
            if !cfg.telephony then []
            else
              (if text && call.group in a.userNumbers then [FallbackText(call.group)] else []) +
              (if hangUp && CanBeHungUp(call.id) then [HungUp(call.id)] else []) +
              (if hangUp && call.userLeg.Some? && CanBeHungUp(call.userLeg.value) then [HungUp(call.userLeg.value)]
               else [])
  {
  }

  // ---- texts ----

  lemma TeardownTexts(cfg: AppConfig, a: App, g: Group)
    requires Wf(a)
    ensures Count(TornDown(cfg, a, g, true, true), FallbackText(g)) ==
            Count(a, FallbackText(g)) + if cfg.telephony && g in a.bridges && g in a.userNumbers then 1 else 0
  {
    if g in a.bridges {
      var call := a.made[a.bridges[g]];
      FarewellAsks(cfg, a, call, true, true, g);
      AskedMore(a, TornDown(cfg, a, g, true, true), Farewell(cfg, a, call, true, true), FallbackText(g));
    }
  }

  // ---- what a leaving user is told ----

  /** A user who leaves is sent the fallback text exactly when the relay is shut, the session has not
      finished, the number is known, and the group has a bridge just then, be it another one than
      the user sat on. */
  lemma LeavingIsAnsweredExactlyWhen(cfg: AppConfig, a: App, s: Socket)
    requires Wf(a) && s in a.userSockets
    ensures var call := a.made[a.userSockets[s]];
            var g := call.group;
            Count(UserLegEnded(cfg, a, s), FallbackText(g)) == Count(a, FallbackText(g)) +
            if cfg.telephony && !call.relayOpen && !call.finished && g in a.userNumbers && g in a.bridges then 1 else 0
  {
    var id := a.userSockets[s];
    var a1 := a.(userSockets := Without(a.userSockets, s));
    if !a.made[id].relayOpen && !a.made[id].finished {
      TeardownTexts(cfg, MarkSet(a1, (id, a.made[id].(finished := true))), a.made[id].group);
    }
  }

  /** A call is created and its user rung; the agent leg starts on socket 0, the user's on socket 1. */
  ghost function BothLegs(g: Group, user: CallId, call: CallId): seq<Event> {
    [Create(g, true, Some(user)), AgentStart(0, g, call), UserStart(1, g)]
  }

  ghost function UserWaiting(g: Group, user: CallId, call: CallId): App {
    App(map[g := 0], map[call := 0], {g}, map[g := user], {g}, map[g := 0],
        [Call(g, call, Some(user), false, None, false, false, false)], map[0 := 0], map[1 := 0], {g}, [Placed(g)])
  }

  lemma BothLegsWait(cfg: AppConfig, g: Group, user: CallId, call: CallId)
    requires cfg.telephony && cfg.publicBase
    ensures IsRun(cfg, BothLegs(g, user, call)) && After(cfg, BothLegs(g, user, call)) == UserWaiting(g, user, call)
  {
    var e0, e1, e2 := Create(g, true, Some(user)), AgentStart(0, g, call), UserStart(1, g);
    OneMore(cfg, [], e0);
    assert [] + [e0] == [e0];
    var a1 := CallCreated(cfg, NO_CALLS, g, true, Some(user));
    assert After(cfg, [e0]) == a1;
    OneMore(cfg, [e0], e1);
    assert [e0] + [e1] == [e0, e1];
    assert After(cfg, [e0, e1]) == Begun(a1, 0, g, call);
    OneMore(cfg, [e0, e1], e2);
    assert [e0, e1] + [e2] == BothLegs(g, user, call);
  }

  /** Between a redial and its pickup the group has no bridge: the user who leaves then is told
      nothing, the context goes, and the second call is left ringing for nobody. */
  lemma LeavingDuringARedial(cfg: AppConfig, g: Group, user: CallId, call: CallId)
    requires cfg.telephony && cfg.publicBase
    ensures var es := BothLegs(g, user, call) + [AgentCloses(0, false, true)] + [UserCloses(1)];
            IsRun(cfg, es) && Held(After(cfg, es), g) == NOTHING && After(cfg, es).asked == [Placed(g), Placed(g)]
  {
    var es := BothLegs(g, user, call);
    BothLegsWait(cfg, g, user, call);
    OneMore(cfg, es, AgentCloses(0, false, true));
    DropIsRedialed(cfg, g, user, call);
    LeavingUnregistered(cfg, After(cfg, es + [AgentCloses(0, false, true)]), g);
    OneMore(cfg, es + [AgentCloses(0, false, true)], UserCloses(1));
  }

  lemma DropIsRedialed(cfg: AppConfig, g: Group, user: CallId, call: CallId)
    requires cfg.telephony && cfg.publicBase
    ensures var r := Step(cfg, UserWaiting(g, user, call), AgentCloses(0, false, true));
            && g !in r.bridges && |r.made| == 1 && r.made[0].group == g && !r.made[0].relayOpen && !r.made[0].finished
            && r.userSockets == map[1 := 0] && r.asked == [Placed(g), Placed(g)]
  {
    var a := UserWaiting(g, user, call);
    var b := a.(agentSockets := Without(a.agentSockets, 0));
    assert Step(cfg, a, AgentCloses(0, false, true)) == Replaced(Redialed(cfg, b, g, true).0, 0);
  }

  lemma LeavingUnregistered(cfg: AppConfig, a: App, g: Group)
    requires Wf(a) && g !in a.bridges && |a.made| == 1 && a.made[0].group == g
    requires !a.made[0].relayOpen && !a.made[0].finished && a.userSockets == map[1 := 0]
    ensures var r := Step(cfg, a, UserCloses(1));
            Held(r, g) == NOTHING && r.asked == a.asked
  {
    var a1 := a.(userSockets := Without(a.userSockets, 1));
    var b := MarkSet(a1, (0, a.made[0].(finished := true)));
    assert Step(cfg, a, UserCloses(1)) == TornDown(cfg, b, g, true, true);
    TornDownIsGone(cfg, b, g, true, true);
  }

  /** While the holding line is spoken the session has finished and the relay is still shut: the
      user who leaves then is told nothing, and the call stays registered, relay to come. */
  lemma LeavingDuringTheHoldingLine(cfg: AppConfig, g: Group, user: CallId, call: CallId)
    requires cfg.telephony && cfg.publicBase
    ensures var es := BothLegs(g, user, call) + [Completes(0)] + [UserCloses(1)];
            var a := UserWaiting(g, user, call);
            && IsRun(cfg, es)
            && Held(After(cfg, es), g) == Held(a, g).(bridge := Some((0, a.made[0].(finished := true))))
            && After(cfg, es).asked == a.asked
            && Enabled(After(cfg, es), RelayOpens(0))
  {
    var es := BothLegs(g, user, call);
    var a := UserWaiting(g, user, call);
    BothLegsWait(cfg, g, user, call);
    OneMore(cfg, es, Completes(0));
    var b := MarkSet(a, (0, a.made[0].(finished := true)));
    assert Step(cfg, a, Completes(0)) == b;
    OneMore(cfg, es + [Completes(0)], UserCloses(1));
    assert Step(cfg, b, UserCloses(1)) == b.(userSockets := Without(b.userSockets, 1));
  }

  /** Once the relay is open the call is the user's own: leaving it ends nothing here, and asks for
      nothing. */
  lemma LeavingAfterTheHandoff(cfg: AppConfig, g: Group, user: CallId, call: CallId)
    requires cfg.telephony && cfg.publicBase
    ensures var es := BothLegs(g, user, call) + [RelayOpens(0)] + [UserCloses(1)];
            var a := UserWaiting(g, user, call);
            && IsRun(cfg, es)
            && Held(After(cfg, es), g) == Held(a, g).(bridge := Some((0, a.made[0].(relayOpen := true))))
            && After(cfg, es).asked == a.asked
  {
    var es := BothLegs(g, user, call);
    var a := UserWaiting(g, user, call);
    BothLegsWait(cfg, g, user, call);
    OneMore(cfg, es, RelayOpens(0));
    var b := MarkSet(a, (0, a.made[0].(relayOpen := true)));
    assert Step(cfg, a, RelayOpens(0)) == b;
    OneMore(cfg, es + [RelayOpens(0)], UserCloses(1));
    assert Step(cfg, b, UserCloses(1)) == b.(userSockets := Without(b.userSockets, 1));
  }

  // ---- a successor taken down ----

  /** The events of a redirect whose new leg starts first; the old leg's close then has the call
      placed again, and the new leg is left with a bridge that is no longer registered. */
  ghost function OverlappedAndRedialed(g: Group, user: CallId, call: CallId, now: real): seq<Event> {
    BothLegs(g, user, call) + [Press(0, now)] + [AgentStart(2, g, call)] + [AgentCloses(0, false, true)]
  }

  predicate StaleLegOnly(a: App, g: Group) {
    && g !in a.bridges && a.agentSockets == map[2 := 0] && a.userSockets == map[1 := 0]
    && |a.made| == 1 && a.made[0].group == g && !a.made[0].reconnecting
  }

  lemma {:induction false} OverlapLeavesAStaleLeg(cfg: AppConfig, g: Group, user: CallId, call: CallId, now: real)
    requires cfg.telephony && cfg.publicBase
    ensures var es := OverlappedAndRedialed(g, user, call, now);
            IsRun(cfg, es) && StaleLegOnly(After(cfg, es), g)
  {
    var es := BothLegs(g, user, call);
    var a := UserWaiting(g, user, call);
    BothLegsWait(cfg, g, user, call);
    OneMore(cfg, es, Press(0, now));
    var b := Pressed(a, 0, now);
    assert Step(cfg, a, Press(0, now)) == b;
    OneMore(cfg, es + [Press(0, now)], AgentStart(2, g, call));
    var c := Resumed(b, 2, g);
    assert Step(cfg, b, AgentStart(2, g, call)) == c;
    OneMore(cfg, es + [Press(0, now)] + [AgentStart(2, g, call)], AgentCloses(0, false, true));
    RedialReplaces(cfg, c, g);
  }

  lemma RedialReplaces(cfg: AppConfig, a: App, g: Group)
    requires Wf(a) && a.agentSockets == map[0 := 0, 2 := 0] && a.userSockets == map[1 := 0] && |a.made| == 1
    requires a.made[0].group == g && !a.made[0].reconnecting && !a.made[0].finished
    requires g in a.bridges && a.bridges[g] == 0 && Redialable(cfg, a, g)
    ensures StaleLegOnly(Step(cfg, a, AgentCloses(0, false, true)), g)
  {
    var b := a.(agentSockets := Without(a.agentSockets, 0));
    assert Step(cfg, a, AgentCloses(0, false, true)) == Replaced(Redialed(cfg, b, g, true).0, 0);
  }

  /** Then the call is picked up on a new leg, and the stale leg's close takes it down under it. */
  lemma StaleCloseTakesTheSuccessor(cfg: AppConfig, g: Group, user: CallId, call: CallId, now: real, placed: bool)
    requires cfg.telephony && cfg.publicBase
    ensures var es := OverlappedAndRedialed(g, user, call, now) + [AgentStart(3, g, call)];
            && IsRun(cfg, es) && g in After(cfg, es).bridges && After(cfg, es).bridges[g] == 1
            && IsRun(cfg, es + [AgentCloses(2, true, placed)])
            && g !in After(cfg, es + [AgentCloses(2, true, placed)]).bridges
            && Live(After(cfg, es + [AgentCloses(2, true, placed)]), 1)
  {
    var es := OverlappedAndRedialed(g, user, call, now);
    OverlapLeavesAStaleLeg(cfg, g, user, call, now);
    var a := After(cfg, es);
    OneMore(cfg, es, AgentStart(3, g, call));
    var b := Begun(a, 3, g, call);
    assert Step(cfg, a, AgentStart(3, g, call)) == b;
    OneMore(cfg, es + [AgentStart(3, g, call)], AgentCloses(2, true, placed));
    var c := b.(agentSockets := Without(b.agentSockets, 2));
    assert Step(cfg, b, AgentCloses(2, true, placed)) == LegFinished(cfg, c, 0, true, placed);
    CloseKeepsTheGroupExactlyWhen(cfg, c, 0, true, placed);
    FinishingKeepsTheLegs(cfg, c, 0, true, placed);
    assert c.agentSockets[3] == 1;
  }
}
