/** Who looks after a registered bridge, and what goes wrong when nobody does. */
module RegistryCare {
  import opened Prelude
  import opened Registry
  import opened RegistryRuns

  ghost predicate Live(a: App, id: BridgeId) { exists s :: s in a.agentSockets && a.agentSockets[s] == id }

  /** Somebody answers for the group's bridge, if it has one: an open agent leg, or a redirect
      that the reaper can time. */
  ghost predicate LookedAfter(a: App, g: Group)
    requires Wf(a)
  {
    g in a.bridges ==> Live(a, a.bridges[g]) || Awaited(a.made[a.bridges[g]])
  }

  predicate Awaited(call: Call) { call.reconnecting && call.reconnectSince.Some? }

  /** Who waits for a redirect knows since when. */
  ghost predicate Stamped(a: App) {
    forall i :: 0 <= i < |a.made| && a.made[i].reconnecting ==> a.made[i].reconnectSince.Some?
  }

  /** The group's redirect is reported failed when the leg it was asked for is already gone. */
  ghost predicate TooLate(a: App, e: Event, g: Group)
    requires Wf(a)
  {
    e.RedirectFails? && g in a.bridges && a.bridges[g] == e.bridge && !Live(a, e.bridge)
  }

  lemma TeardownLooksAfter(cfg: AppConfig, a: App, g: Group, text: bool, hangUp: bool, h: Group)
    requires Wf(a) && LookedAfter(a, h)
    ensures LookedAfter(TornDown(cfg, a, g, text, hangUp), h)
  {
    var r := TornDown(cfg, a, g, text, hangUp);
    if h == g {
      TornDownIsGone(cfg, a, g, text, hangUp);
      assert Held(r, g).bridge == None;
    } else {
      TeardownTouchesNoOther(cfg, a, g, text, hangUp, h);
      SameCare(a, r, h);
    }
  }

  /** The same bridge in the same condition, and no agent leg closed. */
  lemma SameCare(a: App, b: App, h: Group)
    requires Wf(a) && Wf(b) && LookedAfter(a, h) && Held(a, h).bridge == Held(b, h).bridge
    requires forall s :: s in a.agentSockets ==> s in b.agentSockets && b.agentSockets[s] == a.agentSockets[s]
    ensures LookedAfter(b, h)
  {
    assert h in b.bridges ==> Held(b, h).bridge == Some((b.bridges[h], b.made[b.bridges[h]]));
    assert h in a.bridges ==> Held(a, h).bridge == Some((a.bridges[h], a.made[a.bridges[h]]));
    if h in b.bridges && Live(a, b.bridges[h]) {
      var s :| s in a.agentSockets && a.agentSockets[s] == b.bridges[h];
      assert s in b.agentSockets;
    }
  }

  lemma {:induction false} ReapingLooksAfter(cfg: AppConfig, a: App, now: real, listing: seq<Group>, h: Group)
    requires Wf(a) && LookedAfter(a, h)
    ensures LookedAfter(Reaped(cfg, a, now, listing).0, h)
    decreases |listing|
  {
    if listing != [] {
      if IsStale(a, listing[0], now) {
        TeardownLooksAfter(cfg, a, listing[0], true, true, h);
        ReapingLooksAfter(cfg, TornDown(cfg, a, listing[0], true, true), now, listing[1..], h);
      } else {
        ReapingLooksAfter(cfg, a, now, listing[1..], h);
      }
    }
  }

  lemma FailingLooksAfter(cfg: AppConfig, a: App, id: BridgeId, h: Group)
    requires Wf(a) && LookedAfter(a, h) && id < |a.made|
    ensures LookedAfter(SessionFailed(cfg, a, id), h)
  {
    var call := a.made[id].(finished := true);
    var a1 := MarkSet(a, (id, call));
    assert LookedAfter(a1, h);
    TeardownLooksAfter(cfg, a1, call.group, true, true, h);
  }

  lemma ResumingLooksAfter(a: App, s: Socket, g: Group, h: Group)
    requires Wf(a) && LookedAfter(a, h) && s !in a.agentSockets && g in a.bridges
    ensures LookedAfter(Resumed(a, s, g), h)
  {
    var r := Resumed(a, s, g);
    if h == g {
      assert s in r.agentSockets && r.agentSockets[s] == r.bridges[g];
    } else {
      SameCare(a, r, h);
    }
  }

  lemma BeginningLooksAfter(a: App, s: Socket, g: Group, call: CallId, h: Group)
    requires Wf(a) && LookedAfter(a, h) && s !in a.agentSockets && g !in a.bridges
    ensures LookedAfter(Begun(a, s, g, call), h)
  {
    var r := Begun(a, s, g, call);
    if h == g {
      assert s in r.agentSockets && r.agentSockets[s] == r.bridges[g];
    } else {
      SameCare(a, r, h);
    }
  }

  /** A closing leg with no redirect in flight takes its bridge off the register; any group still
      registered has the bridge it had, and it is another one. */
  lemma ClosingDropsItsBridge(cfg: AppConfig, a: App, id: BridgeId, sawStop: bool, placed: bool, h: Group)
    requires Wf(a) && id < |a.made| && !a.made[id].reconnecting
    ensures var r := LegFinished(cfg, a, id, sawStop, placed);
            h in r.bridges ==> r.bridges[h] != id && Held(r, h).bridge == Held(a, h).bridge
  {
    var g := a.made[id].group;
    var a1 := Redialed(cfg, a, g, placed).0;
    assert Held(a1, h).bridge == Held(a, h).bridge;
    TeardownDropsOrTouchesNot(cfg, a, g, false, h);
    TeardownDropsOrTouchesNot(cfg, a1, g, true, h);
    ReplacingTouchesNoOther(a1, id, h);
    assert h in a.bridges && a.bridges[h] == id ==> h == g;
  }

  lemma TeardownDropsOrTouchesNot(cfg: AppConfig, a: App, g: Group, loud: bool, h: Group)
    requires Wf(a)
    ensures var r := TornDown(cfg, a, g, loud, loud);
            Held(r, h).bridge == if h == g then None else Held(a, h).bridge
  {
    if h == g { TornDownIsGone(cfg, a, g, loud, loud); } else { TeardownTouchesNoOther(cfg, a, g, loud, loud, h); }
  }

  lemma ReplacingTouchesNoOther(a: App, id: BridgeId, h: Group)
    requires Wf(a) && id < |a.made|
    ensures h in Replaced(a, id).bridges ==>
              Replaced(a, id).bridges[h] != id && Held(Replaced(a, id), h).bridge == Held(a, h).bridge
  {
  }

  lemma SocketGone(a: App, s: Socket, h: Group)
    requires Wf(a) && LookedAfter(a, h) && Stamped(a) && s in a.agentSockets
    requires h in a.bridges && a.bridges[h] == a.agentSockets[s] ==> a.made[a.bridges[h]].reconnecting
    ensures LookedAfter(a.(agentSockets := Without(a.agentSockets, s)), h)
  {
    var b := a.(agentSockets := Without(a.agentSockets, s));
    if h in a.bridges && a.bridges[h] != a.agentSockets[s] && Live(a, a.bridges[h]) {
      var t :| t in a.agentSockets && a.agentSockets[t] == a.bridges[h];
      assert t in b.agentSockets && b.agentSockets[t] == b.bridges[h];
    }
  }

  /** A closing leg leaves its bridge to the redirect in flight, or takes it off the register. */
  lemma ClosingLooksAfter(cfg: AppConfig, a: App, s: Socket, sawStop: bool, placed: bool, h: Group)
    requires Wf(a) && LookedAfter(a, h) && Stamped(a) && s in a.agentSockets
    ensures var b := a.(agentSockets := Without(a.agentSockets, s));
            LookedAfter(LegFinished(cfg, b, a.agentSockets[s], sawStop, placed), h)
  {
    var b := a.(agentSockets := Without(a.agentSockets, s));
    var id := a.agentSockets[s];
    if a.made[id].reconnecting {
      SocketGone(a, s, h);
    } else {
      ClosingDropsItsBridge(cfg, b, id, sawStop, placed, h);
      if h in LegFinished(cfg, b, id, sawStop, placed).bridges {
        KeptMeansAnother(a, b, LegFinished(cfg, b, id, sawStop, placed), id, h);
        SocketGone(a, s, h);
        SameCare(b, LegFinished(cfg, b, id, sawStop, placed), h);
      }
    }
  }

  lemma KeptMeansAnother(a: App, b: App, r: App, id: BridgeId, h: Group)
    requires Wf(a) && Wf(b) && Wf(r) && (a.bridges, a.made) == (b.bridges, b.made)
    requires h in r.bridges && r.bridges[h] != id && Held(r, h).bridge == Held(b, h).bridge
    ensures h in a.bridges && a.bridges[h] != id
  {
    assert Held(r, h).bridge.value.0 == r.bridges[h];
  }

  /** Changing flags orphans the group's bridge exactly when its redirect is reported failed with
      the leg already gone. */
  lemma MarkingCares(a: App, e: Event, h: Group)
    requires Wf(a) && IsMark(e) && Enabled(a, e) && LookedAfter(a, h)
    ensures LookedAfter(MarkSet(a, Marked(a, e)), h) <==> !TooLate(a, e, h)
  {
    var r := MarkSet(a, Marked(a, e));
    assert h in a.bridges ==> Live(r, r.bridges[h]) == Live(a, a.bridges[h]);
  }

  lemma StartingLooksAfter(a: App, s: Socket, g: Group, call: CallId, h: Group)
    requires Wf(a) && LookedAfter(a, h) && s !in a.agentSockets
    ensures LookedAfter(AgentStarted(a, s, g, call), h)
  {
    if g in a.bridges { ResumingLooksAfter(a, s, g, h); } else { BeginningLooksAfter(a, s, g, call, h); }
  }

  lemma CreatingLooksAfter(cfg: AppConfig, a: App, g: Group, placed: bool, userLeg: Option<CallId>, h: Group)
    requires Wf(a) && LookedAfter(a, h)
    ensures LookedAfter(CallCreated(cfg, a, g, placed, userLeg), h)
  {
    SameCare(a, CallCreated(cfg, a, g, placed, userLeg), h);
  }

  lemma JoiningLooksAfter(cfg: AppConfig, a: App, s: Socket, g: Group, h: Group)
    requires Wf(a) && Enabled(a, UserStart(s, g)) && LookedAfter(a, h)
    ensures LookedAfter(Step(cfg, a, UserStart(s, g)), h)
  {
    var b := a.(userSockets := a.userSockets[s := a.bridges[g]]);
    assert Step(cfg, a, UserStart(s, g)) == b;
    SameCare(a, b, h);
  }

  lemma UserClosingLooksAfter(cfg: AppConfig, a: App, s: Socket, h: Group)
    requires Wf(a) && s in a.userSockets && LookedAfter(a, h)
    ensures LookedAfter(UserLegEnded(cfg, a, s), h)
  {
    var b := a.(userSockets := Without(a.userSockets, s));
    SameCare(a, b, h);
    FailingLooksAfter(cfg, b, a.userSockets[s], h);
  }

  lemma MarkingStepCares(cfg: AppConfig, a: App, e: Event, h: Group)
    requires Wf(a) && IsMark(e) && Enabled(a, e) && LookedAfter(a, h)
    ensures LookedAfter(Step(cfg, a, e), h) <==> !TooLate(a, e, h)
  {
    var r := MarkSet(a, Marked(a, e));
    assert Step(cfg, a, e) == r;
    MarkingCares(a, e, h);
  }

  /** The only step that leaves a looked-after group with a bridge nobody looks after is the late
      report of a failed redirect. */
  lemma OnlyALateReportOrphans(cfg: AppConfig, a: App, e: Event, h: Group)
    requires Wf(a) && Enabled(a, e) && Stamped(a) && LookedAfter(a, h)
    ensures LookedAfter(Step(cfg, a, e), h) <==> !TooLate(a, e, h)
  {
    match e
    case Fails(id) => FailingLooksAfter(cfg, a, id, h);
    case Reap(now, listing) => ReapingLooksAfter(cfg, a, now, listing, h);
    case AgentCloses(s, sawStop, placed) => ClosingLooksAfter(cfg, a, s, sawStop, placed, h);
    case UserCloses(s) => UserClosingLooksAfter(cfg, a, s, h);
    case AgentStart(s, g, call) => StartingLooksAfter(a, s, g, call, h);
    case UserStart(s, g) => JoiningLooksAfter(cfg, a, s, g, h);
    case Create(g, placed, userLeg) => CreatingLooksAfter(cfg, a, g, placed, userLeg, h);
    case UserGivesUp(_, _) =>
    case _ => MarkingStepCares(cfg, a, e, h);
  }

  // ---- stamps ----

  lemma TeardownStamps(cfg: AppConfig, a: App, g: Group, text: bool, hangUp: bool)
    requires Wf(a) && Stamped(a)
    ensures Stamped(TornDown(cfg, a, g, text, hangUp))
  {
  }

  lemma {:induction false} ReapingStamps(cfg: AppConfig, a: App, now: real, listing: seq<Group>)
    requires Wf(a) && Stamped(a)
    ensures Stamped(Reaped(cfg, a, now, listing).0)
    decreases |listing|
  {
    if listing != [] {
      if IsStale(a, listing[0], now) {
        TeardownStamps(cfg, a, listing[0], true, true);
        ReapingStamps(cfg, TornDown(cfg, a, listing[0], true, true), now, listing[1..]);
      } else {
        ReapingStamps(cfg, a, now, listing[1..]);
      }
    }
  }

  lemma ClosingStamps(cfg: AppConfig, a: App, id: BridgeId, sawStop: bool, placed: bool)
    requires Wf(a) && Stamped(a) && id < |a.made|
    ensures Stamped(LegFinished(cfg, a, id, sawStop, placed))
  {
    var g := a.made[id].group;
    TeardownStamps(cfg, a, g, false, false);
    TeardownStamps(cfg, Redialed(cfg, a, g, placed).0, g, true, true);
  }

  lemma FailingStamps(cfg: AppConfig, a: App, id: BridgeId)
    requires Wf(a) && Stamped(a) && id < |a.made|
    ensures Stamped(SessionFailed(cfg, a, id))
  {
    var call := a.made[id].(finished := true);
    TeardownStamps(cfg, MarkSet(a, (id, call)), call.group, true, true);
  }

  lemma CreatingStamps(cfg: AppConfig, a: App, g: Group, placed: bool, userLeg: Option<CallId>)
    requires Wf(a) && Stamped(a)
    ensures Stamped(CallCreated(cfg, a, g, placed, userLeg))
  {
    assert CallCreated(cfg, a, g, placed, userLeg).made == a.made;
  }

  lemma StartingStamps(a: App, s: Socket, g: Group, call: CallId)
    requires Wf(a) && Stamped(a)
    ensures Stamped(AgentStarted(a, s, g, call))
  {
  }

  lemma MarkingStamps(a: App, e: Event)
    requires Wf(a) && IsMark(e) && Enabled(a, e) && Stamped(a)
    ensures Stamped(MarkSet(a, Marked(a, e)))
  {
    var (id, call) := Marked(a, e);
    assert call.reconnecting ==> call.reconnectSince.Some?;
  }

  lemma StepStamps(cfg: AppConfig, a: App, e: Event)
    requires Wf(a) && Enabled(a, e) && Stamped(a)
    ensures Stamped(Step(cfg, a, e))
  {
    match e
    case Create(g, placed, userLeg) => CreatingStamps(cfg, a, g, placed, userLeg);
    case AgentStart(s, g, call) => StartingStamps(a, s, g, call);
    case UserStart(_, _) =>
    case UserGivesUp(_, _) =>
    case Fails(id) => FailingStamps(cfg, a, id);
    case Reap(now, listing) => ReapingStamps(cfg, a, now, listing);
    case AgentCloses(s, sawStop, placed) =>
      ClosingStamps(cfg, a.(agentSockets := Without(a.agentSockets, s)), a.agentSockets[s], sawStop, placed);
    case UserCloses(s) => UserClosingStamps(cfg, a, s);
    case _ => MarkingStamps(a, e);
  }

  lemma UserClosingStamps(cfg: AppConfig, a: App, s: Socket)
    requires Wf(a) && Stamped(a) && s in a.userSockets
    ensures Stamped(UserLegEnded(cfg, a, s))
  {
    FailingStamps(cfg, a.(userSockets := Without(a.userSockets, s)), a.userSockets[s]);
  }

  lemma {:induction false} RunStamps(cfg: AppConfig, es: seq<Event>)
    requires IsRun(cfg, es)
    ensures Stamped(After(cfg, es))
  {
    if es != [] {
      RunStamps(cfg, es[..|es| - 1]);
      StepStamps(cfg, After(cfg, es[..|es| - 1]), es[|es| - 1]);
    }
  }

  // ---- runs ----

  ghost predicate AlwaysLookedAfter(cfg: AppConfig, es: seq<Event>, g: Group)
    requires IsRun(cfg, es)
  {
    LookedAfter(After(cfg, es), g) && (es == [] || AlwaysLookedAfter(cfg, es[..|es| - 1], g))
  }

  ghost predicate NeverTooLate(cfg: AppConfig, es: seq<Event>, g: Group)
    requires IsRun(cfg, es)
  {
    es == [] ||
    (NeverTooLate(cfg, es[..|es| - 1], g) && !TooLate(After(cfg, es[..|es| - 1]), es[|es| - 1], g))
  }

  /** Over a whole run a group's bridge is looked after throughout exactly when no failed redirect
      of it is reported after its leg has gone. Legs that overlap do no harm here. */
  lemma {:induction false} OrphansComeFromLateReports(cfg: AppConfig, es: seq<Event>, g: Group)
    requires IsRun(cfg, es)
    ensures AlwaysLookedAfter(cfg, es, g) <==> NeverTooLate(cfg, es, g)
  {
    if es != [] {
      var front, last := es[..|es| - 1], es[|es| - 1];
      OrphansComeFromLateReports(cfg, front, g);
      RunStamps(cfg, front);
      if AlwaysLookedAfter(cfg, front, g) {
        OnlyALateReportOrphans(cfg, After(cfg, front), last, g);
      }
    }
  }

  /** No reaper pass ever takes an orphan. */
  lemma OrphansAreNeverReaped(cfg: AppConfig, a: App, g: Group, now: real, listing: seq<Group>)
    requires Wf(a) && Stamped(a) && !LookedAfter(a, g) && Lists(a, listing)
    ensures Held(Reaped(cfg, a, now, listing).0, g) == Spared(a, StaleAmong(a, now, listing), g)
  {
    ReaperTakesExactlyTheStale(cfg, a, now, listing);
    assert !Awaited(a.made[a.bridges[g]]);
  }

  /** It does happen: the redirect's leg closes, and only then is the redirect reported failed. */
  lemma AnOrphan(cfg: AppConfig, g: Group, call: CallId, now: real, sawStop: bool, placed: bool)
    ensures var es := [AgentStart(0, g, call), Press(0, now)] + [AgentCloses(0, sawStop, placed)] + [RedirectFails(0)];
            IsRun(cfg, es) && !LookedAfter(After(cfg, es), g)
  {
    var es := [AgentStart(0, g, call), Press(0, now)] + [AgentCloses(0, sawStop, placed)];
    RedirectAwaited(cfg, g, call, now, sawStop, placed);
    OneMore(cfg, es, RedirectFails(0));
    LateReport(cfg, After(cfg, es), g);
  }

  lemma PressedAtOnce(cfg: AppConfig, g: Group, call: CallId, now: real)
    ensures var es := [AgentStart(0, g, call), Press(0, now)];
            IsRun(cfg, es) && After(cfg, es) == Pressed(Begun(NO_CALLS, 0, g, call), 0, now)
  {
    var e0, e1 := AgentStart(0, g, call), Press(0, now);
    OneMore(cfg, [], e0);
    assert [] + [e0] == [e0] && [e0] + [e1] == [e0, e1];
    OneMore(cfg, [e0], e1);
  }

  /** A keypress, and then its leg closes: the redirect is waited for. */
  lemma RedirectAwaited(cfg: AppConfig, g: Group, call: CallId, pressed: real, sawStop: bool, placed: bool)
    ensures var es := [AgentStart(0, g, call), Press(0, pressed)] + [AgentCloses(0, sawStop, placed)];
            && IsRun(cfg, es) && After(cfg, es).bridges == map[g := 0] && |After(cfg, es).made| == 1
            && After(cfg, es).made[0].reconnecting && After(cfg, es).made[0].reconnectSince == Some(pressed)
            && After(cfg, es).agentSockets == map[]
  {
    var es := [AgentStart(0, g, call), Press(0, pressed)];
    PressedAtOnce(cfg, g, call, pressed);
    OneMore(cfg, es, AgentCloses(0, sawStop, placed));
    ClosedWhileRedirecting(cfg, After(cfg, es), 0, sawStop, placed);
  }

  /** A redirect that does not come back is waited for twenty seconds and no longer. */
  lemma GraceIsTwentySeconds(
      cfg: AppConfig, g: Group, call: CallId, pressed: real, sawStop: bool, placed: bool, now: real)
    ensures var redirected := [AgentStart(0, g, call), Press(0, pressed)] + [AgentCloses(0, sawStop, placed)];
            var es := redirected + [Reap(now, [g])];
            IsRun(cfg, es) && (g in After(cfg, es).bridges <==> now <= pressed + 20.0)
  {
    var es := [AgentStart(0, g, call), Press(0, pressed)] + [AgentCloses(0, sawStop, placed)];
    RedirectAwaited(cfg, g, call, pressed, sawStop, placed);
    var a := After(cfg, es);
    OneMore(cfg, es, Reap(now, [g]));
    ReapedExactlyWhenOutOfTime(cfg, a, now, [g], g);
  }

  ghost function Pressed(a: App, s: Socket, now: real): (r: App)
    requires Wf(a) && s in a.agentSockets
    ensures Wf(r)
  {
    MarkSet(a, Marked(a, Press(s, now)))
  }

  lemma ClosedWhileRedirecting(cfg: AppConfig, a: App, s: Socket, sawStop: bool, placed: bool)
    requires Wf(a) && s in a.agentSockets && a.made[a.agentSockets[s]].reconnecting
    ensures Step(cfg, a, AgentCloses(s, sawStop, placed)) == a.(agentSockets := Without(a.agentSockets, s))
  {
  }

  lemma LateReport(cfg: AppConfig, a: App, g: Group)
    requires Wf(a) && a.agentSockets == map[] && g in a.bridges && a.bridges[g] == 0
    ensures !LookedAfter(Step(cfg, a, RedirectFails(0)), g)
  {
  }
}
