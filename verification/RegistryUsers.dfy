/** Which bridge a user's leg sits on. A leg joins the bridge it finds, and stays with it: whoever
    finds none gives up, and a call that is placed again begins without its user. */
module RegistryUsers {
  import opened Prelude
  import opened Registry
  import opened RegistryRuns
  import opened RegistryLegs

  ghost predicate Unattended(a: App, id: BridgeId) { forall s :: s in a.userSockets ==> a.userSockets[s] != id }

  /** The event attaches a user's leg to this bridge. */
  predicate Joins(a: App, e: Event, id: BridgeId) {
    e.UserStart? && e.group in a.bridges && a.bridges[e.group] == id
  }

  // ---- no other event attaches a user ----

  lemma TeardownKeepsUsers(cfg: AppConfig, a: App, g: Group, text: bool, hangUp: bool)
    requires Wf(a)
    ensures TornDown(cfg, a, g, text, hangUp).userSockets == a.userSockets
  {
  }

  lemma {:induction false} ReapingKeepsUsers(cfg: AppConfig, a: App, now: real, listing: seq<Group>)
    requires Wf(a)
    ensures Reaped(cfg, a, now, listing).0.userSockets == a.userSockets
    decreases |listing|
  {
    if listing != [] {
      if IsStale(a, listing[0], now) {
        TeardownKeepsUsers(cfg, a, listing[0], true, true);
        ReapingKeepsUsers(cfg, TornDown(cfg, a, listing[0], true, true), now, listing[1..]);
      } else {
        ReapingKeepsUsers(cfg, a, now, listing[1..]);
      }
    }
  }

  lemma ClosingKeepsUsers(cfg: AppConfig, a: App, id: BridgeId, sawStop: bool, placed: bool)
    requires Wf(a) && id < |a.made|
    ensures LegFinished(cfg, a, id, sawStop, placed).userSockets == a.userSockets
  {
    var call := a.made[id];
    var a1 := Redialed(cfg, a, call.group, placed).0;
    if call.reconnecting {
    } else if sawStop || call.finished {
      TeardownKeepsUsers(cfg, a, call.group, false, false);
    } else if Ends(cfg, a, id, false, placed) {
      DropIsTornDown(cfg, a, id, placed);
      TeardownKeepsUsers(cfg, a1, call.group, true, true);
    } else {
      DropIsReplaced(cfg, a, id, placed);
    }
  }

  lemma FailingKeepsUsers(cfg: AppConfig, a: App, id: BridgeId)
    requires Wf(a) && id < |a.made|
    ensures SessionFailed(cfg, a, id).userSockets == a.userSockets
  {
    TeardownKeepsUsers(cfg, MarkSet(a, (id, a.made[id].(finished := true))), a.made[id].group, true, true);
  }

  ghost function UsersAfter(a: App, e: Event): map<Socket, BridgeId>
    requires Wf(a) && Enabled(a, e)
  {
    match e
    case UserStart(s, g) => a.userSockets[s := a.bridges[g]]
    case UserCloses(s) => Without(a.userSockets, s)
    case _ => a.userSockets
  }

  lemma UserClosingMovesOne(cfg: AppConfig, a: App, s: Socket)
    requires Wf(a) && s in a.userSockets
    ensures UserLegEnded(cfg, a, s).userSockets == Without(a.userSockets, s)
  {
    FailingKeepsUsers(cfg, a.(userSockets := Without(a.userSockets, s)), a.userSockets[s]);
  }

  lemma CreatingKeepsUsers(cfg: AppConfig, a: App, g: Group, placed: bool, userLeg: Option<CallId>)
    requires Wf(a)
    ensures CallCreated(cfg, a, g, placed, userLeg).userSockets == a.userSockets
  {
  }

  lemma MarkingKeepsUsers(cfg: AppConfig, a: App, e: Event)
    requires Wf(a) && Enabled(a, e) && IsMark(e)
    ensures Step(cfg, a, e).userSockets == a.userSockets
  {
    var mark := Marked(a, e);
    assert Step(cfg, a, e) == MarkSet(a, mark);
  }

  /** How an event changes where the users' legs sit: only their own starts and ends do. */
  lemma UsersMoveOnlyByThemselves(cfg: AppConfig, a: App, e: Event)
    requires Wf(a) && Enabled(a, e)
    ensures Step(cfg, a, e).userSockets == UsersAfter(a, e)
  {
    match e
    case Fails(id) => FailingKeepsUsers(cfg, a, id);
    case Reap(now, listing) => ReapingKeepsUsers(cfg, a, now, listing);
    case AgentCloses(s, sawStop, placed) =>
      ClosingKeepsUsers(cfg, a.(agentSockets := Without(a.agentSockets, s)), a.agentSockets[s], sawStop, placed);
    case UserCloses(s) => UserClosingMovesOne(cfg, a, s);
    case Create(g, placed, userLeg) => CreatingKeepsUsers(cfg, a, g, placed, userLeg);
    case AgentStart(s, g, call) => assert AgentStarted(a, s, g, call).userSockets == a.userSockets;
    case UserStart(_, _) =>
    case UserGivesUp(_, _) =>
    case _ => MarkingKeepsUsers(cfg, a, e);
  }

  lemma UnattendedUntilJoined(cfg: AppConfig, a: App, e: Event, id: BridgeId)
    requires Wf(a) && Enabled(a, e) && Unattended(a, id) && !Joins(a, e, id)
    ensures Unattended(Step(cfg, a, e), id)
  {
    UsersMoveOnlyByThemselves(cfg, a, e);
  }

  // ---- over a run ----

  ghost predicate EverJoined(cfg: AppConfig, es: seq<Event>, id: BridgeId)
    requires IsRun(cfg, es)
  {
    es != [] && (EverJoined(cfg, es[..|es| - 1], id) || Joins(After(cfg, es[..|es| - 1]), es[|es| - 1], id))
  }

  /** On every run, a bridge has a user's leg only if one started while it was registered. So a call
      placed again has no user until a leg starts anew, although the old leg may still be open. */
  lemma {:induction false} NoUserUnlessJoined(cfg: AppConfig, es: seq<Event>, id: BridgeId)
    requires IsRun(cfg, es) && !EverJoined(cfg, es, id)
    ensures Unattended(After(cfg, es), id)
  {
    if es != [] {
      NoUserUnlessJoined(cfg, es[..|es| - 1], id);
      UnattendedUntilJoined(cfg, After(cfg, es[..|es| - 1]), es[|es| - 1], id);
    }
  }

  /** A new bridge begins without a user, whatever legs are open. */
  lemma NewBridgeHasNoUser(a: App, s: Socket, g: Group, call: CallId)
    requires Wf(a) && g !in a.bridges
    ensures Begun(a, s, g, call).bridges[g] == |a.made| && Unattended(Begun(a, s, g, call), |a.made|)
  {
  }

  // ---- it happens ----

  /** A drop, a redial and its pickup: the call is up again, on a bridge without a user, while the
      user's leg is open on the old one. */
  lemma PickedUpWithoutTheUser(cfg: AppConfig, g: Group, user: CallId, call: CallId)
    requires cfg.telephony && cfg.publicBase
    ensures var es := BothLegs(g, user, call) + [AgentCloses(0, false, true)] + [AgentStart(2, g, call)];
            && IsRun(cfg, es)
            && g in After(cfg, es).bridges && After(cfg, es).bridges[g] == 1 && Unattended(After(cfg, es), 1)
            && After(cfg, es).userSockets == map[1 := 0]
  {
    var es := BothLegs(g, user, call);
    BothLegsWait(cfg, g, user, call);
    OneMore(cfg, es, AgentCloses(0, false, true));
    DropIsRedialed(cfg, g, user, call);
    var a := After(cfg, es + [AgentCloses(0, false, true)]);
    OneMore(cfg, es + [AgentCloses(0, false, true)], AgentStart(2, g, call));
    assert Step(cfg, a, AgentStart(2, g, call)) == Begun(a, 2, g, call);
    NewBridgeHasNoUser(a, 2, g, call);
  }

  /** A user who picks up first finds no bridge and gives up: nothing is sent, nothing changes, and the
      call goes on without its user. */
  lemma GivingUpChangesNothing(cfg: AppConfig, es: seq<Event>, s: Socket, g: Group)
    requires IsRun(cfg, es) && Enabled(After(cfg, es), UserGivesUp(s, g))
    ensures IsRun(cfg, es + [UserGivesUp(s, g)]) && After(cfg, es + [UserGivesUp(s, g)]) == After(cfg, es)
  {
    OneMore(cfg, es, UserGivesUp(s, g));
  }

  lemma PickedUpTooEarly(cfg: AppConfig, g: Group, user: CallId, call: CallId)
    requires cfg.telephony && cfg.publicBase
    ensures var es := [Create(g, true, Some(user))] + [UserGivesUp(1, g)] + [AgentStart(0, g, call)];
            && IsRun(cfg, es)
            && var r := After(cfg, es);
               g in r.bridges && Unattended(r, r.bridges[g]) && g in r.userNumbers && r.asked == [Placed(g)]
  {
    var e := Create(g, true, Some(user));
    OneMore(cfg, [], e);
    assert [] + [e] == [e];
    var a := CallCreated(cfg, NO_CALLS, g, true, Some(user));
    assert After(cfg, [e]) == a;
    GivingUpChangesNothing(cfg, [e], 1, g);
    OneMore(cfg, [e] + [UserGivesUp(1, g)], AgentStart(0, g, call));
    assert Step(cfg, a, AgentStart(0, g, call)) == Begun(a, 0, g, call);
    NewBridgeHasNoUser(a, 0, g, call);
  }
}
