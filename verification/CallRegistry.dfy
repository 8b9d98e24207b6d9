/** The registry as the application keeps it: dictionaries that every route updates in place. */
module CallRegistry {
  import opened Prelude
  import opened Registry
  import opened RegistryRuns

  /** From i on, the bridges are as they were listed. */
  ghost predicate StillListed(a: App, listing: seq<Group>, snapshot: seq<(Group, BridgeId)>, i: nat) {
    |snapshot| == |listing| &&
    forall j :: i <= j < |listing| ==>
      listing[j] in a.bridges && snapshot[j] == (listing[j], a.bridges[listing[j]])
  }

  /** The dictionary's items, in the listing's order. */
  function Items(bridges: map<Group, BridgeId>, listing: seq<Group>): (items: seq<(Group, BridgeId)>)
    requires forall g :: g in listing ==> g in bridges
    ensures |items| == |listing| && forall j :: 0 <= j < |items| ==> items[j] == (listing[j], bridges[listing[j]])
  {
    seq(|listing|, i requires 0 <= i < |listing| => (listing[i], bridges[listing[i]]))
  }

  function Plus(pass: (App, nat), n: nat): (App, nat) { (pass.0, n + pass.1) }

  lemma NextGroup(cfg: AppConfig, a: App, now: real, listing: seq<Group>, i: nat)
    requires Wf(a) && i < |listing|
    ensures Reaped(cfg, a, now, listing[i..]) ==
            if IsStale(a, listing[i], now)
            then Plus(Reaped(cfg, TornDown(cfg, a, listing[i], true, true), now, listing[i + 1..]), 1)
            else Reaped(cfg, a, now, listing[i + 1..])
  {
    assert listing[i..][1..] == listing[i + 1..];
  }

  lemma OthersStayListed(cfg: AppConfig, a: App, listing: seq<Group>, snapshot: seq<(Group, BridgeId)>, i: nat)
    requires Wf(a) && i < |listing| && StillListed(a, listing, snapshot, i)
    requires forall j, k :: 0 <= j < k < |listing| ==> listing[j] != listing[k]
    ensures StillListed(TornDown(cfg, a, listing[i], true, true), listing, snapshot, i + 1)
  {
  }

  /** What is left of the listing completes the pass. */
  ghost predicate Midway(
      cfg: AppConfig, a0: App, a: App, now: real, listing: seq<Group>, snapshot: seq<(Group, BridgeId)>, i: nat, n: nat)
  {
    && Wf(a0) && Wf(a) && StillListed(a, listing, snapshot, i) && i <= |listing|
    && (forall j, k :: 0 <= j < k < |listing| ==> listing[j] != listing[k])
    && Reaped(cfg, a0, now, listing) == Plus(Reaped(cfg, a, now, listing[i..]), n)
  }

  lemma Skips(
      cfg: AppConfig, a0: App, a: App, now: real, listing: seq<Group>, snapshot: seq<(Group, BridgeId)>, i: nat, n: nat)
    requires i < |listing| && Midway(cfg, a0, a, now, listing, snapshot, i, n) && !IsStale(a, listing[i], now)
    ensures Midway(cfg, a0, a, now, listing, snapshot, i + 1, n)
  {
    NextGroup(cfg, a, now, listing, i);
  }

  lemma Reaps(
      cfg: AppConfig, a0: App, a: App, now: real, listing: seq<Group>, snapshot: seq<(Group, BridgeId)>, i: nat, n: nat)
    requires i < |listing| && Midway(cfg, a0, a, now, listing, snapshot, i, n) && IsStale(a, listing[i], now)
    ensures Midway(cfg, a0, TornDown(cfg, a, listing[i], true, true), now, listing, snapshot, i + 1, n + 1)
  {
    NextGroup(cfg, a, now, listing, i);
    OthersStayListed(cfg, a, listing, snapshot, i);
  }

  lemma OneTurn(
      cfg: AppConfig, a0: App, a: App, now: real, listing: seq<Group>, snapshot: seq<(Group, BridgeId)>, i: nat, n: nat)
    requires i < |listing| && Midway(cfg, a0, a, now, listing, snapshot, i, n)
    ensures var (g, id) := snapshot[i];
            && id < |a.made| && g == listing[i] && g in a.bridges && id == a.bridges[g]
            && Wf(a)
            && (if Overdue(a.made[id], now)
                then Midway(cfg, a0, TornDown(cfg, a, g, true, true), now, listing, snapshot, i + 1, n + 1)
                else Midway(cfg, a0, a, now, listing, snapshot, i + 1, n))
  {
    if IsStale(a, listing[i], now) {
      Reaps(cfg, a0, a, now, listing, snapshot, i, n);
    } else {
      Skips(cfg, a0, a, now, listing, snapshot, i, n);
    }
  }

  class CallRegistry {
    const cfg: AppConfig
    var bridges: map<Group, BridgeId>
    var sessions: map<CallId, BridgeId>
    var pendingGoals: set<Group>
    var userLegs: map<Group, CallId>
    var userNumbers: set<Group>
    var redials: map<Group, nat>
    var made: seq<Call>
    var agentSockets: map<Socket, BridgeId>
    var userSockets: map<Socket, BridgeId>
    var created: set<Group>
    var asked: seq<Effect>

    ghost function View(): App
      reads this
    {
      App(bridges, sessions, pendingGoals, userLegs, userNumbers, redials, made, agentSockets, userSockets, created,
          asked)
    }

    ghost predicate Valid()
      reads this
    {
      Wf(View())
    }

    constructor (cfg: AppConfig)
      ensures Valid() && View() == NO_CALLS && this.cfg == cfg
    {
      this.cfg := cfg;
      bridges, sessions, pendingGoals, userLegs, userNumbers, redials := map[], map[], {}, map[], {}, map[];
      made, agentSockets, userSockets, created, asked := [], map[], map[], {}, [];
    }

    method ClearContext(group: Group)
      modifies this
      ensures View() == ContextCleared(old(View()), group)
    {
      pendingGoals := pendingGoals - {group};
      userLegs := userLegs - {group};
      userNumbers := userNumbers - {group};
      redials := redials - {group};
    }

    method HangUpLeg(call: Option<CallId>)
      modifies this`asked
      ensures asked == old(asked) + HangUp(cfg, call)
    {
      if !cfg.telephony || call == None || call.value == "" || call.value == "unknown" {
        return;
      }
      asked := asked + [HungUp(call.value)];
    }

    method SendText(group: Group)
      modifies this`asked
      ensures asked == old(asked) + Text(cfg, old(View()), group)
    {
      if !cfg.telephony || group !in userNumbers {
        return;
      }
      asked := asked + [FallbackText(group)];
    }

    /** The user is told first, then both legs are hung up. */
    method SayFarewell(group: Group, call: Call, text: bool, hangUp: bool)
      requires call.group == group
      modifies this`asked
      ensures asked == old(asked) + Farewell(cfg, old(View()), call, text, hangUp)
    {
      if text {
        SendText(group);
      }
      if hangUp {
        HangUpLeg(Some(call.id));
        HangUpLeg(call.userLeg);
      }
    }

    method TeardownGroup(group: Group, text: bool, hangUp: bool)
      requires Valid()
      modifies this
      ensures View() == TornDown(cfg, old(View()), group, text, hangUp)
    {
      if group in bridges {
        var id := bridges[group];
        ghost var call := made[id];
        bridges := bridges - {group};
        sessions := sessions - {made[id].id};
        SayFarewell(group, made[id], text, hangUp);
        made := made[id := made[id].(closed := true)];
        assert asked == old(asked) + Farewell(cfg, old(View()), call, text, hangUp);
        assert View() == old(View()).(bridges := Without(old(bridges), group),
                                      sessions := Without(old(sessions), call.id),
                                      made := old(made)[id := call.(closed := true)], asked := asked);
      }
      ClearContext(group);
    }

    /** The pass works on a snapshot: what it looks at are the bridges as they were listed. */
    method ReapStaleBridges(now: real, listing: seq<Group>) returns (reaped: nat)
      requires Valid() && Lists(View(), listing)
      modifies this
      ensures (View(), reaped) == Reaped(cfg, old(View()), now, listing)
    {
      var snapshot := Items(bridges, listing);
      reaped := 0;
      var i := 0;
      assert listing[0..] == listing;
      while i < |snapshot|
        invariant 0 <= i <= |snapshot| == |listing|
        invariant Midway(cfg, old(View()), View(), now, listing, snapshot, i, reaped)
      {
        var (group, id) := snapshot[i];
        OneTurn(cfg, old(View()), View(), now, listing, snapshot, i, reaped);
        if Overdue(made[id], now) {
          TeardownGroup(group, true, true);
          reaped := reaped + 1;
        }
        i := i + 1;
      }
    }

    /** `placed` is whether the telephone company accepts the call. */
    method RedialAgentLeg(group: Group, placed: bool) returns (again: bool)
      modifies this
      ensures (View(), again) == Redialed(cfg, old(View()), group, placed)
    {
      if group !in redials || !cfg.telephony || !cfg.publicBase || redials[group] >= MAX_REDIALS {
        return false;
      }
      redials := redials[group := redials[group] + 1];
      asked := asked + [Placed(group)];
      return placed;
    }

    method FinishAgentLeg(id: BridgeId, sawStop: bool, placed: bool)
      requires Valid() && id < |made|
      modifies this
      ensures View() == LegFinished(cfg, old(View()), id, sawStop, placed)
    {
      var call := made[id];
      if call.reconnecting {
        return;
      }
      var dropped := !sawStop && !call.finished;
      if dropped {
        var again := RedialAgentLeg(call.group, placed);
        if again {
          if call.group in bridges && bridges[call.group] == id {
            bridges := bridges - {call.group};
          }
          sessions := sessions - {call.id};
          made := made[id := call.(closed := true)];
          return;
        }
      }
      TeardownGroup(call.group, dropped, dropped);
    }

    method StartAgentLeg(socket: Socket, group: Group, call: CallId)
      requires Valid()
      modifies this
      ensures View() == AgentStarted(old(View()), socket, group, call)
    {
      if group in bridges {
        var id := bridges[group];
        made := made[id := made[id].(reconnecting := false, reconnectSince := None)];
        agentSockets := agentSockets[socket := id];
        return;
      }
      var userLeg := if group in userLegs then Some(userLegs[group]) else None;
      made := made + [Call(group, call, userLeg, false, None, false, false, false)];
      bridges := bridges[group := |made| - 1];
      sessions := sessions[call := |made| - 1];
      agentSockets := agentSockets[socket := |made| - 1];
    }

    /** The session's failure hook: the session finishes, then the group goes. */
    method FailSession(id: BridgeId)
      requires Valid() && id < |made|
      modifies this
      ensures View() == SessionFailed(cfg, old(View()), id)
    {
      made := made[id := made[id].(finished := true)];
      TeardownGroup(made[id].group, true, true);
    }

    method EndUserLeg(socket: Socket)
      requires Valid() && socket in userSockets
      modifies this
      ensures View() == UserLegEnded(cfg, old(View()), socket)
    {
      var id := userSockets[socket];
      userSockets := userSockets - {socket};
      if !made[id].relayOpen && !made[id].finished {
        FailSession(id);
      }
    }

    method CreateCall(group: Group, placed: bool, userLeg: Option<CallId>)
      requires Valid()
      modifies this
      ensures View() == CallCreated(cfg, old(View()), group, placed, userLeg)
    {
      if !cfg.telephony || !cfg.publicBase {
        return;
      }
      created := created + {group};
      asked := asked + [Placed(group)];
      if !placed {
        return;
      }
      pendingGoals := pendingGoals + {group};
      redials := redials[group := 0];
      if userLeg != None {
        userLegs := userLegs[group := userLeg.value];
        userNumbers := userNumbers + {group};
      }
    }
  }
}
