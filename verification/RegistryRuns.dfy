/** What every run of the registry keeps. */
module RegistryRuns {
  import opened Prelude
  import opened Registry

  // ---- teardown ----

  /** All the registry holds of a group. */
  datatype Holding = Holding(
    bridge: Option<(BridgeId, Call)>,
    listed: bool,
    goal: bool,
    userLeg: Option<CallId>,
    number: bool,
    redials: Option<nat>)

  const NOTHING := Holding(None, false, false, None, false, None)

  /** The sessions hold the session of the group's bridge. */
  ghost predicate Listed(a: App, g: Group)
    requires Wf(a)
  {
    g in a.bridges && a.made[a.bridges[g]].id in a.sessions && a.sessions[a.made[a.bridges[g]].id] == a.bridges[g]
  }

  /** Both groups have bridges, and their legs carry the same call id. */
  ghost predicate SameId(a: App, g: Group, h: Group)
    requires Wf(a)
  {
    g in a.bridges && h in a.bridges && a.made[a.bridges[g]].id == a.made[a.bridges[h]].id
  }

  ghost function Held(a: App, g: Group): Holding
    requires Wf(a)
  {
    Holding(
      if g in a.bridges then Some((a.bridges[g], a.made[a.bridges[g]])) else None,
      Listed(a, g),
      g in a.pendingGoals,
      if g in a.userLegs then Some(a.userLegs[g]) else None,
      g in a.userNumbers,
      if g in a.redials then Some(a.redials[g]) else None)
  }

  /** A torn-down group is gone: from the bridges, from all four context maps, and its session
      from the sessions; its bridge is closed. */
  lemma TornDownIsGone(cfg: AppConfig, a: App, g: Group, text: bool, hangUp: bool)
    requires Wf(a)
    ensures var r := TornDown(cfg, a, g, text, hangUp);
            && Held(r, g) == NOTHING
            && (g in a.bridges ==> a.made[a.bridges[g]].id !in r.sessions && r.made[a.bridges[g]].closed)
  {
  }

  /** Every other group keeps what it had, but that its session is no longer listed if the torn-down
      bridge carried the same call id. */
  lemma TeardownTouchesNoOther(cfg: AppConfig, a: App, g: Group, text: bool, hangUp: bool, h: Group)
    requires Wf(a) && h != g
    ensures Held(TornDown(cfg, a, g, text, hangUp), h) == Held(a, h).(listed := Listed(a, h) && !SameId(a, g, h))
  {
    if g in a.bridges {
      var id := a.bridges[g];
      var call := a.made[id];
      var b := a.(bridges := Without(a.bridges, g), sessions := Without(a.sessions, call.id),
               made := a.made[id := call.(closed := true)], asked := a.asked + Farewell(cfg, a, call, text, hangUp));
      assert h in a.bridges ==> a.bridges[h] != id;
      assert Listed(b, h) == (Listed(a, h) && !SameId(a, g, h));
      assert Held(b, h) == Held(a, h).(listed := Listed(b, h));
      ClearingTouchesNoOther(b, g, h);
    } else {
      ClearingTouchesNoOther(a, g, h);
    }
  }

  lemma ClearingTouchesNoOther(a: App, g: Group, h: Group)
    requires Wf(a) && h != g
    ensures Wf(ContextCleared(a, g)) && Held(ContextCleared(a, g), h) == Held(a, h)
  {
  }

  /** A second teardown does nothing, whatever it is asked to do: no second text, no second
      hang-up. */
  lemma TeardownIsIdempotent(cfg: AppConfig, a: App, g: Group, text: bool, hangUp: bool, text': bool, hangUp': bool)
    requires Wf(a)
    ensures var r := TornDown(cfg, a, g, text, hangUp);
            TornDown(cfg, r, g, text', hangUp') == r
  {
    var r := TornDown(cfg, a, g, text, hangUp);
    assert r.pendingGoals - {g} == r.pendingGoals && r.userNumbers - {g} == r.userNumbers;
    assert r.userLegs - {g} == r.userLegs && r.redials - {g} == r.redials;
  }

  // ---- the reaper ----

  /** The group waits for a redirect to come back, and has for more than twenty seconds. */
  ghost predicate OutOfTime(a: App, g: Group, now: real)
    requires Wf(a)
  {
    g in a.bridges &&
    var call := a.made[a.bridges[g]];
    call.reconnecting && call.reconnectSince.Some? && now > call.reconnectSince.value + 20.0
  }

  ghost function StaleAmong(a: App, now: real, listing: seq<Group>): set<Group>
    requires Wf(a)
  {
    set g | g in listing && OutOfTime(a, g, now)
  }

  lemma StaleAmongRest(a: App, b: App, now: real, listing: seq<Group>)
    requires Wf(a) && Wf(b) && listing != [] && listing[0] !in listing[1..]
    requires forall h :: h != listing[0] ==> Held(b, h).bridge == Held(a, h).bridge
    ensures StaleAmong(a, now, listing) ==
            StaleAmong(b, now, listing[1..]) + (if OutOfTime(a, listing[0], now) then {listing[0]} else {})
    ensures listing[0] !in StaleAmong(b, now, listing[1..])
  {
    assert listing == [listing[0]] + listing[1..];
    forall g | g in listing[1..] ensures OutOfTime(a, g, now) == OutOfTime(b, g, now) {
      assert Held(a, g).bridge == Held(b, g).bridge;
    }
  }

  /** What a group that is not reaped holds after a pass: what it held, but that its session is no
      longer listed if a reaped bridge carried the same call id. */
  ghost function Spared(a: App, stale: set<Group>, h: Group): Holding
    requires Wf(a)
  {
    Held(a, h).(listed := Listed(a, h) && forall g :: g in stale ==> !SameId(a, g, h))
  }

  lemma SparedTwice(cfg: AppConfig, a: App, g: Group, rest: set<Group>, h: Group)
    requires Wf(a) && g !in rest && h != g && h !in rest
    ensures var b := TornDown(cfg, a, g, true, true);
            Spared(b, rest, h) == Spared(a, rest + {g}, h)
  {
    var b := TornDown(cfg, a, g, true, true);
    TeardownTouchesNoOther(cfg, a, g, true, true, h);
    forall x | x in rest ensures SameId(b, x, h) == SameId(a, x, h) {
      TeardownTouchesNoOther(cfg, a, g, true, true, x);
      SameBridgesSameId(a, b, x, h);
    }
  }

  lemma SameBridgesSameId(a: App, b: App, g: Group, h: Group)
    requires Wf(a) && Wf(b) && Held(a, g).bridge == Held(b, g).bridge && Held(a, h).bridge == Held(b, h).bridge
    ensures SameId(a, g, h) == SameId(b, g, h)
  {
  }

  ghost predicate NoRepeats(listing: seq<Group>) {
    forall i, j :: 0 <= i < j < |listing| ==> listing[i] != listing[j]
  }

  /** The first of a listing against the rest of it, if the first is reaped. */
  lemma FirstIsReaped(cfg: AppConfig, a: App, now: real, listing: seq<Group>)
    requires Wf(a) && NoRepeats(listing) && listing != [] && IsStale(a, listing[0], now)
    ensures var left := StaleAmong(TornDown(cfg, a, listing[0], true, true), now, listing[1..]);
            StaleAmong(a, now, listing) == left + {listing[0]} && listing[0] !in left
  {
    var b := TornDown(cfg, a, listing[0], true, true);
    forall h | h != listing[0] ensures Held(b, h).bridge == Held(a, h).bridge {
      TeardownTouchesNoOther(cfg, a, listing[0], true, true, h);
    }
    StaleAmongRest(a, b, now, listing);
  }

  lemma {:induction false} PassCounts(cfg: AppConfig, a: App, now: real, listing: seq<Group>)
    requires Wf(a) && NoRepeats(listing)
    ensures Reaped(cfg, a, now, listing).1 == |StaleAmong(a, now, listing)|
    decreases |listing|
  {
    if listing != [] {
      if IsStale(a, listing[0], now) {
        FirstIsReaped(cfg, a, now, listing);
        PassCounts(cfg, TornDown(cfg, a, listing[0], true, true), now, listing[1..]);
      } else {
        StaleAmongRest(a, a, now, listing);
        PassCounts(cfg, a, now, listing[1..]);
      }
    }
  }

  /** What a group holds after a pass. */
  ghost function Left(a: App, stale: set<Group>, h: Group): Holding
    requires Wf(a)
  {
    if h in stale then NOTHING else Spared(a, stale, h)
  }

  lemma LeftAfterTheFirst(cfg: AppConfig, a: App, g: Group, rest: set<Group>, h: Group)
    requires Wf(a) && g !in rest
    ensures Left(TornDown(cfg, a, g, true, true), rest, h) == Left(a, rest + {g}, h)
  {
    if h == g {
      TornDownIsGone(cfg, a, g, true, true);
      assert Held(TornDown(cfg, a, g, true, true), g) == NOTHING;
    } else if h !in rest {
      SparedTwice(cfg, a, g, rest, h);
    }
  }

  lemma {:induction false} PassLeaves(cfg: AppConfig, a: App, now: real, listing: seq<Group>, h: Group)
    requires Wf(a) && NoRepeats(listing)
    ensures Held(Reaped(cfg, a, now, listing).0, h) == Left(a, StaleAmong(a, now, listing), h)
    decreases |listing|
  {
    if listing != [] {
      if IsStale(a, listing[0], now) {
        var b := TornDown(cfg, a, listing[0], true, true);
        FirstIsReaped(cfg, a, now, listing);
        PassLeaves(cfg, b, now, listing[1..], h);
        LeftAfterTheFirst(cfg, a, listing[0], StaleAmong(b, now, listing[1..]), h);
      } else {
        StaleAmongRest(a, a, now, listing);
        PassLeaves(cfg, a, now, listing[1..], h);
      }
    }
  }

  /** A pass, in whatever order it lists the groups, removes exactly the overdue ones and counts
      them; the rest it leaves as they were, session listings of colliding call ids apart. */
  lemma {:induction false} ReaperTakesExactlyTheStale(cfg: AppConfig, a: App, now: real, listing: seq<Group>)
    requires Wf(a) && NoRepeats(listing)
    ensures var (r, n) := Reaped(cfg, a, now, listing);
            var stale := StaleAmong(a, now, listing);
            n == |stale| && forall h :: Held(r, h) == if h in stale then NOTHING else Spared(a, stale, h)
  {
    PassCounts(cfg, a, now, listing);
    forall h ensures Held(Reaped(cfg, a, now, listing).0, h) == Left(a, StaleAmong(a, now, listing), h) {
      PassLeaves(cfg, a, now, listing, h);
    }
  }

  /** After a pass over all the groups nobody has been waiting for more than twenty seconds. */
  lemma NothingOverdueIsLeft(cfg: AppConfig, a: App, now: real, listing: seq<Group>, g: Group)
    requires Wf(a) && Lists(a, listing)
    ensures !OutOfTime(Reaped(cfg, a, now, listing).0, g, now)
  {
    ReaperTakesExactlyTheStale(cfg, a, now, listing);
    assert OutOfTime(a, g, now) ==> g in listing;
    assert g !in StaleAmong(a, now, listing) ==> Held(Reaped(cfg, a, now, listing).0, g).bridge == Held(a, g).bridge;
  }

  /** A pass over all the groups takes a registered one if and only if its redirect was asked for more
      than twenty seconds ago; and it counts them. */
  lemma ReapedExactlyWhenOutOfTime(cfg: AppConfig, a: App, now: real, listing: seq<Group>, g: Group)
    requires Wf(a) && Lists(a, listing) && g in a.bridges
    ensures var call := a.made[a.bridges[g]];
            g !in Reaped(cfg, a, now, listing).0.bridges <==>
            call.reconnecting && call.reconnectSince.Some? && now - call.reconnectSince.value > 20.0
    ensures Reaped(cfg, a, now, listing).1 == |set h | h in a.bridges && OutOfTime(a, h, now)|
  {
    ReaperTakesExactlyTheStale(cfg, a, now, listing);
    var r := Reaped(cfg, a, now, listing).0;
    assert (set h | h in a.bridges && OutOfTime(a, h, now)) == StaleAmong(a, now, listing);
    var stale := StaleAmong(a, now, listing);
    assert Held(r, g) == if g in stale then NOTHING else Spared(a, stale, g);
    assert g in r.bridges <==> Held(r, g).bridge.Some?;
  }

  // ---- what one group may ask of the telephone company ----

  ghost function Count(a: App, e: Effect): nat { multiset(a.asked)[e] }

  /** A group is called once and then once for each redial, and is texted only when it gives up
      its user's number. */
  ghost predicate WithinBudget(a: App, g: Group) {
    var calls, texts := Count(a, Placed(g)), Count(a, FallbackText(g));
    && (g in a.redials ==> calls == 1 + a.redials[g])
    && calls <= 3
    && texts <= 1
    && (g in a.userNumbers ==> texts == 0)
    && (g !in a.created ==> calls == 0 && texts == 0 && g !in a.redials && g !in a.userNumbers)
  }

  lemma AskedMore(a: App, b: App, more: seq<Effect>, e: Effect)
    requires b.asked == a.asked + more
    ensures Count(b, e) == Count(a, e) + multiset(more)[e]
  {
  }

  lemma FarewellAsks(cfg: AppConfig, a: App, call: Call, text: bool, hangUp: bool, g: Group)
    ensures var more := multiset(Farewell(cfg, a, call, text, hangUp));
            && more[Placed(g)] == 0
            && more[FallbackText(g)] == if text && cfg.telephony && g == call.group && g in a.userNumbers then 1 else 0
  {
    var texts := if text then Text(cfg, a, call.group) else [];
    var one, two := if hangUp then HangUp(cfg, Some(call.id)) else [], if hangUp then HangUp(cfg, call.userLeg) else [];
    assert Farewell(cfg, a, call, text, hangUp) == texts + (one + two);
    HangUpAsks(cfg, Some(call.id), g);
    HangUpAsks(cfg, call.userLeg, g);
  }

  lemma HangUpAsks(cfg: AppConfig, call: Option<CallId>, g: Group)
    ensures Placed(g) !in HangUp(cfg, call) && FallbackText(g) !in HangUp(cfg, call)
  {
  }

  lemma TeardownWithinBudget(cfg: AppConfig, a: App, g: Group, text: bool, hangUp: bool, h: Group)
    requires Wf(a) && WithinBudget(a, h)
    ensures WithinBudget(TornDown(cfg, a, g, text, hangUp), h)
  {
    var r := TornDown(cfg, a, g, text, hangUp);
    if g in a.bridges {
      var call := a.made[a.bridges[g]];
      AskedMore(a, r, Farewell(cfg, a, call, text, hangUp), Placed(h));
      AskedMore(a, r, Farewell(cfg, a, call, text, hangUp), FallbackText(h));
      FarewellAsks(cfg, a, call, text, hangUp, h);
    }
  }

  lemma RedialWithinBudget(cfg: AppConfig, a: App, g: Group, placed: bool, h: Group)
    requires WithinBudget(a, h)
    ensures WithinBudget(Redialed(cfg, a, g, placed).0, h)
  {
    var r := Redialed(cfg, a, g, placed).0;
    if r != a {
      AskedMore(a, r, [Placed(g)], Placed(h));
      AskedMore(a, r, [Placed(g)], FallbackText(h));
    }
  }

  lemma {:induction false} ReapingWithinBudget(cfg: AppConfig, a: App, now: real, listing: seq<Group>, h: Group)
    requires Wf(a) && WithinBudget(a, h)
    ensures WithinBudget(Reaped(cfg, a, now, listing).0, h)
    decreases |listing|
  {
    if listing != [] {
      if IsStale(a, listing[0], now) {
        TeardownWithinBudget(cfg, a, listing[0], true, true, h);
        ReapingWithinBudget(cfg, TornDown(cfg, a, listing[0], true, true), now, listing[1..], h);
      } else {
        ReapingWithinBudget(cfg, a, now, listing[1..], h);
      }
    }
  }

  lemma CreatingWithinBudget(cfg: AppConfig, a: App, g: Group, placed: bool, userLeg: Option<CallId>, h: Group)
    requires Wf(a) && WithinBudget(a, h) && g !in a.created
    ensures WithinBudget(CallCreated(cfg, a, g, placed, userLeg), h)
  {
    var r := CallCreated(cfg, a, g, placed, userLeg);
    if r != a {
      AskedMore(a, r, [Placed(g)], Placed(h));
      AskedMore(a, r, [Placed(g)], FallbackText(h));
    }
  }

  /** The budget looks only at what was asked and at the context. */
  lemma SameBudget(a: App, b: App, h: Group)
    requires WithinBudget(a, h)
    requires (a.asked, a.redials, a.userNumbers, a.created) == (b.asked, b.redials, b.userNumbers, b.created)
    ensures WithinBudget(b, h)
  {
  }

  lemma FailingWithinBudget(cfg: AppConfig, a: App, id: BridgeId, h: Group)
    requires Wf(a) && WithinBudget(a, h) && id < |a.made|
    ensures WithinBudget(SessionFailed(cfg, a, id), h)
  {
    var a1 := MarkSet(a, (id, a.made[id].(finished := true)));
    SameBudget(a, a1, h);
    TeardownWithinBudget(cfg, a1, a.made[id].group, true, true, h);
  }

  lemma ClosingWithinBudget(cfg: AppConfig, a: App, id: BridgeId, sawStop: bool, placed: bool, h: Group)
    requires Wf(a) && WithinBudget(a, h) && id < |a.made|
    ensures WithinBudget(LegFinished(cfg, a, id, sawStop, placed), h)
  {
    var g := a.made[id].group;
    var a1 := Redialed(cfg, a, g, placed).0;
    RedialWithinBudget(cfg, a, g, placed, h);
    SameBudget(a1, Replaced(a1, id), h);
    TeardownWithinBudget(cfg, a, g, false, false, h);
    TeardownWithinBudget(cfg, a1, g, true, true, h);
  }

  lemma StepWithinBudget(cfg: AppConfig, a: App, e: Event, h: Group)
    requires Wf(a) && Enabled(a, e) && WithinBudget(a, h)
    ensures WithinBudget(Step(cfg, a, e), h)
  {
    match e
    case Create(g, placed, userLeg) => CreatingWithinBudget(cfg, a, g, placed, userLeg, h);
    case Fails(id) => FailingWithinBudget(cfg, a, id, h);
    case AgentCloses(s, sawStop, placed) =>
      var a1 := a.(agentSockets := Without(a.agentSockets, s));
      SameBudget(a, a1, h);
      ClosingWithinBudget(cfg, a1, a.agentSockets[s], sawStop, placed, h);
    case UserCloses(s) =>
      var a1 := a.(userSockets := Without(a.userSockets, s));
      SameBudget(a, a1, h);
      FailingWithinBudget(cfg, a1, a.userSockets[s], h);
    case Reap(now, listing) => ReapingWithinBudget(cfg, a, now, listing, h);
    case _ => SameBudget(a, Step(cfg, a, e), h);
  }

  /** On every run a group's business is called once and then once for each redial counted, never
      more than three times; its user is sent at most one fallback text, and none while we still
      hold the number. */
  lemma {:induction false} CallsAndTextsAreBounded(cfg: AppConfig, es: seq<Event>, g: Group)
    requires IsRun(cfg, es)
    ensures WithinBudget(After(cfg, es), g)
  {
    if es != [] {
      CallsAndTextsAreBounded(cfg, es[..|es| - 1], g);
      StepWithinBudget(cfg, After(cfg, es[..|es| - 1]), es[|es| - 1], g);
    }
  }

  // ---- sessions ----

  ghost predicate Registered(a: App, id: BridgeId)
    requires Wf(a) && id < |a.made|
  {
    a.made[id].group in a.bridges && a.bridges[a.made[id].group] == id
  }

  /** Every session listed is that of a bridge registered for its group, and the bridges that are not
      registered are exactly those that were closed. */
  ghost predicate NoLeak(a: App)
    requires Wf(a)
  {
    && (forall c :: c in a.sessions ==>
          var id := a.sessions[c];
          id < |a.made| && a.made[id].id == c && Registered(a, id))
    && (forall id :: 0 <= id < |a.made| ==> (a.made[id].closed <==> !Registered(a, id)))
  }

  lemma TeardownLeaksNothing(cfg: AppConfig, a: App, g: Group, text: bool, hangUp: bool)
    requires Wf(a) && NoLeak(a)
    ensures NoLeak(TornDown(cfg, a, g, text, hangUp))
  {
    var r := TornDown(cfg, a, g, text, hangUp);
    if g in a.bridges {
      forall c | c in r.sessions
        ensures r.sessions[c] == a.sessions[c] != a.bridges[g] && a.made[a.sessions[c]].group != g
      {
      }
    }
  }

  lemma MarkingLeaksNothing(a: App, mark: (BridgeId, Call))
    requires Wf(a) && NoLeak(a) && mark.0 < |a.made|
    requires var was := a.made[mark.0]; (mark.1.id, mark.1.group, mark.1.closed) == (was.id, was.group, was.closed)
    ensures NoLeak(MarkSet(a, mark))
  {
  }

  lemma {:induction false} ReapingLeaksNothing(cfg: AppConfig, a: App, now: real, listing: seq<Group>)
    requires Wf(a) && NoLeak(a)
    ensures NoLeak(Reaped(cfg, a, now, listing).0)
    decreases |listing|
  {
    if listing != [] {
      if IsStale(a, listing[0], now) {
        TeardownLeaksNothing(cfg, a, listing[0], true, true);
        ReapingLeaksNothing(cfg, TornDown(cfg, a, listing[0], true, true), now, listing[1..]);
      } else {
        ReapingLeaksNothing(cfg, a, now, listing[1..]);
      }
    }
  }

  lemma FailingLeaksNothing(cfg: AppConfig, a: App, id: BridgeId)
    requires Wf(a) && NoLeak(a) && id < |a.made|
    ensures NoLeak(SessionFailed(cfg, a, id))
  {
    var call := a.made[id].(finished := true);
    MarkingLeaksNothing(a, (id, call));
    TeardownLeaksNothing(cfg, MarkSet(a, (id, call)), call.group, true, true);
  }

  lemma ReplacingLeaksNothing(a: App, id: BridgeId)
    requires Wf(a) && NoLeak(a) && id < |a.made|
    ensures NoLeak(Replaced(a, id))
  {
  }

  lemma ClosingLeaksNothing(cfg: AppConfig, a: App, id: BridgeId, sawStop: bool, placed: bool)
    requires Wf(a) && NoLeak(a) && id < |a.made|
    ensures NoLeak(LegFinished(cfg, a, id, sawStop, placed))
  {
    var g := a.made[id].group;
    var a1 := Redialed(cfg, a, g, placed).0;
    assert NoLeak(a1);
    ReplacingLeaksNothing(a1, id);
    TeardownLeaksNothing(cfg, a, g, false, false);
    TeardownLeaksNothing(cfg, a1, g, true, true);
  }

  lemma ResumingLeaksNothing(a: App, s: Socket, g: Group)
    requires Wf(a) && NoLeak(a) && g in a.bridges
    ensures NoLeak(Resumed(a, s, g))
  {
  }

  lemma BeginningLeaksNothing(a: App, s: Socket, g: Group, call: CallId)
    requires Wf(a) && NoLeak(a) && g !in a.bridges
    ensures NoLeak(Begun(a, s, g, call))
  {
  }

  lemma StartingLeaksNothing(a: App, s: Socket, g: Group, call: CallId)
    requires Wf(a) && NoLeak(a)
    ensures NoLeak(AgentStarted(a, s, g, call))
  {
    if g in a.bridges { ResumingLeaksNothing(a, s, g); } else { BeginningLeaksNothing(a, s, g, call); }
  }

  /** Only the bridges, the sessions and the calls made matter. */
  lemma SameLeaks(a: App, b: App)
    requires Wf(a) && Wf(b) && NoLeak(a) && (a.bridges, a.sessions, a.made) == (b.bridges, b.sessions, b.made)
    ensures NoLeak(b)
  {
  }

  lemma SocketClosingLeaksNothing(cfg: AppConfig, a: App, e: Event)
    requires Wf(a) && (e.AgentCloses? || e.UserCloses?) && Enabled(a, e) && NoLeak(a)
    ensures NoLeak(Step(cfg, a, e))
  {
    if e.AgentCloses? {
      var a1 := a.(agentSockets := Without(a.agentSockets, e.socket));
      SameLeaks(a, a1);
      ClosingLeaksNothing(cfg, a1, a.agentSockets[e.socket], e.sawStop, e.placed);
    } else {
      var a1 := a.(userSockets := Without(a.userSockets, e.socket));
      SameLeaks(a, a1);
      FailingLeaksNothing(cfg, a1, a.userSockets[e.socket]);
    }
  }

  lemma MarkingStepLeaksNothing(cfg: AppConfig, a: App, e: Event)
    requires Wf(a) && IsMark(e) && Enabled(a, e) && NoLeak(a)
    ensures NoLeak(Step(cfg, a, e))
  {
    var mark := Marked(a, e);
    var r := MarkSet(a, mark);
    MarkingLeaksNothing(a, mark);
    assert Step(cfg, a, e) == r;
  }

  lemma CreatingLeaksNothing(cfg: AppConfig, a: App, g: Group, placed: bool, userLeg: Option<CallId>)
    requires Wf(a) && NoLeak(a)
    ensures NoLeak(CallCreated(cfg, a, g, placed, userLeg))
  {
    SameLeaks(a, CallCreated(cfg, a, g, placed, userLeg));
  }

  lemma JoiningLeaksNothing(cfg: AppConfig, a: App, s: Socket, g: Group)
    requires Wf(a) && Enabled(a, UserStart(s, g)) && NoLeak(a)
    ensures NoLeak(Step(cfg, a, UserStart(s, g)))
  {
    var b := a.(userSockets := a.userSockets[s := a.bridges[g]]);
    assert Step(cfg, a, UserStart(s, g)) == b;
    SameLeaks(a, b);
  }

  lemma StepLeaksNothing(cfg: AppConfig, a: App, e: Event)
    requires Wf(a) && Enabled(a, e) && NoLeak(a)
    ensures NoLeak(Step(cfg, a, e))
  {
    match e
    case Fails(id) => FailingLeaksNothing(cfg, a, id);
    case Reap(now, listing) => ReapingLeaksNothing(cfg, a, now, listing);
    case AgentCloses(_, _, _) => SocketClosingLeaksNothing(cfg, a, e);
    case UserCloses(_) => SocketClosingLeaksNothing(cfg, a, e);
    case AgentStart(s, g, call) => StartingLeaksNothing(a, s, g, call);
    case UserStart(s, g) => JoiningLeaksNothing(cfg, a, s, g);
    case Create(g, placed, userLeg) => CreatingLeaksNothing(cfg, a, g, placed, userLeg);
    case UserGivesUp(_, _) =>
    case _ => MarkingStepLeaksNothing(cfg, a, e);
  }

  /** No run leaves a session listed whose call has gone from the bridges, a bridge open that is off
      the register, or one closed that is on it. */
  lemma {:induction false} SessionsGoWithTheirBridges(cfg: AppConfig, es: seq<Event>)
    requires IsRun(cfg, es)
    ensures NoLeak(After(cfg, es))
  {
    if es != [] {
      SessionsGoWithTheirBridges(cfg, es[..|es| - 1]);
      StepLeaksNothing(cfg, After(cfg, es[..|es| - 1]), es[|es| - 1]);
    }
  }

  // ---- a new call ----

  /** A new call is asked for exactly if there are a client and an address. Only if it is accepted is
      there any context: the goal, no redials so far, and the user's leg and number if the user is
      rung. Nothing else is touched, and no other group's anything. */
  lemma ContextExactlyWhenPlaced(
      cfg: AppConfig, a: App, g: Group, placed: bool, userLeg: Option<CallId>, h: Group)
    requires Wf(a)
    ensures var r := CallCreated(cfg, a, g, placed, userLeg);
            var able := cfg.telephony && cfg.publicBase;
            && r.asked == a.asked + (if able then [Placed(g)] else [])
            && (r.bridges, r.sessions, r.made) == (a.bridges, a.sessions, a.made)
            && Held(r, h) ==
               if !able || !placed || h != g then Held(a, h)
               else if userLeg.None? then Held(a, g).(goal := true, redials := Some(0))
               else Held(a, g).(goal := true, redials := Some(0), userLeg := userLeg, number := true)
  {
  }

  // ---- colliding call ids ----

  lemma OneMore(cfg: AppConfig, es: seq<Event>, e: Event)
    requires IsRun(cfg, es) && Enabled(After(cfg, es), e)
    ensures IsRun(cfg, es + [e]) && After(cfg, es + [e]) == Step(cfg, After(cfg, es), e)
  {
    var more := es + [e];
    assert more != [] && more[..|more| - 1] == es && more[|more| - 1] == e;
    assert IsRun(cfg, more);
  }

  lemma {:induction false} TwoStarts(cfg: AppConfig, g: Group, h: Group, call: CallId)
    requires g != h
    ensures var es := [AgentStart(0, g, call), AgentStart(1, h, call)];
            IsRun(cfg, es) && After(cfg, es) == Begun(Begun(NO_CALLS, 0, g, call), 1, h, call)
  {
    var e0, e1 := AgentStart(0, g, call), AgentStart(1, h, call);
    OneMore(cfg, [], e0);
    assert [] + [e0] == [e0] && After(cfg, [e0]) == Begun(NO_CALLS, 0, g, call);
    OneMore(cfg, [e0], e1);
    assert [e0] + [e1] == [e0, e1];
  }

  /** Two legs that start without a call id are both called unknown: the later one's session hides
      the earlier one's, and when the earlier call ends the later one is listed no more. */
  lemma {:induction false} CollidingIds(cfg: AppConfig, g: Group, h: Group, call: CallId)
    requires g != h
    ensures var es := [AgentStart(0, g, call), AgentStart(1, h, call)];
            && IsRun(cfg, es) && !Listed(After(cfg, es), g) && Listed(After(cfg, es), h)
            && IsRun(cfg, es + [Fails(0)])
            && h in After(cfg, es + [Fails(0)]).bridges && !Listed(After(cfg, es + [Fails(0)]), h)
  {
    var es := [AgentStart(0, g, call), AgentStart(1, h, call)];
    TwoStarts(cfg, g, h, call);
    OneMore(cfg, es, Fails(0));
    FailingUnlists(cfg, After(cfg, es), g, h);
  }

  lemma FailingUnlists(cfg: AppConfig, a: App, g: Group, h: Group)
    requires Wf(a) && g != h && SameId(a, g, h) && a.bridges[g] == 0
    ensures var r := Step(cfg, a, Fails(0));
            h in r.bridges && !Listed(r, h)
  {
    var b := MarkSet(a, (0, a.made[0].(finished := true)));
    assert SameId(b, g, h);
    TeardownTouchesNoOther(cfg, b, g, true, true, h);
    var r := TornDown(cfg, b, g, true, true);
    assert Step(cfg, a, Fails(0)) == r;
    assert Held(r, h).bridge.Some? && !Held(r, h).listed;
  }
}
