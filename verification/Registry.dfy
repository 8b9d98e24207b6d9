/** The call registry: the dictionaries of the application's state, the bridges they point to,
    and the sockets that come and go. What is asked of the telephone company is kept in order. */
module Registry {
  import opened Prelude

  type Group = string
  type CallId = string
  type BridgeId = nat
  type Socket = nat

  const MAX_REDIALS := 2
  const RECONNECT_GRACE := 20.0

  /** Whether there is a telephony client, and a public address for it to call back. */
  datatype AppConfig = AppConfig(telephony: bool, publicBase: bool)

  datatype Effect = Placed(group: Group) | FallbackText(group: Group) | HungUp(call: CallId)

  /** What the registry looks at in a bridge and in its session. */
  datatype Call = Call(
    group: Group,
    id: CallId,
    userLeg: Option<CallId>,
    reconnecting: bool,
    reconnectSince: Option<real>,
    relayOpen: bool,
    finished: bool,
    closed: bool)

  datatype App = App(
    bridges: map<Group, BridgeId>,
    sessions: map<CallId, BridgeId>,
    pendingGoals: set<Group>,
    userLegs: map<Group, CallId>,
    userNumbers: set<Group>,
    redials: map<Group, nat>,
    made: seq<Call>,                     // every bridge ever made; a bridge's id is its place
    agentSockets: map<Socket, BridgeId>,
    userSockets: map<Socket, BridgeId>,
    created: set<Group>,
    asked: seq<Effect>)

  const NO_CALLS := App(map[], map[], {}, map[], {}, map[], [], map[], map[], {}, [])

  /** Every id is that of a bridge that was made, registered under its own group. */
  ghost predicate Wf(a: App) {
    && (forall g :: g in a.bridges ==> a.bridges[g] < |a.made| && a.made[a.bridges[g]].group == g)
    && (forall s :: s in a.agentSockets ==> a.agentSockets[s] < |a.made|)
    && (forall s :: s in a.userSockets ==> a.userSockets[s] < |a.made|)
  }

  // ---- one function per operation ----

  function Without<K, V>(m: map<K, V>, k: K): map<K, V> { m - {k} }

  function ContextCleared(a: App, g: Group): App {
    a.(pendingGoals := a.pendingGoals - {g}, userLegs := Without(a.userLegs, g),
    userNumbers := a.userNumbers - {g}, redials := Without(a.redials, g))
  }

  function HangUp(cfg: AppConfig, call: Option<CallId>): seq<Effect> {
    if cfg.telephony && call.Some? && call.value != "" && call.value != "unknown" then [HungUp(call.value)] else []
  }

  function Text(cfg: AppConfig, a: App, g: Group): seq<Effect> {
    if cfg.telephony && g in a.userNumbers then [FallbackText(g)] else []
  }

  /** What a teardown asks for: first the text, then both legs hung up. */
  function Farewell(cfg: AppConfig, a: App, call: Call, text: bool, hangUp: bool): seq<Effect> {
    (if text then Text(cfg, a, call.group) else []) +
    (if hangUp then HangUp(cfg, Some(call.id)) + HangUp(cfg, call.userLeg) else [])
  }

  /** `_teardown_group`; `text` is whether there is a reason to tell the user. */
  ghost function TornDown(cfg: AppConfig, a: App, g: Group, text: bool, hangUp: bool): (r: App)
    requires Wf(a)
    ensures Wf(r)
  {
    if g !in a.bridges then ContextCleared(a, g)
    else
      var id := a.bridges[g];
      var call := a.made[id];
      ContextCleared(
        a.(bridges := Without(a.bridges, g), sessions := Without(a.sessions, call.id),
        made := a.made[id := call.(closed := true)], asked := a.asked + Farewell(cfg, a, call, text, hangUp)), g)
  }

  predicate Overdue(call: Call, now: real) {
    call.reconnecting && call.reconnectSince.Some? && now - call.reconnectSince.value > RECONNECT_GRACE
  }

  ghost predicate IsStale(a: App, g: Group, now: real)
    requires Wf(a)
  {
    g in a.bridges && Overdue(a.made[a.bridges[g]], now)
  }

  /** One reaper pass over a listing of the groups, and how many it reaped. */
  ghost function Reaped(cfg: AppConfig, a: App, now: real, groups: seq<Group>): (r: (App, nat))
    requires Wf(a)
    ensures Wf(r.0)
    decreases |groups|
  {
    if groups == [] then (a, 0)
    else if IsStale(a, groups[0], now) then
      var rest := Reaped(cfg, TornDown(cfg, a, groups[0], true, true), now, groups[1..]);
      (rest.0, rest.1 + 1)
    else Reaped(cfg, a, now, groups[1..])
  }

  /** `_redial_agent_leg`; `placed` is whether the placement goes through if it is tried. The
      attempt counts either way. */
  function Redialed(cfg: AppConfig, a: App, g: Group, placed: bool): (App, bool) {
    if g !in a.redials || !cfg.telephony || !cfg.publicBase || a.redials[g] >= MAX_REDIALS then (a, false)
    else (a.(redials := a.redials[g := a.redials[g] + 1], asked := a.asked + [Placed(g)]), placed)
  }

  /** A redialed call's bridge goes, its context stays. */
  ghost function Replaced(a: App, id: BridgeId): (r: App)
    requires Wf(a) && id < |a.made|
    ensures Wf(r)
  {
    var call := a.made[id];
    var registered := call.group in a.bridges && a.bridges[call.group] == id;
    a.(bridges := if registered then Without(a.bridges, call.group) else a.bridges,
    sessions := Without(a.sessions, call.id), made := a.made[id := call.(closed := true)])
  }

  /** `_finish_agent_leg` for a leg that had got a bridge. */
  ghost function LegFinished(cfg: AppConfig, a: App, id: BridgeId, sawStop: bool, placed: bool): (r: App)
    requires Wf(a) && id < |a.made|
    ensures Wf(r)
  {
    var call := a.made[id];
    if call.reconnecting then a
    else if sawStop || call.finished then TornDown(cfg, a, call.group, false, false)
    else
      var (a1, again) := Redialed(cfg, a, call.group, placed);
      if again then Replaced(a1, id) else TornDown(cfg, a1, call.group, true, true)
  }

  /** The `start` of an agent leg whose group has a bridge: a redirect has come back. */
  ghost function Resumed(a: App, s: Socket, g: Group): (r: App)
    requires Wf(a) && g in a.bridges
    ensures Wf(r)
  {
    var id := a.bridges[g];
    a.(made := a.made[id := a.made[id].(reconnecting := false, reconnectSince := None)],
    agentSockets := a.agentSockets[s := id])
  }

  /** The `start` of an agent leg whose group has none: a new session and its bridge. */
  ghost function Begun(a: App, s: Socket, g: Group, call: CallId): (r: App)
    requires Wf(a) && g !in a.bridges
    ensures Wf(r)
  {
    var id := |a.made|;
    var userLeg := if g in a.userLegs then Some(a.userLegs[g]) else None;
    a.(bridges := a.bridges[g := id], sessions := a.sessions[call := id],
    made := a.made + [Call(g, call, userLeg, false, None, false, false, false)],
    agentSockets := a.agentSockets[s := id])
  }

  ghost function AgentStarted(a: App, s: Socket, g: Group, call: CallId): (r: App)
    requires Wf(a)
    ensures Wf(r)
  {
    if g in a.bridges then Resumed(a, s, g) else Begun(a, s, g, call)
  }

  /** A session gives up: it is finished, and its failure hook tears the group down. */
  ghost function SessionFailed(cfg: AppConfig, a: App, id: BridgeId): (r: App)
    requires Wf(a) && id < |a.made|
    ensures Wf(r)
  {
    TornDown(cfg, MarkSet(a, (id, a.made[id].(finished := true))), a.made[id].group, true, true)
  }

  /** The `finally` of a user leg. */
  ghost function UserLegEnded(cfg: AppConfig, a: App, s: Socket): (r: App)
    requires Wf(a) && s in a.userSockets
    ensures Wf(r)
  {
    var id := a.userSockets[s];
    var a1 := a.(userSockets := Without(a.userSockets, s));
    if a.made[id].relayOpen || a.made[id].finished then a1 else SessionFailed(cfg, a1, id)
  }

  /** `create_call`. The business is called, and if that is accepted the context is written and
      the user is rung; `userLeg` is the leg that rings, if it does. */
  ghost function CallCreated(cfg: AppConfig, a: App, g: Group, placed: bool, userLeg: Option<CallId>): (r: App)
    requires Wf(a)
    ensures Wf(r)
  {
    if !cfg.telephony || !cfg.publicBase then a
    else
      var a1 := a.(created := a.created + {g}, asked := a.asked + [Placed(g)]);
      if !placed then a1
      else
        var a2 := a1.(pendingGoals := a.pendingGoals + {g}, redials := a.redials[g := 0]);
        if userLeg.None? then a2
        else a2.(userLegs := a.userLegs[g := userLeg.value], userNumbers := a.userNumbers + {g})
  }

  // ---- runs ----

  datatype Event =
    | Create(group: Group, placed: bool, userLeg: Option<CallId>)
    | AgentStart(socket: Socket, group: Group, call: CallId)
    | UserStart(socket: Socket, group: Group)
    | UserGivesUp(socket: Socket, group: Group)            // no bridge came, the leg is closed
    | Press(socket: Socket, now: real)                     // asked for while that leg's audio is heard
    | RedirectFails(bridge: BridgeId)
    | Completes(bridge: BridgeId)
    | RelayOpens(bridge: BridgeId)
    | Fails(bridge: BridgeId)
    | AgentCloses(socket: Socket, sawStop: bool, placed: bool)
    | UserCloses(socket: Socket)
    | Reap(now: real, listing: seq<Group>)

  /** The reaper's listing names every group once, in whatever order. */
  ghost predicate Lists(a: App, listing: seq<Group>) {
    && (forall g :: g in listing <==> g in a.bridges)
    && (forall i, j :: 0 <= i < j < |listing| ==> listing[i] != listing[j])
  }

  /** What can happen next. Groups are drawn at random and never drawn twice; a socket belongs to
      one leg, which starts once. */
  ghost predicate Enabled(a: App, e: Event) {
    match e
    case Create(g, _, _) => g !in a.created
    case AgentStart(s, _, _) => s !in a.agentSockets && s !in a.userSockets
    case UserStart(s, g) => s !in a.agentSockets && s !in a.userSockets && g in a.bridges
    case UserGivesUp(s, g) => s !in a.agentSockets && s !in a.userSockets && g !in a.bridges
    case Press(s, _) => s in a.agentSockets
    case RedirectFails(id) => id < |a.made|
    case Completes(id) => id < |a.made|
    case RelayOpens(id) => id < |a.made|
    case Fails(id) => id < |a.made|
    case AgentCloses(s, _, _) => s in a.agentSockets
    case UserCloses(s) => s in a.userSockets
    case Reap(_, listing) => Lists(a, listing)
  }

  predicate IsMark(e: Event) { e.Press? || e.RedirectFails? || e.Completes? || e.RelayOpens? }

  /** The events that change one bridge's flags and nothing else. */
  ghost function Marked(a: App, e: Event): (r: (BridgeId, Call))
    requires Wf(a) && IsMark(e) && Enabled(a, e)
    ensures r.0 < |a.made|
    ensures (r.1.id, r.1.group, r.1.closed) == (a.made[r.0].id, a.made[r.0].group, a.made[r.0].closed)
  {
    match e
    case Press(s, now) =>
      var id := a.agentSockets[s];
      (id, a.made[id].(reconnecting := true, reconnectSince := Some(now)))
    case RedirectFails(id) => (id, a.made[id].(reconnecting := false))
    case Completes(id) => (id, a.made[id].(finished := true))
    case RelayOpens(id) => (id, a.made[id].(relayOpen := true))
  }

  ghost function MarkSet(a: App, mark: (BridgeId, Call)): (r: App)
    requires Wf(a) && mark.0 < |a.made| && mark.1.group == a.made[mark.0].group
    ensures Wf(r)
  {
    a.(made := a.made[mark.0 := mark.1])
  }

  ghost function Step(cfg: AppConfig, a: App, e: Event): (r: App)
    requires Wf(a) && Enabled(a, e)
    ensures Wf(r)
  {
    match e
    case Create(g, placed, userLeg) => CallCreated(cfg, a, g, placed, userLeg)
    case AgentStart(s, g, call) => AgentStarted(a, s, g, call)
    case UserStart(s, g) => a.(userSockets := a.userSockets[s := a.bridges[g]])
    case UserGivesUp(_, _) => a
    case Fails(id) => SessionFailed(cfg, a, id)
    case AgentCloses(s, sawStop, placed) =>
      LegFinished(cfg, a.(agentSockets := Without(a.agentSockets, s)), a.agentSockets[s], sawStop, placed)
    case UserCloses(s) => UserLegEnded(cfg, a, s)
    case Reap(now, listing) => Reaped(cfg, a, now, listing).0
    case _ => MarkSet(a, Marked(a, e))
  }

  ghost predicate IsRun(cfg: AppConfig, es: seq<Event>)
    decreases |es|, 0
  {
    es == [] || (IsRun(cfg, es[..|es| - 1]) && Enabled(After(cfg, es[..|es| - 1]), es[|es| - 1]))
  }

  ghost function After(cfg: AppConfig, es: seq<Event>): (r: App)
    requires IsRun(cfg, es)
    ensures Wf(r)
    decreases |es|, 1
  {
    if es == [] then NO_CALLS else Step(cfg, After(cfg, es[..|es| - 1]), es[|es| - 1])
  }
}
