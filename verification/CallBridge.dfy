/** The audio hub of one call: two legs, an outbound queue towards each, and the relay that
    opens at the handoff. */
module CallBridge {
  import opened Prelude
  import opened Ulaw

  type Payload = seq<Byte>

  datatype OutFrame = OutFrame(stream: string, payload: Payload)

  const FRAME := 160

  datatype Hub = Hub(
    agentStream: Option<string>,
    userStream: Option<string>,
    outAgent: seq<OutFrame>,
    outUser: seq<OutFrame>,
    probeInbound: Option<seq<Payload>>,
    fed: seq<Payload>,
    reconnecting: bool,
    reconnectSince: Option<real>,
    relayOpen: bool,
    handoffStarted: bool,
    notified: nat)

  const NEW_HUB := Hub(None, None, [], [], None, [], false, None, false, false, 0)

  // ---- framing ----

  /** The clip cut every 160 bytes. */
  function Cut(clip: Payload): seq<Payload>
    decreases |clip|
  {
    if |clip| == 0 then []
    else if |clip| <= FRAME then [clip]
    else [clip[..FRAME]] + Cut(clip[FRAME..])
  }

  function Joined(frames: seq<Payload>): Payload {
    if frames == [] then [] else frames[0] + Joined(frames[1..])
  }

  /** Nothing is lost or padded: the frames joined are the clip, each is 160 bytes but the last,
      which is shorter but never empty. */
  lemma {:induction false} CutsJoinAgain(clip: Payload)
    ensures Joined(Cut(clip)) == clip
    ensures var frames := Cut(clip);
            forall i :: 0 <= i < |frames| ==>
              if i < |frames| - 1 then |frames[i]| == 160 else 0 < |frames[i]| <= 160
    decreases |clip|
  {
    if |clip| > FRAME {
      CutsJoinAgain(clip[FRAME..]);
      assert clip == clip[..FRAME] + clip[FRAME..];
      assert Cut(clip)[1..] == Cut(clip[FRAME..]);
    } else if |clip| > 0 {
      assert [clip][1..] == [];
      assert clip + [] == clip;
    }
  }

  function Addressed(stream: string, frames: seq<Payload>): (r: seq<OutFrame>)
    ensures |r| == |frames| && forall i :: 0 <= i < |r| ==> r[i] == OutFrame(stream, frames[i])
  {
    if frames == [] then []
    else Addressed(stream, frames[..|frames| - 1]) + [OutFrame(stream, frames[|frames| - 1])]
  }

  /** What is left of a clip from i on. */
  function Rest(clip: Payload, i: nat): Payload { if i < |clip| then clip[i..] else [] }

  /** One turn of the loop that cuts and queues: the frame at i, then the rest. */
  lemma OneMoreFrame(stream: string, clip: Payload, i: nat)
    requires i < |clip|
    ensures var end := if i + FRAME < |clip| then i + FRAME else |clip|;
            Addressed(stream, Cut(Rest(clip, i))) ==
            [OutFrame(stream, clip[i..end])] + Addressed(stream, Cut(Rest(clip, i + FRAME)))
  {
    var end := if i + FRAME < |clip| then i + FRAME else |clip|;
    NextCut(clip, i);
    AddressedFirst(stream, clip[i..end], Cut(Rest(clip, i + FRAME)));
  }

  lemma NextCut(clip: Payload, i: nat)
    requires i < |clip|
    ensures var end := if i + FRAME < |clip| then i + FRAME else |clip|;
            Cut(Rest(clip, i)) == [clip[i..end]] + Cut(Rest(clip, i + FRAME))
  {
    if i + FRAME < |clip| {
      assert clip[i..][..FRAME] == clip[i..i + FRAME] && clip[i..][FRAME..] == clip[i + FRAME..];
    } else {
      assert clip[i..|clip|] == clip[i..];
    }
  }

  lemma AddressedFirst(stream: string, first: Payload, rest: seq<Payload>)
    ensures Addressed(stream, [first] + rest) == [OutFrame(stream, first)] + Addressed(stream, rest)
  {
  }

  // ---- one function per operation ----

  function AgentHeard(h: Hub, payload: Payload, sessionFinished: bool): Hub {
    h.(probeInbound := if h.probeInbound.Some? then Some(h.probeInbound.value + [payload]) else None,
    outUser := if h.relayOpen && h.userStream.Some? then h.outUser + [OutFrame(h.userStream.value, payload)]
               else h.outUser,
    fed := if sessionFinished then h.fed else h.fed + [payload])
  }

  function UserHeard(h: Hub, payload: Payload): Hub {
    if h.relayOpen && h.agentStream.Some? then h.(outAgent := h.outAgent + [OutFrame(h.agentStream.value, payload)])
    else h
  }

  function IsKey(c: char): bool { c in "0123456789*#" }

  function OnlyKeys(digits: string): string {
    if digits == "" then ""
    else (if IsKey(digits[0]) then [digits[0]] else "") + OnlyKeys(digits[1..])
  }

  /** A keypress asks for a redirect unless nothing of it can be pressed or no leg is bound. */
  function Pressing(h: Hub, digits: string, now: real): (Hub, Option<string>) {
    var safe := OnlyKeys(digits);
    if safe == "" || h.agentStream.None? then (h, None)
    else (h.(reconnecting := true, reconnectSince := Some(now)), Some(safe))
  }

  function Playing(h: Hub, clip: Payload): Hub {
    if h.agentStream.None? then h else h.(outAgent := h.outAgent + Addressed(h.agentStream.value, Cut(clip)))
  }

  datatype Begun = AlreadyBegun | UserLeft | Opened | Scheduled

  /** `spoken` is whether there is a holding line to speak first, on a loop to speak it from. */
  function BeginningHandoff(h: Hub, spoken: bool): (Hub, Begun) {
    if h.handoffStarted then (h, AlreadyBegun)
    else
      var h1 := h.(handoffStarted := true);
      if h.userStream.None? then (h1, UserLeft)
      else if spoken then (h1, Scheduled)
      else (h1.(relayOpen := true, notified := h1.notified + 1), Opened)
  }

  function FinishingHandoff(h: Hub): Hub { h.(relayOpen := true, notified := h.notified + 1) }

  // ---- runs ----

  datatype Event =
    | BindAgent(stream: string)
    | BindUser(stream: string)
    | UnbindUser
    | AgentAudio(payload: Payload, sessionFinished: bool)
    | UserAudio(payload: Payload)
    | Play(clip: Payload)
    | Press(digits: string, now: real)
    | BeginHandoff(spoken: bool)
    | HandoffSpoken
    | ProbeBegins
    | ProbeEnds
    | DrainAgent
    | DrainUser

  function Step(h: Hub, e: Event): Hub {
    match e
    case BindAgent(stream) => h.(agentStream := Some(stream))
    case BindUser(stream) => h.(userStream := Some(stream))
    case UnbindUser => h.(userStream := None)
    case AgentAudio(payload, finished) => AgentHeard(h, payload, finished)
    case UserAudio(payload) => UserHeard(h, payload)
    case Play(clip) => Playing(h, clip)
    case Press(digits, now) => Pressing(h, digits, now).0
    case BeginHandoff(spoken) => BeginningHandoff(h, spoken).0
    case HandoffSpoken => FinishingHandoff(h)
    case ProbeBegins => h.(probeInbound := Some([]))
    case ProbeEnds => h.(probeInbound := None)
    case DrainAgent => h.(outAgent := [])
    case DrainUser => h.(outUser := [])
  }

  function After(es: seq<Event>): Hub {
    if es == [] then NEW_HUB else Step(After(es[..|es| - 1]), es[|es| - 1])
  }

  // ---- the history ----

  /** Where the handoff stands: not begun, begun with the holding line still to be spoken, over
      without a user, or open. */
  datatype Stage = NotBegun | Speaking | Refused | Open

  /** What one event does to the stage, given who the user's leg was. */
  function StageAfter(stage: Stage, user: Option<string>, e: Event): Stage {
    match e
    case BeginHandoff(spoken) =>
      if !stage.NotBegun? then stage
      else if user.None? then Refused
      else if spoken then Speaking
      else Open
    case HandoffSpoken => Open
    case _ => stage
  }

  function UserAfter(user: Option<string>, e: Event): Option<string> {
    match e
    case BindUser(stream) => Some(stream)
    case UnbindUser => None
    case _ => user
  }

  function StageOf(es: seq<Event>): Stage {
    if es == [] then NotBegun
    else StageAfter(StageOf(es[..|es| - 1]), UserLeg(es[..|es| - 1]), es[|es| - 1])
  }

  /** The spoken handoff ends once, after it was scheduled. */
  predicate IsRun(es: seq<Event>) {
    es == [] ||
    (IsRun(es[..|es| - 1]) && (es[|es| - 1].HandoffSpoken? ==> StageOf(es[..|es| - 1]).Speaking?))
  }

  function UserLeg(es: seq<Event>): Option<string> {
    if es == [] then None else UserAfter(UserLeg(es[..|es| - 1]), es[|es| - 1])
  }

  function AgentLeg(es: seq<Event>): Option<string> {
    if es == [] then None
    else if es[|es| - 1].BindAgent? then Some(es[|es| - 1].stream)
    else AgentLeg(es[..|es| - 1])
  }

  /** What the probe under way, if any, should have heard: the agent's frames since it began. */
  function DueToProbe(es: seq<Event>): Option<seq<Payload>> {
    if es == [] then None else DueToProbeAfter(DueToProbe(es[..|es| - 1]), es[|es| - 1])
  }

  function DueToProbeAfter(due: Option<seq<Payload>>, e: Event): Option<seq<Payload>> {
    match e
    case ProbeBegins => Some([])
    case ProbeEnds => None
    case AgentAudio(payload, _) => if due.Some? then Some(due.value + [payload]) else None
    case _ => due
  }

  /** What the user should get to hear: the agent's frames from the opening of the relay on,
      while the user is there. */
  function DueToUser(es: seq<Event>): seq<OutFrame> {
    if es == [] then []
    else
      var front, last := es[..|es| - 1], es[|es| - 1];
      if last.AgentAudio? && StageOf(front).Open? && UserLeg(front).Some?
      then DueToUser(front) + [OutFrame(UserLeg(front).value, last.payload)]
      else DueToUser(front)
  }

  /** What the agent should get to hear: our own clips and, once the relay is open, the user. */
  function DueToAgent(es: seq<Event>, users: bool): seq<OutFrame> {
    if es == [] then []
    else
      var front, last := es[..|es| - 1], es[|es| - 1];
      if AgentLeg(front).None? then DueToAgent(front, users)
      else if last.Play? then DueToAgent(front, users) + Addressed(AgentLeg(front).value, Cut(last.clip))
      else if users && last.UserAudio? && StageOf(front).Open?
      then DueToAgent(front, users) + [OutFrame(AgentLeg(front).value, last.payload)]
      else DueToAgent(front, users)
  }

  /** Everything handed to the sockets so far. */
  function Drained(es: seq<Event>, user: bool): seq<OutFrame> {
    if es == [] then []
    else
      var front, last := es[..|es| - 1], es[|es| - 1];
      if user && last.DrainUser? then Drained(front, user) + After(front).outUser
      else if !user && last.DrainAgent? then Drained(front, user) + After(front).outAgent
      else Drained(front, user)
  }

  /** The hub's fields are what the history says. */
  predicate Matches(h: Hub, user: Option<string>, agent: Option<string>, stage: Stage) {
    && (h.userStream, h.agentStream) == (user, agent)
    && h.relayOpen == stage.Open?
    && h.handoffStarted == !stage.NotBegun?
    && h.notified == (if stage.Open? then 1 else 0)
  }

  lemma StepMatches(h: Hub, user: Option<string>, agent: Option<string>, stage: Stage, e: Event)
    requires Matches(h, user, agent, stage) && (e.HandoffSpoken? ==> stage.Speaking?)
    ensures Matches(Step(h, e), UserAfter(user, e), if e.BindAgent? then Some(e.stream) else agent,
                    StageAfter(stage, user, e))
  {
  }

  lemma {:induction false} HubMatchesHistory(es: seq<Event>)
    requires IsRun(es)
    ensures Matches(After(es), UserLeg(es), AgentLeg(es), StageOf(es))
  {
    if es != [] {
      var front := es[..|es| - 1];
      HubMatchesHistory(front);
      StepMatches(After(front), UserLeg(front), AgentLeg(front), StageOf(front), es[|es| - 1]);
    }
  }

  lemma TeedToProbe(h: Hub, e: Event)
    ensures Step(h, e).probeInbound == DueToProbeAfter(h.probeInbound, e)
  {
  }

  /** The probe hears everything the agent says while it is under way, in order, and nothing else. */
  lemma {:induction false} ProbeHearsExactlyItsDue(es: seq<Event>)
    ensures After(es).probeInbound == DueToProbe(es)
  {
    if es != [] {
      ProbeHearsExactlyItsDue(es[..|es| - 1]);
      TeedToProbe(After(es[..|es| - 1]), es[|es| - 1]);
    }
  }

  /** What the session should have been fed: what the agent said while the session had not finished. */
  function DueToSession(es: seq<Event>): seq<Payload> {
    if es == [] then [] else DueToSession(es[..|es| - 1]) + HeardByALiveSession(es[|es| - 1])
  }

  function HeardByALiveSession(e: Event): seq<Payload> {
    match e
    case AgentAudio(payload, finished) => if finished then [] else [payload]
    case _ => []
  }

  lemma FedToSession(h: Hub, e: Event)
    ensures Step(h, e).fed == h.fed + HeardByALiveSession(e)
  {
  }

  /** The session is fed every frame the agent says until it has finished, in order and once, and
      nothing else: neither the user's frames nor our own clips. */
  lemma {:induction false} SessionHearsExactlyItsDue(es: seq<Event>)
    ensures After(es).fed == DueToSession(es)
  {
    if es != [] {
      SessionHearsExactlyItsDue(es[..|es| - 1]);
      FedToSession(After(es[..|es| - 1]), es[|es| - 1]);
    }
  }

  /** The last keypress that asked for a redirect: one of the twelve keys in it, and a leg to press
      it on. */
  function LastRedirect(es: seq<Event>): Option<real> {
    if es == [] then None
    else
      var front, last := es[..|es| - 1], es[|es| - 1];
      if last.Press? && AgentLeg(front).Some? && HasKey(last.digits) then Some(last.now) else LastRedirect(front)
  }

  predicate HasKey(digits: string) {
    exists i :: 0 <= i < |digits| && ('0' <= digits[i] <= '9' || digits[i] == '*' || digits[i] == '#')
  }

  /** What can be pressed of some digits followed by another: a selection, in order, of the twelve
      keys. Which determines it. */
  lemma {:induction false} KeysAreSelected(digits: string, c: char)
    ensures OnlyKeys("") == ""
    ensures OnlyKeys(digits + [c]) ==
            OnlyKeys(digits) + if '0' <= c <= '9' || c == '*' || c == '#' then [c] else ""
  {
    if digits == "" {
      assert [] + [c] == [c] && [c][1..] == "";
    } else {
      assert (digits + [c])[0] == digits[0] && (digits + [c])[1..] == digits[1..] + [c];
      KeysAreSelected(digits[1..], c);
    }
  }

  lemma {:induction false} SomeKeyIsSelected(digits: string)
    ensures OnlyKeys(digits) != "" <==> HasKey(digits)
    decreases |digits|
  {
    if digits != "" {
      var front, last := digits[..|digits| - 1], digits[|digits| - 1];
      assert digits == front + [last];
      SomeKeyIsSelected(front);
      KeysAreSelected(front, last);
    }
  }

  /** A keypress asks for a redirect to press what can be pressed of it, if that is anything and a leg
      is there; and nothing else of the hub moves. */
  lemma PressingSelects(h: Hub, digits: string, now: real)
    ensures Pressing(h, digits, now) ==
            if HasKey(digits) && h.agentStream.Some?
            then (h.(reconnecting := true, reconnectSince := Some(now)), Some(OnlyKeys(digits)))
            else (h, None)
  {
    SomeKeyIsSelected(digits);
  }

  lemma OthersDateNothing(h: Hub, e: Event)
    requires !e.Press?
    ensures var r := Step(h, e); (r.reconnectSince, r.reconnecting) == (h.reconnectSince, h.reconnecting)
  {
  }

  /** On every run the hub waits for a redirect exactly since the last keypress that asked for one;
      nothing in the hub ends the wait, which is the application's to do. */
  lemma {:induction false} RedirectIsDated(es: seq<Event>)
    requires IsRun(es)
    ensures After(es).reconnectSince == LastRedirect(es) && (After(es).reconnecting <==> LastRedirect(es).Some?)
  {
    if es != [] {
      var front, last := es[..|es| - 1], es[|es| - 1];
      RedirectIsDated(front);
      HubMatchesHistory(front);
      if last.Press? {
        PressingSelects(After(front), last.digits, last.now);
      } else {
        OthersDateNothing(After(front), last);
      }
    }
  }

  /** The relay conserves: what was handed to the user's socket, and what waits for it, are in
      order exactly the agent's frames of the open relay. */
  lemma {:induction false} UserGetsExactlyTheRelay(es: seq<Event>)
    requires IsRun(es)
    ensures Drained(es, true) + After(es).outUser == DueToUser(es)
  {
    if es != [] {
      var front, last := es[..|es| - 1], es[|es| - 1];
      UserGetsExactlyTheRelay(front);
      HubMatchesHistory(front);
      QueuedForUser(After(front), last);
    }
  }

  /** What one event queues towards the user, unless it drains the queue. */
  lemma QueuedForUser(h: Hub, e: Event)
    ensures e.DrainUser? ==> Step(h, e).outUser == []
    ensures !e.DrainUser? ==>
              Step(h, e).outUser == h.outUser +
              if e.AgentAudio? && h.relayOpen && h.userStream.Some?
              then [OutFrame(h.userStream.value, e.payload)] else []
  {
  }

  /** Likewise towards the agent, our own clips included. */
  lemma {:induction false} AgentGetsExactlyItsDue(es: seq<Event>)
    requires IsRun(es)
    ensures Drained(es, false) + After(es).outAgent == DueToAgent(es, true)
  {
    if es != [] {
      var front, last := es[..|es| - 1], es[|es| - 1];
      AgentGetsExactlyItsDue(front);
      HubMatchesHistory(front);
      QueuedForAgent(After(front), last);
    }
  }

  /** What one event queues towards the agent, unless it drains the queue. */
  lemma QueuedForAgent(h: Hub, e: Event)
    ensures e.DrainAgent? ==> Step(h, e).outAgent == []
    ensures !e.DrainAgent? ==>
              Step(h, e).outAgent == h.outAgent +
              if h.agentStream.None? then []
              else if e.Play? then Addressed(h.agentStream.value, Cut(e.clip))
              else if e.UserAudio? && h.relayOpen then [OutFrame(h.agentStream.value, e.payload)]
              else []
  {
  }

  lemma {:induction false} OpenStaysOpen(es: seq<Event>, k: nat)
    requires IsRun(es) && k <= |es| && StageOf(es[..k]).Open?
    ensures StageOf(es).Open?
  {
    if k < |es| {
      var front := es[..|es| - 1];
      assert es[..k] == front[..k];
      OpenStaysOpen(front, k);
    } else {
      assert es[..k] == es;
    }
  }

  lemma {:induction false} NoUserBeforeTheHandoff(es: seq<Event>)
    requires IsRun(es) && !StageOf(es).Open?
    ensures DueToAgent(es, true) == DueToAgent(es, false)
  {
    if es != [] {
      var front := es[..|es| - 1];
      if StageOf(front).Open? { OpenStaysOpen(es, |es| - 1); }
      NoUserBeforeTheHandoff(front);
    }
  }

  /** Before the handoff the agent hears nothing but our own clips, whatever the user says; and
      the user hears nothing. */
  lemma {:induction false} AgentHearsOnlyUsBeforeTheHandoff(es: seq<Event>)
    requires IsRun(es) && !After(es).relayOpen
    ensures Drained(es, false) + After(es).outAgent == DueToAgent(es, false)
    ensures DueToUser(es) == Drained(es, true) == []
  {
    HubMatchesHistory(es);
    NoUserBeforeTheHandoff(es);
    AgentGetsExactlyItsDue(es);
    UserGetsExactlyTheRelay(es);
    NothingDueBeforeTheHandoff(es);
  }

  lemma {:induction false} NothingDueBeforeTheHandoff(es: seq<Event>)
    requires IsRun(es) && !StageOf(es).Open?
    ensures DueToUser(es) == []
  {
    if es != [] {
      var front := es[..|es| - 1];
      if StageOf(front).Open? { OpenStaysOpen(es, |es| - 1); }
      NothingDueBeforeTheHandoff(front);
    }
  }

  lemma {:induction false} PrefixIsRun(es: seq<Event>, k: nat)
    requires IsRun(es) && k <= |es|
    ensures IsRun(es[..k])
  {
    if k < |es| {
      PrefixIsRun(es[..|es| - 1], k);
      assert es[..|es| - 1][..k] == es[..k];
    } else {
      assert es[..k] == es;
    }
  }

  /** Once open, the relay stays open, and the user has been told exactly once. */
  lemma RelayNeverCloses(es: seq<Event>, k: nat)
    requires IsRun(es) && k <= |es| && After(es[..k]).relayOpen
    ensures After(es).relayOpen && After(es).notified == 1
  {
    PrefixIsRun(es, k);
    HubMatchesHistory(es[..k]);
    OpenStaysOpen(es, k);
    HubMatchesHistory(es);
  }

  /** The user has left, and not come back, since the handoff began. */
  function LeftSince(es: seq<Event>): bool {
    if es == [] then false
    else
      var front, last := es[..|es| - 1], es[|es| - 1];
      if last.UnbindUser? then true
      else if last.BindUser? || (last.BeginHandoff? && StageOf(front).NotBegun?) then false
      else LeftSince(front)
  }

  lemma {:induction false} WhileSpeaking(es: seq<Event>)
    requires IsRun(es) && StageOf(es).Speaking?
    ensures UserLeg(es).None? <==> LeftSince(es)
  {
    var front, last := es[..|es| - 1], es[|es| - 1];
    if StageOf(front).Speaking? { WhileSpeaking(front); }
  }

  /** The relay opens on nobody, and the user is told of it all the same, exactly when a holding line
      was spoken and the user left meanwhile for good. */
  lemma {:induction false} OpensOnNobodyExactlyWhen(es: seq<Event>, e: Event)
    requires IsRun(es + [e]) && !After(es).relayOpen && After(es + [e]).relayOpen
    ensures After(es + [e]).notified == 1
    ensures After(es + [e]).userStream.None? <==> e.HandoffSpoken? && LeftSince(es)
  {
    assert (es + [e])[..|es|] == es;
    HubMatchesHistory(es);
    HubMatchesHistory(es + [e]);
    if e.HandoffSpoken? { WhileSpeaking(es); }
  }

  lemma OpensOnNobody(user: string)
    ensures var es := [BindUser(user), BeginHandoff(true), UnbindUser, HandoffSpoken];
            IsRun(es) && After(es).relayOpen && After(es).userStream.None? && After(es).notified == 1
  {
    var e0, e1, e2, e3 := BindUser(user), BeginHandoff(true), UnbindUser, HandoffSpoken;
    OneMore([], e0);
    assert [] + [e0] == [e0];
    OneMore([e0], e1);
    assert [e0] + [e1] == [e0, e1];
    OneMore([e0, e1], e2);
    assert [e0, e1] + [e2] == [e0, e1, e2];
    OneMore([e0, e1, e2], e3);
    assert [e0, e1, e2] + [e3] == [e0, e1, e2, e3];
    HubMatchesHistory([e0, e1, e2, e3]);
  }

  lemma OneMore(es: seq<Event>, e: Event)
    requires IsRun(es) && (e.HandoffSpoken? ==> StageOf(es).Speaking?)
    ensures IsRun(es + [e])
    ensures StageOf(es + [e]) == StageAfter(StageOf(es), UserLeg(es), e)
    ensures UserLeg(es + [e]) == UserAfter(UserLeg(es), e)
  {
    assert (es + [e])[..|es|] == es;
  }

  /** A hub no user was ever bound to refuses the handoff. */
  lemma {:induction false} NobodyBound(es: seq<Event>)
    requires forall e :: e in es ==> !e.BindUser?
    ensures UserLeg(es) == None
  {
    if es != [] { NobodyBound(es[..|es| - 1]); }
  }

  lemma HandoffToNobodyIsRefused(es: seq<Event>, spoken: bool)
    requires IsRun(es) && forall e :: e in es ==> !e.BindUser?
    ensures !BeginningHandoff(After(es), spoken).1.Opened? && !BeginningHandoff(After(es), spoken).1.Scheduled?
    ensures StageOf(es).NotBegun? ==> BeginningHandoff(After(es), spoken).1.UserLeft?
  {
    NobodyBound(es);
    HubMatchesHistory(es);
  }

  /** What whoever asks for the handoff is told is what becomes of it. */
  lemma HandoffAnswers(es: seq<Event>, spoken: bool)
    requires IsRun(es)
    ensures BeginningHandoff(After(es), spoken).1 ==
            if StageOf(es).NotBegun? then
              match StageAfter(NotBegun, UserLeg(es), BeginHandoff(spoken))
              case Refused => UserLeft
              case Speaking => Scheduled
              case _ => Opened
            else AlreadyBegun
  {
    HubMatchesHistory(es);
  }

  /** A handoff refused for want of a user leaves the attempt spent: whoever asks again is told
      nothing is wrong, and the relay stays shut for good. */
  lemma {:induction false} RefusedHandoffIsSpent(es: seq<Event>, k: nat)
    requires IsRun(es) && k <= |es| && StageOf(es[..k]).Refused?
    ensures !After(es).relayOpen
    ensures forall spoken :: BeginningHandoff(After(es), spoken) == (After(es), AlreadyBegun)
  {
    RefusedStaysRefused(es, k);
    HubMatchesHistory(es);
  }

  lemma {:induction false} RefusedStaysRefused(es: seq<Event>, k: nat)
    requires IsRun(es) && k <= |es| && StageOf(es[..k]).Refused?
    ensures StageOf(es).Refused?
  {
    if k < |es| {
      var front := es[..|es| - 1];
      assert es[..k] == front[..k];
      RefusedStaysRefused(front, k);
    } else {
      assert es[..k] == es;
    }
  }

  // ---- the class ----

  class Bridge {
    var agentStream: Option<string>
    var userStream: Option<string>
    var outAgent: seq<OutFrame>
    var outUser: seq<OutFrame>
    var probeInbound: Option<seq<Payload>>
    var fed: seq<Payload>
    var reconnecting: bool
    var reconnectSince: Option<real>
    var relayOpen: bool
    var handoffStarted: bool
    var notified: nat

    ghost function View(): Hub
      reads this
    {
      Hub(agentStream, userStream, outAgent, outUser, probeInbound, fed, reconnecting, reconnectSince,
          relayOpen, handoffStarted, notified)
    }

    constructor ()
      ensures View() == NEW_HUB
    {
      agentStream, userStream, outAgent, outUser, probeInbound, fed := None, None, [], [], None, [];
      reconnecting, reconnectSince, relayOpen, handoffStarted, notified := false, None, false, false, 0;
    }

    method OnAgentAudio(payload: Payload, sessionFinished: bool)
      modifies this
      ensures View() == AgentHeard(old(View()), payload, sessionFinished)
    {
      if probeInbound != None {
        probeInbound := Some(probeInbound.value + [payload]);
      }
      if relayOpen && userStream != None {
        outUser := outUser + [OutFrame(userStream.value, payload)];
      }
      if !sessionFinished {
        fed := fed + [payload];
      }
    }

    method OnUserAudio(payload: Payload)
      modifies this
      ensures View() == UserHeard(old(View()), payload)
    {
      if relayOpen && agentStream != None {
        outAgent := outAgent + [OutFrame(agentStream.value, payload)];
      }
    }

    method PressDtmf(digits: string, now: real) returns (redirect: Option<string>)
      modifies this
      ensures (View(), redirect) == Pressing(old(View()), digits, now)
    {
      var safe := OnlyKeys(digits);
      if safe == "" || agentStream == None {
        return None;
      }
      reconnecting := true;
      reconnectSince := Some(now);
      return Some(safe);
    }

    method PlayToAgent(clip: Payload)
      modifies this`outAgent
      ensures View() == Playing(old(View()), clip)
    {
      if agentStream == None {
        return;
      }
      var stream := agentStream.value;
      var i := 0;
      assert Rest(clip, 0) == clip;
      while i < |clip|
        invariant 0 <= i
        invariant outAgent + Addressed(stream, Cut(Rest(clip, i))) == old(outAgent) + Addressed(stream, Cut(clip))
        decreases |clip| - i
      {
        var end := if i + FRAME < |clip| then i + FRAME else |clip|;
        var frame := OutFrame(stream, clip[i..end]);
        OneMoreFrame(stream, clip, i);
        assert outAgent + ([frame] + Addressed(stream, Cut(Rest(clip, i + FRAME)))) ==
               outAgent + [frame] + Addressed(stream, Cut(Rest(clip, i + FRAME)));
        outAgent := outAgent + [frame];
        i := i + FRAME;
      }
    }

    /** The start and the end of a probe's exchange: the agent's audio is teed to it meanwhile. */
    method BeginProbe()
      modifies this
      ensures View() == old(View()).(probeInbound := Some([]))
    {
      probeInbound := Some([]);
    }

    method EndProbe()
      modifies this
      ensures View() == old(View()).(probeInbound := None)
    {
      probeInbound := None;
    }

    method TakeForAgent() returns (out: seq<OutFrame>)
      modifies this
      ensures View() == old(View()).(outAgent := []) && out == old(outAgent)
    {
      out, outAgent := outAgent, [];
    }

    method TakeForUser() returns (out: seq<OutFrame>)
      modifies this
      ensures View() == old(View()).(outUser := []) && out == old(outUser)
    {
      out, outUser := outUser, [];
    }

    method StartHandoff(spoken: bool) returns (begun: Begun)
      modifies this
      ensures (View(), begun) == BeginningHandoff(old(View()), spoken)
    {
      if handoffStarted {
        return AlreadyBegun;
      }
      handoffStarted := true;
      if userStream == None {
        return UserLeft;
      }
      if !spoken {
        relayOpen := true;
        notified := notified + 1;
        return Opened;
      }
      return Scheduled;
    }

    /** The end of the scheduled handoff. */
    method OpenRelay()
      modifies this
      ensures View() == FinishingHandoff(old(View()))
    {
      relayOpen := true;
      notified := notified + 1;
    }
  }
}
