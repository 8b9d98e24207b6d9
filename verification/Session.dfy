/** One live call: the rolling buffer, the audio clock, the single Tier 2 job and the log of
    everything the call emitted or did. Times are exact; one sample is 1/8000 of a second.
    The classifier, Tier 2 and the handoff hook answer as they please. */
module Session {
  import opened Prelude
  import opened CallFsm

  datatype Kind = MenuJob | ProbeJob

  datatype Tier2Error = NotImplemented | CircuitOpen | Unavailable | OtherError

  /** How a Tier 2 job ended. A menu job fills `digits` ("" if it found nothing to press),
      a probe fills `isHuman`. */
  datatype Outcome = Value(digits: string, isHuman: bool) | Raised(error: Tier2Error)

  datatype Slot = Empty | Running(kind: Kind) | Ready(kind: Kind, outcome: Outcome)

  /** How the handoff hook ended: normally, saying that it cannot happen, or in another error. */
  datatype Handoff = Started | Impossible(reason: string) | Broken

  /** The outside world during one tick: the classifier's verdict, whether the running job has
      ended by the time it is polled, how it ended, and what the handoff hook would do. */
  datatype TickInput = TickInput(
    sound: Label,
    confidence: real,
    arrived: bool,
    outcome: Outcome,
    handoff: Handoff)

  /** `inlineJobs` tells the executor that runs a job inside `submit` from the threaded one. */
  datatype SessionConfig = SessionConfig(
    fsm: FsmConfig,
    interval: real,
    menuCollect: real,
    bufferSamples: int,
    windowMs: int,
    inlineJobs: bool)

  /** One look of the classifier at the audio, and what it made of it. */
  datatype Look = Look(t: real, sound: Label, confidence: real, window: seq<int>)

  datatype Note =
    // telemetry
    | FrameClassified(look: Look)
    | StateChanged(t: real, frm: CallState, to: CallState)
    | Tier2Woken(t: real, kind: Kind)
    | DtmfSent(t: real, digits: string)
    | ProbeResult(t: real, isHuman: bool)
    | HumanWasDetected(t: real)
    | BridgeStarted(t: real)
    | CallCompleted(t: real)
    | CallFailed(t: real, reason: string)
    // what the outside saw or did
    | HookBridge(handoff: Handoff)
    | HookFail(reason: string)
    | MenuAbstained
    | JobAnswered(readAs: Kind, submittedAs: Kind)
    | JobDropped

  /** Everything a call emitted or did, oldest first. */
  datatype Log = Start | After(before: Log, note: Note)

  datatype Session = Session(
    samples: nat,
    next: real,
    finished: bool,
    wakeDue: Option<real>,
    kind: Option<Kind>,
    slot: Slot,
    fsm: Fsm,
    data: seq<int>,
    log: Log)

  const OPENED := Session(0, 0.0, false, None, None, Empty, FRESH, [], Start)

  // ---- reading the log ----

  /** The classified frames. */
  function Frames(log: Log): seq<Look> {
    match log
    case Start => []
    case After(before, FrameClassified(look)) => Frames(before) + [look]
    case After(before, _) => Frames(before)
  }

  predicate SessionEdge(from: CallState, to: CallState) {
    match from
    case Dialing => to.IvrMenu? || to.OnHold? || to.Failed?
    case IvrMenu => to.OnHold? || to.Failed?
    case OnHold => to.IvrMenu? || to.EvaluatingSpeech? || to.Failed?
    case EvaluatingSpeech => to.OnHold? || to.HumanDetected? || to.Failed?
    case HumanDetected => to.Bridging?
    case Bridging => to.Done?
    case _ => false
  }

  /** The reported state changes, replayed: None once one of them does not start where the
      last one ended, or is no edge of the machine. */
  function Replay(log: Log): Option<CallState> {
    match log
    case Start => Some(Dialing)
    case After(before, StateChanged(_, frm, to)) =>
      if Replay(before) == Some(frm) && SessionEdge(frm, to) then Some(to) else None
    case After(before, _) => Replay(before)
  }

  /** How often a menu was entered, and how often keys were pressed. */
  function Keys(log: Log): (nat, nat) {
    match log
    case Start => (0, 0)
    case After(before, StateChanged(_, _, IvrMenu)) => (Keys(before).0 + 1, Keys(before).1)
    case After(before, DtmfSent(_, _)) => (Keys(before).0, Keys(before).1 + 1)
    case After(before, _) => Keys(before)
  }

  /** Tier 2 jobs started, answers read, and answers lost or read as the wrong kind. */
  function Jobs(log: Log): (nat, nat, nat) {
    match log
    case Start => (0, 0, 0)
    case After(before, Tier2Woken(_, _)) => (Jobs(before).0 + 1, Jobs(before).1, Jobs(before).2)
    case After(before, JobAnswered(a, b)) =>
      (Jobs(before).0, Jobs(before).1 + 1, if a == b then Jobs(before).2 else Jobs(before).2 + 1)
    case After(before, JobDropped) => (Jobs(before).0, Jobs(before).1, Jobs(before).2 + 1)
    case After(before, _) => Jobs(before)
  }

  datatype Ending = Ending(completed: nat, failed: nat, bridged: nat, hooks: nat, late: nat)

  /** How the call ended: completions and failures reported, handoffs that began, failure hooks
      called, and frames classified after the end. */
  function EndOf(log: Log): Ending {
    match log
    case Start => Ending(0, 0, 0, 0, 0)
    case After(before, CallCompleted(_)) => EndOf(before).(completed := EndOf(before).completed + 1)
    case After(before, CallFailed(_, _)) => EndOf(before).(failed := EndOf(before).failed + 1)
    case After(before, HookBridge(Started)) => EndOf(before).(bridged := EndOf(before).bridged + 1)
    case After(before, HookFail(_)) => EndOf(before).(hooks := EndOf(before).hooks + 1)
    case After(before, FrameClassified(_)) =>
      var e := EndOf(before);
      e.(late := if e.completed + e.failed > 0 then e.late + 1 else e.late)
    case After(before, _) => EndOf(before)
  }

  // ---- one function per operation ----

  /** The audio side of a session, which only the clock and the buffer touch. */
  function AudioSide(s: Session): (nat, real, seq<int>, seq<Look>) {
    (s.samples, s.next, s.data, Frames(s.log))
  }

  function Emitted(s: Session, n: Note): (r: Session)
    ensures AudioSide(r) ==
            if n.FrameClassified? then (s.samples, s.next, s.data, Frames(s.log) + [n.look]) else AudioSide(s)
  {
    s.(log := After(s.log, n))
  }

  function ChangeEmitted(s: Session, before: CallState, now: real): (r: Session)
    ensures AudioSide(r) == AudioSide(s)
  {
    if s.fsm.state != before then Emitted(s, StateChanged(now, before, s.fsm.state)) else s
  }

  function FailedWith(s: Session, now: real, reason: string): (r: Session)
    ensures AudioSide(r) == AudioSide(s)
  {
    Emitted(Emitted(s, CallFailed(now, reason)).(finished := true), HookFail(reason))
  }

  function BridgedOver(s: Session, now: real, handoff: Handoff): (r: Session)
    ensures AudioSide(r) == AudioSide(s)
  {
    var s1 := Emitted(Emitted(s, HumanWasDetected(now)), HookBridge(handoff));
    match handoff
    case Impossible(reason) => FailedWith(s1, now, reason)
    case Broken => FailedWith(s1, now, "handoff_error")
    case Started =>
      var s2 := ChangeEmitted(s1.(fsm := BridgeNoted(s1.fsm)), s1.fsm.state, now);
      var s3 := Emitted(s2, BridgeStarted(now));
      var s4 := ChangeEmitted(s3.(fsm := s3.fsm.(state := Done)), s3.fsm.state, now);
      Emitted(s4, CallCompleted(now)).(finished := true)
  }

  function Submitted(cfg: SessionConfig, s: Session, kind: Kind, outcome: Outcome): (r: Session)
    ensures AudioSide(r) == AudioSide(s)
  {
    var s1 := if s.slot.Running? && !cfg.inlineJobs then Emitted(s, JobDropped) else s;
    s1.(slot := if cfg.inlineJobs then Ready(kind, outcome) else Running(kind))
  }

  function JobStarted(cfg: SessionConfig, s: Session, kind: Kind, now: real, outcome: Outcome): (r: Session)
    ensures AudioSide(r) == AudioSide(s)
  {
    Submitted(cfg, Emitted(s, Tier2Woken(now, kind)).(kind := Some(kind)), kind, outcome)
  }

  function Dispatched(cfg: SessionConfig, s: Session, asks: Action, now: real, inp: TickInput): (r: Session)
    ensures AudioSide(r) == AudioSide(s)
  {
    match asks
    case NoAction => s
    case WakeTier2Menu => s.(wakeDue := Some(now + cfg.menuCollect))
    case WakeTier2Probe => if s.kind.None? then JobStarted(cfg, s, ProbeJob, now, inp.outcome) else s
    case Bridge => BridgedOver(s, now, inp.handoff)
    case Fail => FailedWith(s, now, "non_connect")
  }

  function WakeFired(cfg: SessionConfig, s: Session, now: real, inp: TickInput): (r: Session)
    ensures AudioSide(r) == AudioSide(s)
  {
    if s.wakeDue.None? || now < s.wakeDue.value then s
    else
      var s1 := s.(wakeDue := None);
      if s1.fsm.state.IvrMenu? && s1.kind.None? then JobStarted(cfg, s1, MenuJob, now, inp.outcome) else s1
  }

  /** The fallback reason for an error that ends the call; a menu that cannot be read does not. */
  function FatalReason(kind: Kind, error: Tier2Error): Option<string> {
    match error
    case NotImplemented => Some("tier2_not_implemented")
    case CircuitOpen => Some("tier2_unavailable")
    case Unavailable => if kind.ProbeJob? then Some("tier2_unavailable") else None
    case OtherError => if kind.ProbeJob? then Some("tier2_error") else None
  }

  function MenuApplied(cfg: SessionConfig, s: Session, digits: string, now: real): (r: Session)
    ensures AudioSide(r) == AudioSide(s)
  {
    if digits == "" then Emitted(s, MenuAbstained).(fsm := MenuAbstainNoted(s.fsm))
    else Emitted(s, DtmfSent(now, digits)).(fsm := MenuActionNoted(cfg.fsm, s.fsm, now))
  }

  function ProbeApplied(cfg: SessionConfig, s: Session, isHuman: bool, now: real, inp: TickInput): (r: Session)
    ensures AudioSide(r) == AudioSide(s)
  {
    var s1 := Emitted(s, ProbeResult(now, isHuman));
    var (fsm, asks) := ProbeAnswered(cfg.fsm, s1.fsm, isHuman, now);
    Dispatched(cfg, ChangeEmitted(s1.(fsm := fsm), s1.fsm.state, now), asks, now, inp)
  }

  /** What the slot holds when it is polled. */
  function Polling(slot: Slot, inp: TickInput): Slot {
    if slot.Running? && inp.arrived then Ready(slot.kind, inp.outcome) else slot
  }

  function Answered(cfg: SessionConfig, s: Session, readAs: Kind, submittedAs: Kind, outcome: Outcome, now: real,
                    inp: TickInput): (r: Session)
    ensures AudioSide(r) == AudioSide(s)
  {
    var s1 := Emitted(s.(slot := Empty, kind := None), JobAnswered(readAs, submittedAs));
    match outcome
    case Raised(error) =>
      var reason := FatalReason(readAs, error);
      if reason.Some? then FailedWith(s1, now, reason.value) else s1
    case Value(digits, isHuman) =>
      if readAs.MenuJob? then MenuApplied(cfg, s1, digits, now) else ProbeApplied(cfg, s1, isHuman, now, inp)
  }

  function Polled(cfg: SessionConfig, s: Session, now: real, inp: TickInput): (r: Session)
    ensures AudioSide(r) == AudioSide(s)
  {
    var slot := Polling(s.slot, inp);
    if s.kind.Some? && slot.Ready? then Answered(cfg, s, s.kind.value, slot.kind, slot.outcome, now, inp) else s
  }

  /** Everything a tick does once the machine has observed the frame. */
  function Acted(cfg: SessionConfig, s: Session, asks: Action, now: real, inp: TickInput): (r: Session)
    ensures AudioSide(r) == AudioSide(s)
  {
    Polled(cfg, WakeFired(cfg, Dispatched(cfg, s, asks, now, inp), now, inp), now, inp)
  }

  function LookAt(cfg: SessionConfig, s: Session, now: real, inp: TickInput): Look {
    Look(now, inp.sound, inp.confidence, Tail(cfg, s))
  }

  function Classified(cfg: SessionConfig, s: Session, fsm: Fsm, now: real, inp: TickInput): (r: Session)
    ensures AudioSide(r) == (s.samples, s.next, s.data, Frames(s.log) + [LookAt(cfg, s, now, inp)])
  {
    ChangeEmitted(Emitted(s, FrameClassified(LookAt(cfg, s, now, inp))).(fsm := fsm), s.fsm.state, now)
  }

  function Ticked(cfg: SessionConfig, s: Session, now: real, inp: TickInput): (r: Session)
    ensures AudioSide(r) == (s.samples, s.next, s.data, Frames(s.log) + [LookAt(cfg, s, now, inp)])
  {
    var (fsm, asks) := Observed(cfg.fsm, s.fsm, inp.sound, inp.confidence, now);
    Acted(cfg, Classified(cfg, s, fsm, now, inp), asks, now, inp)
  }

  // ---- the audio clock and the buffer ----

  function Audio(s: Session): real { s.samples as real / 8000.0 }

  /** The slice `a[-n:]`: the last n samples, except that n = 0 keeps everything and a
      negative n drops from the front. */
  function Suffix(a: seq<int>, n: int): seq<int> {
    if n > 0 then (if |a| > n then a[|a| - n..] else a)
    else if -n <= |a| then a[-n..]
    else []
  }

  function Tail(cfg: SessionConfig, s: Session): seq<int> { Suffix(s.data, 8 * cfg.windowMs) }

  /** How far the clock may still be behind when a feed reaches its k-th tick. */
  function Slack(cfg: SessionConfig, k: nat): real
    requires k <= 4
  {
    match k
    case 0 => 3.0 * cfg.interval
    case 1 => 2.0 * cfg.interval
    case 2 => cfg.interval
    case 3 => 0.0
    case _ => -cfg.interval
  }

  /** One turn of the feed's loop. */
  function Advanced(cfg: SessionConfig, s: Session, inp: TickInput): (r: Session)
    ensures AudioSide(r) == (s.samples, s.next + cfg.interval, s.data, Frames(s.log) + [LookAt(cfg, s, s.next, inp)])
  {
    Ticked(cfg, s, s.next, inp).(next := s.next + cfg.interval)
  }

  function Ticks(cfg: SessionConfig, s: Session, inputs: nat -> TickInput, k: nat): Session
    requires cfg.interval > 0.0 && k <= 4 && Audio(s) - s.next <= Slack(cfg, k)
    decreases 4 - k
  {
    if Audio(s) < s.next then s
    else
      var s1 := Advanced(cfg, s, inputs(k));
      if s1.finished then s1 else Ticks(cfg, s1, inputs, k + 1)
  }

  /** One turn of the feed's loop, if one is due. */
  lemma OneTick(cfg: SessionConfig, s: Session, inputs: nat -> TickInput, k: nat)
    requires cfg.interval > 0.0 && k <= 4 && Audio(s) - s.next <= Slack(cfg, k) && Audio(s) >= s.next
    ensures k < 4
    ensures var s1 := Advanced(cfg, s, inputs(k));
            && Audio(s1) - s1.next <= Slack(cfg, k + 1)
            && Ticks(cfg, s, inputs, k) == if s1.finished then s1 else Ticks(cfg, s1, inputs, k + 1)
  {
  }

  function CaughtUp(cfg: SessionConfig, s: Session): Session {
    if Audio(s) - s.next > 3.0 * cfg.interval then s.(next := Audio(s) - cfg.interval) else s
  }

  function Received(cfg: SessionConfig, s: Session, pcm: seq<int>): Session {
    s.(data := Suffix(s.data + pcm, cfg.bufferSamples), samples := s.samples + |pcm|)
  }

  function Fed(cfg: SessionConfig, s: Session, pcm: seq<int>, inputs: nat -> TickInput): Session
    requires cfg.interval > 0.0
  {
    if s.finished then s else Ticks(cfg, CaughtUp(cfg, Received(cfg, s, pcm)), inputs, 0)
  }

  function Aborted(s: Session, reason: string): Session {
    if s.finished then s else FailedWith(s, Audio(s), reason)
  }

  // ---- runs ----

  datatype Event = Feed(pcm: seq<int>, inputs: nat -> TickInput) | Abort(reason: string)

  function Next(cfg: SessionConfig, s: Session, e: Event): Session
    requires cfg.interval > 0.0
  {
    match e
    case Feed(pcm, inputs) => Fed(cfg, s, pcm, inputs)
    case Abort(reason) => Aborted(s, reason)
  }

  function Played(cfg: SessionConfig, es: seq<Event>): Session
    requires cfg.interval > 0.0
  {
    if es == [] then OPENED else Next(cfg, Played(cfg, es[..|es| - 1]), es[|es| - 1])
  }
}
