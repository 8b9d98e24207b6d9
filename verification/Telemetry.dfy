/** The two ends of the telemetry pipeline: the sink that queues, batches and sends, and the
    worker that receives, stores and deletes. The queue service and the store answer as they
    please. */
module Telemetry {
  import opened Prelude

  /** A message body: the JSON of an event, known by a number, or something that is not JSON. */
  datatype Body = Json(event: nat) | Junk(text: nat)

  // ---- the sink ----

  const BATCH_MAX := 10

  /** `batchSize` is the size asked for; the service takes at most ten. */
  datatype SinkConfig = SinkConfig(maxQueue: int, batchSize: int, sendRetries: int)

  datatype Sink = Sink(queue: seq<Body>, droppedOverflow: nat, droppedSend: nat, sent: int)

  const NOTHING_YET := Sink([], 0, 0, 0)

  datatype Entry = Entry(id: nat, body: Body)

  /** What one send call does: raise, after delivering some entries anyway, or answer with the
      ids that failed. */
  datatype Response = RaisedAfter(delivered: set<nat>) | Replied(failed: set<nat>)

  /** A queue with a limit of zero or less is unbounded. */
  predicate IsFull(cfg: SinkConfig, queue: seq<Body>) { cfg.maxQueue > 0 && |queue| >= cfg.maxQueue }

  /** An event that cannot be serialised has no body and leaves no trace. */
  function Queued(cfg: SinkConfig, s: Sink, body: Option<Body>): Sink {
    match body
    case None => s
    case Some(b) => if IsFull(cfg, s.queue) then s.(droppedOverflow := s.droppedOverflow + 1)
                    else s.(queue := s.queue + [b])
  }

  /** How much one batch may hold: the first message is taken before the size is looked at. */
  function BatchLimit(cfg: SinkConfig): nat {
    var size := if cfg.batchSize < BATCH_MAX then cfg.batchSize else BATCH_MAX;
    if size < 1 then 1 else size
  }

  function Numbered(bodies: seq<Body>): (r: seq<Entry>)
    ensures |r| == |bodies| && forall i :: 0 <= i < |r| ==> r[i] == Entry(i, bodies[i])
  {
    if bodies == [] then []
    else Numbered(bodies[..|bodies| - 1]) + [Entry(|bodies| - 1, bodies[|bodies| - 1])]
  }

  function Only(entries: seq<Entry>, ids: set<nat>): (r: seq<Entry>)
    ensures |r| <= |entries|
  {
    if entries == [] then []
    else
      var rest := Only(entries[..|entries| - 1], ids);
      if entries[|entries| - 1].id in ids then rest + [entries[|entries| - 1]] else rest
  }

  /** One send call: how many entries now count as sent, and which are still in hand. */
  function Tried(entries: seq<Entry>, response: Response): (int, seq<Entry>) {
    match response
    case RaisedAfter(_) => (0, entries)
    case Replied(failed) => (|entries| - |failed|, Only(entries, failed))
  }

  /** Sending entries from the given attempt on: how many count as sent, and which are given up. */
  function Sending(cfg: SinkConfig, entries: seq<Entry>, attempt: nat, service: nat -> Response): (int, seq<Entry>)
    decreases cfg.sendRetries - attempt
  {
    if attempt > cfg.sendRetries then (0, entries)
    else
      var (now, rest) := Tried(entries, service(attempt));
      if service(attempt) == Replied({}) then (now, [])
      else
        var (later, lost) := Sending(cfg, rest, attempt + 1, service);
        (now + later, lost)
  }

  function Ids(entries: seq<Entry>): set<nat> {
    if entries == [] then {} else Ids(entries[..|entries| - 1]) + {entries[|entries| - 1].id}
  }

  predicate Distinct(entries: seq<Entry>) {
    entries == [] ||
    (Distinct(entries[..|entries| - 1]) && entries[|entries| - 1].id !in Ids(entries[..|entries| - 1]))
  }

  lemma {:induction false} NumbersAreDistinct(bodies: seq<Body>)
    ensures Distinct(Numbered(bodies)) && forall i :: i in Ids(Numbered(bodies)) ==> i < |bodies|
  {
    if bodies != [] {
      NumbersAreDistinct(bodies[..|bodies| - 1]);
      assert Numbered(bodies)[..|bodies| - 1] == Numbered(bodies[..|bodies| - 1]);
    }
  }

  lemma {:induction false} OnlyKeeps(entries: seq<Entry>, ids: set<nat>)
    requires Distinct(entries)
    ensures Distinct(Only(entries, ids)) && Ids(Only(entries, ids)) == Ids(entries) * ids
    ensures |Only(entries, ids)| == |Ids(entries) * ids|
  {
    if entries != [] {
      var front, last := entries[..|entries| - 1], entries[|entries| - 1];
      var kept := Only(front, ids);
      OnlyKeeps(front, ids);
      assert (kept + [last])[..|kept|] == kept;
      assert Ids(entries) * ids == if last.id in ids then Ids(front) * ids + {last.id} else Ids(front) * ids;
    }
  }

  /** One answer conserves the batch, sent plus kept being what there was, exactly when the
      service names no id that was not sent to it. */
  lemma AnswerConservesExactlyWhenItNamesItsOwn(entries: seq<Entry>, failed: set<nat>)
    requires Distinct(entries)
    ensures (|entries| - |failed|) + |Only(entries, failed)| == |entries| <==> failed <= Ids(entries)
  {
    OnlyKeeps(entries, failed);
    var strange := failed - Ids(entries);
    assert failed == Ids(entries) * failed + strange;
    assert |failed| == |Ids(entries) * failed| + |strange|;
    assert |strange| == 0 <==> strange == {};
    assert strange == {} <==> failed <= Ids(entries);
  }

  /** The service speaks only of entries it was sent. */
  predicate NamesItsOwn(cfg: SinkConfig, entries: seq<Entry>, attempt: nat, service: nat -> Response)
    decreases cfg.sendRetries - attempt
  {
    attempt <= cfg.sendRetries ==>
      match service(attempt)
      case RaisedAfter(delivered) => delivered <= Ids(entries) && NamesItsOwn(cfg, entries, attempt + 1, service)
      case Replied(failed) => failed <= Ids(entries) && NamesItsOwn(cfg, Only(entries, failed), attempt + 1, service)
  }

  /** Whatever raises and fails on the way, each entry ends up sent or given up. */
  lemma {:induction false} SendingConserves(
      cfg: SinkConfig, entries: seq<Entry>, attempt: nat, service: nat -> Response)
    requires Distinct(entries) && NamesItsOwn(cfg, entries, attempt, service)
    ensures var (sent, lost) := Sending(cfg, entries, attempt, service);
            sent + |lost| == |entries| && sent >= 0
    decreases cfg.sendRetries - attempt
  {
    if attempt <= cfg.sendRetries {
      match service(attempt) {
        case RaisedAfter(_) => SendingConserves(cfg, entries, attempt + 1, service);
        case Replied(failed) =>
          OnlyKeeps(entries, failed);
          assert Ids(entries) * failed == failed;
          SendingConserves(cfg, Only(entries, failed), attempt + 1, service);
      }
    }
  }

  /** The entry was never accepted: each attempt from this one on raised or named it. */
  ghost predicate NeverAccepted(cfg: SinkConfig, id: nat, attempt: nat, service: nat -> Response) {
    forall k: nat :: attempt <= k <= cfg.sendRetries ==>
      match service(k)
      case RaisedAfter(_) => true
      case Replied(failed) => id in failed
  }

  lemma {:induction false} OnlyHas(entries: seq<Entry>, ids: set<nat>, x: Entry)
    ensures x in Only(entries, ids) <==> x in entries && x.id in ids
  {
    if entries != [] {
      OnlyHas(entries[..|entries| - 1], ids, x);
      assert entries == entries[..|entries| - 1] + [entries[|entries| - 1]];
    }
  }

  /** An entry is given up if and only if none of the attempts there are, from this one to the last
      retry, accepted it. */
  lemma {:induction false} GivenUpExactlyWhenNeverAccepted(
      cfg: SinkConfig, entries: seq<Entry>, attempt: nat, service: nat -> Response, x: Entry)
    ensures x in Sending(cfg, entries, attempt, service).1 <==>
            x in entries && NeverAccepted(cfg, x.id, attempt, service)
    decreases cfg.sendRetries - attempt
  {
    if attempt <= cfg.sendRetries {
      var rest := Tried(entries, service(attempt)).1;
      NeverAcceptedFrom(cfg, x.id, attempt, service);
      if service(attempt).Replied? { OnlyHas(entries, service(attempt).failed, x); }
      GivenUpExactlyWhenNeverAccepted(cfg, rest, attempt + 1, service, x);
    }
  }

  lemma NeverAcceptedFrom(cfg: SinkConfig, id: nat, attempt: nat, service: nat -> Response)
    requires attempt <= cfg.sendRetries
    ensures NeverAccepted(cfg, id, attempt, service) <==>
            && (service(attempt).RaisedAfter? || id in service(attempt).failed)
            && NeverAccepted(cfg, id, attempt + 1, service)
  {
    var refused := service(attempt).RaisedAfter? || id in service(attempt).failed;
    if NeverAccepted(cfg, id, attempt + 1, service) && refused {
      forall k: nat | attempt <= k <= cfg.sendRetries
        ensures service(k).RaisedAfter? || id in service(k).failed
      {
        if k > attempt { assert attempt + 1 <= k; }
      }
    }
  }

  /** The books of the sink after sending, from the given attempt on. */
  function Settled(cfg: SinkConfig, s: Sink, entries: seq<Entry>, attempt: nat, service: nat -> Response): Sink {
    var (sent, lost) := Sending(cfg, entries, attempt, service);
    s.(sent := s.sent + sent, droppedSend := s.droppedSend + |lost|)
  }

  /** What the next batch takes from the queue. */
  function Front(cfg: SinkConfig, queue: seq<Body>): (r: seq<Body>)
    ensures r == [] <==> queue == []
    ensures |r| <= |queue|
  {
    if |queue| < BatchLimit(cfg) then queue else queue[..BatchLimit(cfg)]
  }

  /** A batch is as long as it was asked to be, but never empty and never more than ten, or it is all
      there is; and it is the front of the queue. */
  lemma BatchIsTheFront(cfg: SinkConfig, queue: seq<Body>)
    ensures var size := if cfg.batchSize < 1 then 1 else if cfg.batchSize > 10 then 10 else cfg.batchSize;
            Front(cfg, queue) == if |queue| > size then queue[..size] else queue
  {
  }

  /** The sink after draining; `service(k)` answers for the k-th batch. */
  function Emptied(cfg: SinkConfig, s: Sink, k: nat, service: nat -> nat -> Response): Sink
    decreases |s.queue|
  {
    if s.queue == [] then s
    else
      var batch := Front(cfg, s.queue);
      Emptied(cfg, Settled(cfg, s.(queue := s.queue[|batch|..]), Numbered(batch), 1, service(k)), k + 1, service)
  }

  predicate NamesItsOwnThroughout(cfg: SinkConfig, queue: seq<Body>, k: nat, service: nat -> nat -> Response)
    decreases |queue|
  {
    queue == [] ||
    var batch := Front(cfg, queue);
    NamesItsOwn(cfg, Numbered(batch), 1, service(k)) &&
    NamesItsOwnThroughout(cfg, queue[|batch|..], k + 1, service)
  }

  /** Draining loses nothing: whatever fails and is sent again, all that was queued ends up sent
      or given up, and counted. */
  lemma {:induction false} DrainingConserves(cfg: SinkConfig, s: Sink, k: nat, service: nat -> nat -> Response)
    requires NamesItsOwnThroughout(cfg, s.queue, k, service)
    ensures var r := Emptied(cfg, s, k, service);
            && r.queue == [] && r.droppedOverflow == s.droppedOverflow
            && r.sent + r.droppedSend == s.sent + s.droppedSend + |s.queue|
    decreases |s.queue|
  {
    if s.queue != [] {
      var batch := Front(cfg, s.queue);
      var s1 := Settled(cfg, s.(queue := s.queue[|batch|..]), Numbered(batch), 1, service(k));
      NumbersAreDistinct(batch);
      SendingConserves(cfg, Numbered(batch), 1, service(k));
      assert s1.sent + s1.droppedSend == s.sent + s.droppedSend + |batch|;
      DrainingConserves(cfg, s1, k + 1, service);
    }
  }

  class SqsSink {
    const cfg: SinkConfig
    var queue: seq<Body>
    var droppedOverflow: nat
    var droppedSend: nat
    var sent: int

    ghost function View(): Sink
      reads this
    {
      Sink(queue, droppedOverflow, droppedSend, sent)
    }

    constructor (cfg: SinkConfig)
      ensures this.cfg == cfg && View() == NOTHING_YET
    {
      this.cfg := cfg;
      queue, droppedOverflow, droppedSend, sent := [], 0, 0, 0;
    }

    method Emit(body: Option<Body>)
      modifies this
      ensures View() == Queued(cfg, old(View()), body)
      ensures body == None ==> View() == old(View())
    {
      if body == None {
        return;
      }
      if IsFull(cfg, queue) {
        droppedOverflow := droppedOverflow + 1;
      } else {
        queue := queue + [body.value];
      }
    }

    method NextBatch() returns (out: seq<Body>)
      modifies this`queue
      ensures out + queue == old(queue)
      ensures |out| == if |old(queue)| < BatchLimit(cfg) then |old(queue)| else BatchLimit(cfg)
    {
      out := [];
      if queue == [] {
        return;
      }
      out, queue := [queue[0]], queue[1..];
      var size := if cfg.batchSize < BATCH_MAX then cfg.batchSize else BATCH_MAX;
      while |out| < size && queue != []
        invariant out + queue == old(queue)
        invariant 1 <= |out| <= BatchLimit(cfg)
        decreases |queue|
      {
        out, queue := out + [queue[0]], queue[1..];
      }
    }

    method Send(bodies: seq<Body>, service: nat -> Response)
      modifies this
      ensures View() == Settled(cfg, old(View()), Numbered(bodies), 1, service)
    {
      var entries := Numbered(bodies);
      ghost var outcome := Sending(cfg, entries, 1, service);
      var attempt := 1;
      while attempt <= cfg.sendRetries
        invariant attempt >= 1
        invariant unchanged(this`queue) && unchanged(this`droppedOverflow) && unchanged(this`droppedSend)
        invariant var (later, lost) := Sending(cfg, entries, attempt, service);
                  outcome == (sent - old(sent) + later, lost)
        decreases cfg.sendRetries - attempt
      {
        match service(attempt) {
          case RaisedAfter(_) =>
          case Replied(failed) =>
            sent := sent + |entries| - |failed|;
            if failed == {} {
              return;
            }
            entries := Only(entries, failed);
        }
        attempt := attempt + 1;
      }
      droppedSend := droppedSend + |entries|;
    }

    /** The final drain: batches are taken and sent until the queue is empty. */
    method Drain(service: nat -> nat -> Response)
      modifies this
      ensures View() == Emptied(cfg, old(View()), 0, service)
    {
      ghost var outcome := Emptied(cfg, View(), 0, service);
      var k := 0;
      while true
        invariant outcome == Emptied(cfg, View(), k, service)
        decreases |queue|
      {
        ghost var before := View();
        var batch := NextBatch();
        if batch == [] {
          break;
        }
        assert batch == Front(cfg, before.queue) && queue == before.queue[|batch|..];
        Send(batch, service(k));
        k := k + 1;
      }
    }
  }

  // ---- the worker ----

  const RECEIVE_MAX := 10

  /** A message without a body counts as unparseable. */
  datatype Message = Message(id: nat, receipt: nat, body: Option<Body>)

  predicate Parses(m: Message) { m.body.Some? && m.body.value.Json? }

  function EventsOf(messages: seq<Message>): seq<nat> {
    if messages == [] then []
    else
      var last := messages[|messages| - 1];
      var rest := EventsOf(messages[..|messages| - 1]);
      if Parses(last) then rest + [last.body.value.event] else rest
  }

  /** The messages that parse, or those that do not, in order. */
  function Sorted(messages: seq<Message>, parsing: bool): seq<Message> {
    if messages == [] then []
    else
      var last := messages[|messages| - 1];
      var rest := Sorted(messages[..|messages| - 1], parsing);
      if Parses(last) == parsing then rest + [last] else rest
  }

  /** What is deleted after a round: everything if the events were stored, or if there were none;
      else only what could never be. */
  function Acknowledged(messages: seq<Message>, storeOk: bool): seq<Message> {
    (if storeOk then Sorted(messages, true) else []) + Sorted(messages, false)
  }

  /** One poll: what was received, and whether the store accepts the events of it. */
  datatype Poll = Poll(messages: seq<Message>, storeOk: bool)

  class TelemetryWorker {
    /** What the store has accepted, and what was deleted, in order. */
    var stored: seq<nat>
    var deleted: seq<Message>

    constructor ()
      ensures stored == [] && deleted == []
    {
      stored, deleted := [], [];
    }

    /** The body of the polling loop. */
    method Round(poll: Poll)
      modifies this
      ensures stored == old(stored) + (if poll.storeOk then EventsOf(poll.messages) else [])
      ensures deleted == old(deleted) + Acknowledged(poll.messages, poll.storeOk)
    {
      var messages := poll.messages;
      if messages == [] {
        return;
      }
      var events: seq<nat>, storedReceipts: seq<Message>, poisonReceipts: seq<Message> := [], [], [];
      for i := 0 to |messages|
        invariant events == EventsOf(messages[..i])
        invariant storedReceipts == Sorted(messages[..i], true)
        invariant poisonReceipts == Sorted(messages[..i], false)
      {
        var m := messages[i];
        assert messages[..i + 1][..i] == messages[..i];
        if Parses(m) {
          events := events + [m.body.value.event];
          storedReceipts := storedReceipts + [m];
        } else {
          poisonReceipts := poisonReceipts + [m];
        }
      }
      assert messages[..|messages|] == messages;
      EventsAreThoseSorted(messages);
      if events != [] {
        if poll.storeOk {
          stored := stored + events;
        } else {
          storedReceipts := [];
        }
      }
      var toDelete := storedReceipts + poisonReceipts;
      if toDelete != [] {
        deleted := deleted + toDelete;
      }
    }

    /** `run`, over the polls it gets to make before it is stopped. */
    method Run(polls: seq<Poll>)
      modifies this
      ensures forall m :: m in deleted && m !in old(deleted) && Parses(m) ==> m.body.value.event in stored
      ensures old(stored) <= stored
    {
      for k := 0 to |polls|
        invariant old(stored) <= stored
        invariant forall m :: m in deleted && m !in old(deleted) && Parses(m) ==> m.body.value.event in stored
      {
        ghost var before := stored;
        Round(polls[k]);
        DeletedOnlyOnceStored(polls[k]);
        assert before <= stored;
      }
    }
  }

  lemma {:induction false} EventsAreThoseSorted(messages: seq<Message>)
    ensures |EventsOf(messages)| == |Sorted(messages, true)|
  {
    if messages != [] {
      EventsAreThoseSorted(messages[..|messages| - 1]);
    }
  }

  /** A message that is deleted is unparseable, or its event has been stored. */
  lemma {:induction false} DeletedOnlyOnceStored(poll: Poll)
    ensures forall m :: m in Acknowledged(poll.messages, poll.storeOk) && Parses(m) ==>
                          poll.storeOk && m.body.value.event in EventsOf(poll.messages)
    decreases |poll.messages|
  {
    if poll.messages != [] {
      DeletedOnlyOnceStored(poll.(messages := poll.messages[..|poll.messages| - 1]));
    }
  }

  /** What a round deletes: every message that is no event, and, if the store accepted the events, all
      the others too. */
  lemma {:induction false} DeletedExactlyWhenSettled(messages: seq<Message>, storeOk: bool, m: Message)
    ensures m in Acknowledged(messages, storeOk) <==>
            m in messages && (storeOk || !(m.body.Some? && m.body.value.Json?))
    decreases |messages|
  {
    if messages != [] {
      DeletedExactlyWhenSettled(messages[..|messages| - 1], storeOk, m);
      assert messages == messages[..|messages| - 1] + [messages[|messages| - 1]];
    }
  }

  /** What a round stores: the events of the messages, in their order. */
  lemma {:induction false} StoredInOrder(messages: seq<Message>, m: Message)
    ensures EventsOf([]) == []
    ensures EventsOf(messages + [m]) ==
            EventsOf(messages) + match m.body
                                 case Some(Json(event)) => [event]
                                 case _ => []
  {
    assert (messages + [m])[..|messages|] == messages;
  }
}
