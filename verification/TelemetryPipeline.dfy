/** The whole pipeline as one system of atomic steps: callers emitting, the pump, the queue
    service, the worker, the store. Its steps interleave in any order. */
module TelemetryPipeline {
  import opened Prelude
  import opened Telemetry

  datatype Pump = Collecting | Attempting(attempt: nat)

  datatype Worker = Polling | Received(messages: seq<Message>) | Deleting(receipts: seq<Message>)

  /** The sink's own fields, then where every body is. The last five are outside the process:
      the queue service with its dead-letter queue and what was deleted from it, and the store. */
  datatype Pipeline = Pipeline(
    sink: Sink,
    pump: Pump,
    hand: seq<Entry>,
    emitted: multiset<Body>,
    overflowed: multiset<Body>,
    acked: multiset<Body>,
    abandoned: multiset<Body>,
    worker: Worker,
    sqs: multiset<Body>,
    parked: multiset<Body>,
    deleted: multiset<Body>,
    store: multiset<nat>)

  const EMPTY := Pipeline(NOTHING_YET, Collecting, [], multiset{}, multiset{}, multiset{}, multiset{},
                          Polling, multiset{}, multiset{}, multiset{}, multiset{})

  datatype Event =
    | Emit(serialised: Option<Body>)
    | Take                                   // the pump moves one body from the queue to its batch
    | Ship                                   // the batch is complete
    | Attempt(response: Response)            // one send call
    | GiveUp                                 // the retries are used up
    | Foreign(body: Body)                    // somebody else's message
    | Receive(messages: seq<Message>)
    | Store(ok: bool, partly: multiset<nat>) // a failing store may have taken some events
    | Delete(done: multiset<Body>)           // the service deletes some of what it is asked to
    | WorkerDies                             // an exception outside the worker's own handlers
    | Park(body: Body)                       // received too often: to the dead-letter queue

  function BodiesOf(entries: seq<Entry>): multiset<Body> {
    if entries == [] then multiset{}
    else BodiesOf(entries[..|entries| - 1]) + multiset{entries[|entries| - 1].body}
  }

  function BodiesIn(messages: seq<Message>): multiset<Body> {
    if messages == [] then multiset{}
    else
      var last := messages[|messages| - 1];
      BodiesIn(messages[..|messages| - 1]) + (if last.body.Some? then multiset{last.body.value} else multiset{})
  }

  /** The entries the ids do not name. */
  function Except(entries: seq<Entry>, ids: set<nat>): seq<Entry> {
    if entries == [] then []
    else
      var rest := Except(entries[..|entries| - 1], ids);
      if entries[|entries| - 1].id in ids then rest else rest + [entries[|entries| - 1]]
  }

  // ---- the steps ----

  predicate Enabled(cfg: SinkConfig, p: Pipeline, e: Event) {
    match e
    case Emit(body) => body.Some? ==> body.value.Json?
    case Take => p.pump.Collecting? && p.sink.queue != [] && |p.hand| < BatchLimit(cfg)
    case Ship => p.pump.Collecting? && p.hand != []
    case Attempt(response) =>
      && p.pump.Attempting? && p.pump.attempt <= cfg.sendRetries
      && (match response
          case RaisedAfter(delivered) => delivered <= Ids(p.hand)
          case Replied(failed) => failed <= Ids(p.hand))
    case GiveUp => p.pump.Attempting? && p.pump.attempt > cfg.sendRetries
    case Foreign(_) => true
    case Receive(messages) => p.worker.Polling? && |messages| <= RECEIVE_MAX && BodiesIn(messages) <= p.sqs
    case Store(_, partly) => p.worker.Received? && partly <= multiset(EventsOf(p.worker.messages))
    case Delete(done) => p.worker.Deleting? && done <= BodiesIn(p.worker.receipts) && done <= p.sqs
    case WorkerDies => true
    case Park(body) => body in p.sqs
  }

  function Step(cfg: SinkConfig, p: Pipeline, e: Event): Pipeline
    requires Enabled(cfg, p, e)
  {
    match e
    case Emit(None) => p
    case Emit(Some(b)) =>
      p.(sink := Queued(cfg, p.sink, Some(b)), emitted := p.emitted + multiset{b},
      overflowed := if IsFull(cfg, p.sink.queue) then p.overflowed + multiset{b} else p.overflowed)
    case Take =>
      p.(sink := p.sink.(queue := p.sink.queue[1..]), hand := p.hand + [Entry(|p.hand|, p.sink.queue[0])])
    case Ship => p.(pump := Attempting(1))
    case Attempt(RaisedAfter(delivered)) =>
      p.(pump := Attempting(p.pump.attempt + 1), sqs := p.sqs + BodiesOf(Only(p.hand, delivered)))
    case Attempt(Replied(failed)) =>
      var (now, rest) := Tried(p.hand, Replied(failed));
      var through := BodiesOf(Except(p.hand, failed));
      p.(sink := p.sink.(sent := p.sink.sent + now),
      pump := if failed == {} then Collecting else Attempting(p.pump.attempt + 1),
      hand := rest, acked := p.acked + through, sqs := p.sqs + through)
    case GiveUp =>
      p.(sink := p.sink.(droppedSend := p.sink.droppedSend + |p.hand|), pump := Collecting, hand := [],
      abandoned := p.abandoned + BodiesOf(p.hand))
    case Foreign(body) => p.(sqs := p.sqs + multiset{body})
    case Receive(messages) => p.(worker := Received(messages))
    case Store(ok, partly) =>
      var messages := p.worker.messages;
      p.(worker := Deleting(Acknowledged(messages, ok)),
      store := p.store + (if ok then multiset(EventsOf(messages)) else partly))
    case Delete(done) => p.(worker := Polling, sqs := p.sqs - done, deleted := p.deleted + done)
    case WorkerDies => p.(worker := Polling)
    case Park(body) => p.(sqs := p.sqs - multiset{body}, parked := p.parked + multiset{body})
  }

  predicate IsRun(cfg: SinkConfig, es: seq<Event>)
    decreases |es|, 0
  {
    es == [] || (IsRun(cfg, es[..|es| - 1]) && Enabled(cfg, After(cfg, es[..|es| - 1]), es[|es| - 1]))
  }

  function After(cfg: SinkConfig, es: seq<Event>): Pipeline
    requires IsRun(cfg, es)
    decreases |es|, 1
  {
    if es == [] then EMPTY else Step(cfg, After(cfg, es[..|es| - 1]), es[|es| - 1])
  }

  // ---- the queue is bounded, and nothing else is dropped at its door ----

  /** With a limit, the queue never holds more; without one, nothing is ever dropped there. */
  predicate WithinLimit(cfg: SinkConfig, p: Pipeline) {
    if cfg.maxQueue > 0 then |p.sink.queue| <= cfg.maxQueue else p.sink.droppedOverflow == 0
  }

  lemma {:induction false} QueueIsBounded(cfg: SinkConfig, es: seq<Event>)
    requires IsRun(cfg, es)
    ensures WithinLimit(cfg, After(cfg, es))
  {
    if es != [] {
      QueueIsBounded(cfg, es[..|es| - 1]);
      StepWithinLimit(cfg, After(cfg, es[..|es| - 1]), es[|es| - 1]);
    }
  }

  lemma StepWithinLimit(cfg: SinkConfig, p: Pipeline, e: Event)
    requires WithinLimit(cfg, p) && Enabled(cfg, p, e)
    ensures WithinLimit(cfg, Step(cfg, p, e))
  {
  }

  /** On every run, an emitted body is dropped if and only if there is a limit and exactly so many
      bodies are queued; in every other case it becomes the last in the queue, and nothing is counted. */
  lemma DroppedExactlyWhenFull(cfg: SinkConfig, es: seq<Event>, b: nat)
    requires IsRun(cfg, es)
    ensures var p := After(cfg, es);
            var r := Step(cfg, p, Emit(Some(Json(b))));
            var dropped := cfg.maxQueue > 0 && |p.sink.queue| == cfg.maxQueue;
            && r.sink.queue == (if dropped then p.sink.queue else p.sink.queue + [Json(b)])
            && r.sink.droppedOverflow == p.sink.droppedOverflow + (if dropped then 1 else 0)
            && (r.sink.sent, r.sink.droppedSend) == (p.sink.sent, p.sink.droppedSend)
            && r.overflowed == p.overflowed + (if dropped then multiset{Json(b)} else multiset{})
  {
    QueueIsBounded(cfg, es);
  }

  // ---- one batch, attempt after attempt ----

  /** The pump's steps from an attempt on until the batch is done with, if nobody else steps. */
  function Pumped(cfg: SinkConfig, p: Pipeline, service: nat -> Response): Pipeline
    requires p.pump.Attempting? && NamesItsOwn(cfg, p.hand, p.pump.attempt, service)
    decreases cfg.sendRetries - p.pump.attempt
  {
    var k := p.pump.attempt;
    if k > cfg.sendRetries then Step(cfg, p, GiveUp)
    else
      var p1 := Step(cfg, p, Attempt(service(k)));
      if p1.pump.Collecting? then p1 else Pumped(cfg, p1, service)
  }

  lemma {:induction false} OnlyNone(entries: seq<Entry>)
    ensures Only(entries, {}) == []
  {
    if entries != [] { OnlyNone(entries[..|entries| - 1]); }
  }

  lemma OneAttempt(cfg: SinkConfig, p: Pipeline, response: Response)
    requires Enabled(cfg, p, Attempt(response))
    ensures var p1 := Step(cfg, p, Attempt(response));
            var (now, rest) := Tried(p.hand, response);
            (p1.sink, p1.hand, p1.pump) ==
            (p.sink.(sent := p.sink.sent + now), rest,
             if response == Replied({}) then Collecting else Attempting(p.pump.attempt + 1))
  {
  }

  lemma SettledLater(cfg: SinkConfig, sink: Sink, hand: seq<Entry>, attempt: nat, service: nat -> Response)
    requires attempt <= cfg.sendRetries
    ensures var (now, rest) := Tried(hand, service(attempt));
            var sink1 := sink.(sent := sink.sent + now);
            Settled(cfg, sink, hand, attempt, service) ==
            if service(attempt) == Replied({}) then sink1 else Settled(cfg, sink1, rest, attempt + 1, service)
  {
  }

  /** The sink's `_send` is exactly those steps. */
  lemma {:induction false} SendIsItsSteps(cfg: SinkConfig, p: Pipeline, service: nat -> Response)
    requires p.pump.Attempting? && NamesItsOwn(cfg, p.hand, p.pump.attempt, service)
    ensures var r := Pumped(cfg, p, service);
            (r.sink, r.hand, r.pump) == (Settled(cfg, p.sink, p.hand, p.pump.attempt, service), [], Collecting)
    decreases cfg.sendRetries - p.pump.attempt
  {
    var k := p.pump.attempt;
    if k <= cfg.sendRetries {
      var p1 := Step(cfg, p, Attempt(service(k)));
      OneAttempt(cfg, p, service(k));
      SettledLater(cfg, p.sink, p.hand, k, service);
      if service(k) == Replied({}) {
        OnlyNone(p.hand);
        assert Pumped(cfg, p, service) == p1;
      } else {
        SendIsItsSteps(cfg, p1, service);
        assert Pumped(cfg, p, service) == Pumped(cfg, p1, service);
      }
    }
  }

  // ---- the producer's side ----

  /** Every emitted body is in exactly one place of the producer's, and its counters count them. */
  predicate ProducerConserves(p: Pipeline) { BodiesConserved(p) && CountersCount(p) && HandNumbered(p) }

  predicate BodiesConserved(p: Pipeline) {
    p.emitted == p.overflowed + multiset(p.sink.queue) + BodiesOf(p.hand) + p.acked + p.abandoned
  }

  predicate CountersCount(p: Pipeline) {
    (p.sink.droppedOverflow, p.sink.sent, p.sink.droppedSend) == (|p.overflowed|, |p.acked|, |p.abandoned|)
  }

  /** The entries in hand have different ids, those of a batch being collected the lowest. */
  predicate HandNumbered(p: Pipeline) {
    Distinct(p.hand) && (p.pump.Collecting? ==> forall i :: i in Ids(p.hand) ==> i < |p.hand|)
  }

  lemma OneMoreBody(entries: seq<Entry>, entry: Entry)
    ensures BodiesOf(entries + [entry]) == BodiesOf(entries) + multiset{entry.body}
  {
    assert (entries + [entry])[..|entries|] == entries;
  }

  lemma {:induction false} AsManyBodies(entries: seq<Entry>)
    ensures |BodiesOf(entries)| == |entries|
  {
    if entries != [] { AsManyBodies(entries[..|entries| - 1]); }
  }

  /** The named entries and the others are all the entries. */
  lemma {:induction false} Divided(entries: seq<Entry>, ids: set<nat>)
    ensures BodiesOf(entries) == BodiesOf(Only(entries, ids)) + BodiesOf(Except(entries, ids))
  {
    if entries != [] {
      var front, last := entries[..|entries| - 1], entries[|entries| - 1];
      Divided(front, ids);
      OneMoreBody(Only(front, ids), last);
      OneMoreBody(Except(front, ids), last);
    }
  }

  // The five places of a body: dropped, queued, in hand, acknowledged, given up. A body that moves
  // from one to another leaves their sum as it was.

  lemma FromQueueToHand(
      o: multiset<Body>, q: multiset<Body>, h: multiset<Body>, k: multiset<Body>, d: multiset<Body>, b: multiset<Body>)
    ensures o + (b + q) + h + k + d == o + q + (h + b) + k + d
  {
    assert o + (b + q) + h == o + q + (h + b);
  }

  lemma FromHandToGivenUp(o: multiset<Body>, q: multiset<Body>, h: multiset<Body>, k: multiset<Body>, d: multiset<Body>)
    ensures o + q + h + k + d == o + q + multiset{} + k + (d + h)
  {
    assert o + q + multiset{} == o + q;
  }

  lemma IntoQueue(
      o: multiset<Body>, q: multiset<Body>, h: multiset<Body>, k: multiset<Body>, d: multiset<Body>, b: multiset<Body>)
    ensures o + (q + b) + h + k + d == o + q + h + k + d + b
  {
    assert o + (q + b) + h == o + q + h + b;
  }

  lemma IntoOverflow(
      o: multiset<Body>, q: multiset<Body>, h: multiset<Body>, k: multiset<Body>, d: multiset<Body>, b: multiset<Body>)
    ensures o + b + q + h + k + d == o + q + h + k + d + b
  {
    assert o + b + q + h == o + q + h + b;
  }

  lemma EmitConserves(cfg: SinkConfig, p: Pipeline, b: Body)
    requires ProducerConserves(p) && Enabled(cfg, p, Emit(Some(b)))
    ensures ProducerConserves(Step(cfg, p, Emit(Some(b))))
  {
    var q, h, x := multiset(p.sink.queue), BodiesOf(p.hand), multiset{b};
    if IsFull(cfg, p.sink.queue) {
      IntoOverflow(p.overflowed, q, h, p.acked, p.abandoned, x);
    } else {
      IntoQueue(p.overflowed, q, h, p.acked, p.abandoned, x);
      assert multiset(p.sink.queue + [b]) == q + x;
    }
  }

  lemma TakeConserves(cfg: SinkConfig, p: Pipeline)
    requires ProducerConserves(p) && Enabled(cfg, p, Take)
    ensures ProducerConserves(Step(cfg, p, Take))
  {
    var first, rest := p.sink.queue[0], p.sink.queue[1..];
    var entry := Entry(|p.hand|, first);
    assert p.sink.queue == [first] + rest;
    assert multiset(p.sink.queue) == multiset{first} + multiset(rest);
    OneMoreBody(p.hand, entry);
    FromQueueToHand(p.overflowed, multiset(rest), BodiesOf(p.hand), p.acked, p.abandoned, multiset{first});
    OneMoreNumber(p.hand, first);
  }

  lemma {:induction false} OneMoreNumber(entries: seq<Entry>, body: Body)
    requires Distinct(entries) && forall i :: i in Ids(entries) ==> i < |entries|
    ensures var more := entries + [Entry(|entries|, body)];
            Distinct(more) && forall i :: i in Ids(more) ==> i < |more|
  {
    var more := entries + [Entry(|entries|, body)];
    assert more[..|more| - 1] == entries;
    assert Ids(more) == Ids(entries) + {|entries|};
  }

  lemma AttemptKeepsNumbers(cfg: SinkConfig, p: Pipeline, failed: set<nat>)
    requires HandNumbered(p) && Enabled(cfg, p, Attempt(Replied(failed)))
    ensures HandNumbered(Step(cfg, p, Attempt(Replied(failed))))
    ensures |Only(p.hand, failed)| == |failed|
  {
    OnlyKeeps(p.hand, failed);
    assert Ids(p.hand) * failed == failed;
  }

  lemma AttemptConserves(cfg: SinkConfig, p: Pipeline, failed: set<nat>)
    requires ProducerConserves(p) && Enabled(cfg, p, Attempt(Replied(failed)))
    ensures ProducerConserves(Step(cfg, p, Attempt(Replied(failed))))
  {
    var all, kept, through := BodiesOf(p.hand), BodiesOf(Only(p.hand, failed)), BodiesOf(Except(p.hand, failed));
    var p1 := Step(cfg, p, Attempt(Replied(failed)));
    AttemptKeepsNumbers(cfg, p, failed);
    Divided(p.hand, failed);
    AsManyBodies(p.hand);
    AsManyBodies(Only(p.hand, failed));
    MovedOn(all, kept, through, p.acked);
    assert p1.sink.sent == |p1.acked|;
    Regrouped(p.overflowed + multiset(p.sink.queue), all, p.acked, kept, p.acked + through);
  }

  lemma Regrouped(before: multiset<Body>, a: multiset<Body>, b: multiset<Body>, c: multiset<Body>, d: multiset<Body>)
    requires a + b == c + d
    ensures before + a + b == before + c + d
  {
    assert before + a + b == before + (a + b);
    assert before + c + d == before + (c + d);
  }

  lemma MovedOn(all: multiset<Body>, kept: multiset<Body>, through: multiset<Body>, acked: multiset<Body>)
    requires all == kept + through
    ensures all + acked == kept + (acked + through)
    ensures |acked + through| == |acked| + |all| - |kept|
  {
    assert |all| == |kept| + |through|;
  }

  lemma GiveUpConserves(cfg: SinkConfig, p: Pipeline)
    requires ProducerConserves(p) && Enabled(cfg, p, GiveUp)
    ensures ProducerConserves(Step(cfg, p, GiveUp))
  {
    AsManyBodies(p.hand);
    assert |p.abandoned + BodiesOf(p.hand)| == |p.abandoned| + |p.hand|;
    FromHandToGivenUp(p.overflowed, multiset(p.sink.queue), BodiesOf(p.hand), p.acked, p.abandoned);
  }

  /** Nothing of the producer's is touched by any other step. */
  lemma OtherStepsConserve(cfg: SinkConfig, p: Pipeline, e: Event)
    requires ProducerConserves(p) && Enabled(cfg, p, e)
    requires !e.Take? && !e.GiveUp? && !(e.Attempt? && e.response.Replied?) && !(e.Emit? && e.serialised.Some?)
    ensures ProducerConserves(Step(cfg, p, e))
  {
    var r := Step(cfg, p, e);
    assert (r.sink, r.hand, r.emitted, r.overflowed, r.acked, r.abandoned) ==
           (p.sink, p.hand, p.emitted, p.overflowed, p.acked, p.abandoned);
  }

  lemma ProducerStepConserves(cfg: SinkConfig, p: Pipeline, e: Event)
    requires ProducerConserves(p) && Enabled(cfg, p, e)
    ensures ProducerConserves(Step(cfg, p, e))
  {
    match e {
      case Emit(Some(b)) => EmitConserves(cfg, p, b);
      case Take => TakeConserves(cfg, p);
      case Attempt(Replied(failed)) => AttemptConserves(cfg, p, failed);
      case GiveUp => GiveUpConserves(cfg, p);
      case _ => OtherStepsConserve(cfg, p, e);
    }
  }

  // ---- the consumer's side ----

  /** The events about to be acknowledged to the service, as the store counts them. */
  function Owed(w: Worker): multiset<nat> {
    if w.Deleting? then multiset(EventsOf(w.receipts)) else multiset{}
  }

  /** What was acknowledged to the producer is still with the service, parked, or deleted; and an
      event deleted, or about to be, has been stored as often. */
  ghost predicate ConsumerConserves(p: Pipeline) {
    && p.acked <= p.sqs + p.parked + p.deleted
    && forall e: nat :: p.deleted[Json(e)] + Owed(p.worker)[e] <= p.store[e]
  }

  lemma {:induction false} EventsOfMore(a: seq<Message>, b: seq<Message>)
    ensures EventsOf(a + b) == EventsOf(a) + EventsOf(b)
    decreases |b|
  {
    if b == [] {
      assert a + b == a;
    } else {
      EventsOfMore(a, b[..|b| - 1]);
      assert (a + b)[..|a + b| - 1] == a + b[..|b| - 1];
    }
  }

  lemma OneMoreEvent(messages: seq<Message>, m: Message)
    ensures EventsOf(messages + [m]) ==
            if Parses(m) then EventsOf(messages) + [m.body.value.event] else EventsOf(messages)
  {
    assert (messages + [m])[..|messages|] == messages;
  }

  lemma {:induction false} EventsOfSorted(messages: seq<Message>)
    ensures EventsOf(Sorted(messages, true)) == EventsOf(messages)
    ensures EventsOf(Sorted(messages, false)) == []
  {
    if messages != [] {
      var front, last := messages[..|messages| - 1], messages[|messages| - 1];
      EventsOfSorted(front);
      OneMoreEvent(Sorted(front, true), last);
      OneMoreEvent(Sorted(front, false), last);
    }
  }

  /** The events acknowledged are those stored, if the store was fine, and none otherwise. */
  lemma AcknowledgedEvents(messages: seq<Message>, ok: bool)
    ensures EventsOf(Acknowledged(messages, ok)) == if ok then EventsOf(messages) else []
  {
    EventsOfSorted(messages);
    EventsOfMore(if ok then Sorted(messages, true) else [], Sorted(messages, false));
  }

  lemma {:induction false} BodiesAndEvents(messages: seq<Message>, e: nat)
    ensures BodiesIn(messages)[Json(e)] == multiset(EventsOf(messages))[e]
  {
    if messages != [] {
      BodiesAndEvents(messages[..|messages| - 1], e);
    }
  }

  lemma DeleteConserves(cfg: SinkConfig, p: Pipeline, done: multiset<Body>)
    requires ConsumerConserves(p) && Enabled(cfg, p, Delete(done))
    ensures ConsumerConserves(Step(cfg, p, Delete(done)))
  {
    var p1 := Step(cfg, p, Delete(done));
    assert p1.sqs + p1.parked + p1.deleted == p.sqs + p.parked + p.deleted;
    forall e: nat ensures p1.deleted[Json(e)] + Owed(p1.worker)[e] <= p1.store[e] {
      BodiesAndEvents(p.worker.receipts, e);
      assert done[Json(e)] <= BodiesIn(p.worker.receipts)[Json(e)];
    }
  }

  lemma ConsumerStepConserves(cfg: SinkConfig, p: Pipeline, e: Event)
    requires ConsumerConserves(p) && Enabled(cfg, p, e)
    ensures ConsumerConserves(Step(cfg, p, e))
  {
    match e {
      case Store(ok, _) => AcknowledgedEvents(p.worker.messages, ok);
      case Delete(done) => DeleteConserves(cfg, p, done);
      case _ =>
    }
  }

  // ---- end to end ----

  lemma {:induction false} RunConserves(cfg: SinkConfig, es: seq<Event>)
    requires IsRun(cfg, es)
    ensures ProducerConserves(After(cfg, es)) && ConsumerConserves(After(cfg, es))
  {
    if es != [] {
      var front, last := es[..|es| - 1], es[|es| - 1];
      RunConserves(cfg, front);
      ProducerStepConserves(cfg, After(cfg, front), last);
      ConsumerStepConserves(cfg, After(cfg, front), last);
    }
  }

  /** The producer's counters: every event emitted was dropped, is queued or in hand, or was sent. */
  lemma {:induction false} CountersConserve(cfg: SinkConfig, es: seq<Event>)
    requires IsRun(cfg, es)
    ensures var p := After(cfg, es);
            |p.emitted| == p.sink.droppedOverflow + |p.sink.queue| + |p.hand| + p.sink.sent + p.sink.droppedSend
  {
    RunConserves(cfg, es);
    var p := After(cfg, es);
    AsManyBodies(p.hand);
    assert |multiset(p.sink.queue)| == |p.sink.queue|;
    FiveParts(p.overflowed, multiset(p.sink.queue), BodiesOf(p.hand), p.acked, p.abandoned);
  }

  lemma FiveParts(a: multiset<Body>, b: multiset<Body>, c: multiset<Body>, d: multiset<Body>, e: multiset<Body>)
    ensures |a + b + c + d + e| == |a| + |b| + |c| + |d| + |e|
  {
    assert |a + b + c + d| == |a + b + c| + |d|;
    assert |a + b + c| == |a + b| + |c|;
  }

  /** No event disappears unaccounted for: however often each was emitted, so many copies are
      among the dropped, the queued, those in hand, the service's, the parked and the stored. */
  lemma {:induction false} NoEventIsLost(cfg: SinkConfig, es: seq<Event>, e: nat)
    requires IsRun(cfg, es)
    ensures var p := After(cfg, es);
            var b := Json(e);
            p.emitted[b] <= p.overflowed[b] + multiset(p.sink.queue)[b] + BodiesOf(p.hand)[b] + p.abandoned[b]
                            + p.sqs[b] + p.parked[b] + p.store[e]
  {
    RunConserves(cfg, es);
    var p := After(cfg, es);
    assert p.acked[Json(e)] <= (p.sqs + p.parked + p.deleted)[Json(e)];
  }

  /** Once the pipeline has run dry, with nothing dropped or parked, every event is in the store. */
  lemma {:induction false} DrainedMeansStored(cfg: SinkConfig, es: seq<Event>, e: nat)
    requires IsRun(cfg, es)
    requires var p := After(cfg, es);
             && p.sink.queue == [] && p.hand == [] && p.sqs == multiset{} && p.parked == multiset{}
             && p.sink.droppedOverflow == p.sink.droppedSend == 0
    ensures After(cfg, es).emitted[Json(e)] <= After(cfg, es).store[e]
  {
    NoEventIsLost(cfg, es, e);
    RunConserves(cfg, es);
  }

  // ---- at least once, not exactly once ----

  ghost predicate Reached(cfg: SinkConfig, p: Pipeline) { exists es :: IsRun(cfg, es) && After(cfg, es) == p }

  lemma StepIsReached(cfg: SinkConfig, p: Pipeline, e: Event)
    requires Reached(cfg, p) && Enabled(cfg, p, e)
    ensures Reached(cfg, Step(cfg, p, e))
  {
    var es :| IsRun(cfg, es) && After(cfg, es) == p;
    var more := es + [e];
    assert more[..|more| - 1] == es && more[|more| - 1] == e;
    assert IsRun(cfg, more) && After(cfg, more) == Step(cfg, p, e);
  }

  /** One body emitted, and the pump about to send it. */
  lemma OneBodyInHand(cfg: SinkConfig, b: Body) returns (p: Pipeline)
    requires b.Json?
    ensures Reached(cfg, p) && p.pump == Attempting(1) && p.hand == [Entry(0, b)] && p.emitted == multiset{b}
    ensures p.worker.Polling? && p.sqs == multiset{} && p.store == multiset{}
  {
    assert IsRun(cfg, []) && After(cfg, []) == EMPTY;
    StepIsReached(cfg, EMPTY, Emit(Some(b)));
    var p1 := Step(cfg, EMPTY, Emit(Some(b)));
    assert p1.sink.queue == [b];
    StepIsReached(cfg, p1, Take);
    var p2 := Step(cfg, p1, Take);
    StepIsReached(cfg, p2, Ship);
    p := Step(cfg, p2, Ship);
  }

  lemma OneHand(entry: Entry)
    ensures Ids([entry]) == {entry.id} && BodiesOf([entry]) == multiset{entry.body}
    ensures Only([entry], {entry.id}) == [entry] && Except([entry], {}) == [entry]
  {
    assert [entry][..0] == [];
  }

  /** A send that raises although it delivered has its body delivered again. */
  lemma DeliveredTwice(cfg: SinkConfig, b: Body) returns (p: Pipeline)
    requires b.Json? && cfg.sendRetries >= 2
    ensures Reached(cfg, p) && p.emitted == multiset{b} && p.sqs == multiset{b, b}
  {
    var p0 := OneBodyInHand(cfg, b);
    OneHand(Entry(0, b));
    StepIsReached(cfg, p0, Attempt(RaisedAfter({0})));
    var p1 := Step(cfg, p0, Attempt(RaisedAfter({0})));
    StepIsReached(cfg, p1, Attempt(Replied({})));
    p := Step(cfg, p1, Attempt(Replied({})));
  }

  lemma OneMessage(m: Message, e: nat)
    requires m.body == Some(Json(e))
    ensures EventsOf([m]) == [e] && BodiesIn([m]) == multiset{Json(e)}
  {
    assert [m][..0] == [];
  }

  lemma OneBodySent(cfg: SinkConfig, e: nat) returns (p: Pipeline)
    requires cfg.sendRetries >= 1
    ensures Reached(cfg, p) && p.worker.Polling? && p.store == multiset{}
    ensures p.emitted == multiset{Json(e)} && p.sqs == multiset{Json(e)}
  {
    var p0 := OneBodyInHand(cfg, Json(e));
    OneHand(Entry(0, Json(e)));
    StepIsReached(cfg, p0, Attempt(Replied({})));
    p := Step(cfg, p0, Attempt(Replied({})));
  }

  /** A store that fails although it took the event, and a worker that dies before it has deleted
      anything, have the event stored again. */
  lemma StoredTwice(cfg: SinkConfig, e: nat, m: Message) returns (p: Pipeline)
    requires m.body == Some(Json(e)) && cfg.sendRetries >= 1
    ensures Reached(cfg, p) && p.emitted == multiset{Json(e)} && p.store == multiset{e, e}
  {
    var p1 := OneBodySent(cfg, e);
    var p2 := ReceivedAndStored(cfg, p1, e, m, false);
    StepIsReached(cfg, p2, WorkerDies);
    p := ReceivedAndStored(cfg, Step(cfg, p2, WorkerDies), e, m, true);
  }

  lemma ReceivedAndStored(cfg: SinkConfig, p: Pipeline, e: nat, m: Message, ok: bool) returns (r: Pipeline)
    requires Reached(cfg, p) && p.worker.Polling? && p.sqs == multiset{Json(e)} && m.body == Some(Json(e))
    ensures Reached(cfg, r) && (r.emitted, r.sqs) == (p.emitted, p.sqs) && r.store == p.store + multiset{e}
  {
    OneMessage(m, e);
    StepIsReached(cfg, p, Receive([m]));
    var p1 := Step(cfg, p, Receive([m]));
    StepIsReached(cfg, p1, Store(ok, multiset{e}));
    r := Step(cfg, p1, Store(ok, multiset{e}));
  }
}
