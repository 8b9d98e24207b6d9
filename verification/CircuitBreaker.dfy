/** The circuit breaker every call's Tier 2 jobs share. A guarded call is two locked steps with
    an unlocked body between them, so calls overlap freely; each locked step is atomic. */
module CircuitBreaker {
  import opened Prelude

  datatype BreakerState = Closed | Open | HalfOpen

  datatype BreakerConfig = BreakerConfig(failureThreshold: int, resetTimeout: real)

  datatype Breaker = Breaker(state: BreakerState, failures: nat, openedAt: real)

  const UNTRIPPED := Breaker(Closed, 0, 0.0)

  // ---- one function per locked step ----

  function Refreshed(cfg: BreakerConfig, b: Breaker, now: real): Breaker {
    if b.state.Open? && now - b.openedAt >= cfg.resetTimeout then b.(state := HalfOpen) else b
  }

  function Succeeded(b: Breaker): Breaker { b.(failures := 0, state := Closed) }

  function FailedAt(cfg: BreakerConfig, b: Breaker, now: real): Breaker {
    var b1 := b.(failures := b.failures + 1);
    if b1.state.HalfOpen? || b1.failures >= cfg.failureThreshold then b1.(state := Open, openedAt := now) else b1
  }

  // ---- overlapping calls ----

  /** Calls are told apart by a number. `Vanish` is a body that ends in neither way that counts:
      an exception that is no `Exception`. */
  datatype Event =
    | ReadState(now: real)
    | Begin(call: nat, now: real)
    | Succeed(call: nat, now: real)
    | Fail(call: nat, now: real)
    | Vanish(call: nat, now: real)

  /** The breaker, and the calls whose body is running. */
  datatype System = System(breaker: Breaker, running: set<nat>)

  const IDLE := System(UNTRIPPED, {})

  predicate Rejects(cfg: BreakerConfig, b: Breaker, now: real) { Refreshed(cfg, b, now).state.Open? }

  /** Only a call that is running can end, and only one that is not can begin. */
  predicate Enabled(s: System, e: Event) {
    match e
    case ReadState(_) => true
    case Begin(call, _) => call !in s.running
    case _ => e.call in s.running
  }

  function Step(cfg: BreakerConfig, s: System, e: Event): System {
    match e
    case ReadState(now) => s.(breaker := Refreshed(cfg, s.breaker, now))
    case Begin(call, now) =>
      System(Refreshed(cfg, s.breaker, now),
             if Rejects(cfg, s.breaker, now) then s.running else s.running + {call})
    case Succeed(call, _) => System(Succeeded(s.breaker), s.running - {call})
    case Fail(call, now) => System(FailedAt(cfg, s.breaker, now), s.running - {call})
    case Vanish(call, _) => s.(running := s.running - {call})
  }

  function After(cfg: BreakerConfig, es: seq<Event>): System {
    if es == [] then IDLE else Step(cfg, After(cfg, es[..|es| - 1]), es[|es| - 1])
  }

  /** A run in which calls begin and end in order, against a clock that never goes back. */
  predicate IsRun(cfg: BreakerConfig, es: seq<Event>) {
    es == [] ||
    var front, last := es[..|es| - 1], es[|es| - 1];
    && IsRun(cfg, front)
    && Enabled(After(cfg, front), last)
    && (front != [] ==> front[|front| - 1].now <= last.now)
  }

  // ---- the history specification ----

  /** How many calls have failed since the last one that succeeded. */
  function FailuresSinceSuccess(es: seq<Event>): nat {
    if es == [] then 0
    else
      var front := es[..|es| - 1];
      match es[|es| - 1]
      case Succeed(_, _) => 0
      case Fail(_, _) => FailuresSinceSuccess(front) + 1
      case _ => FailuresSinceSuccess(front)
  }

  /** When a call last failed. */
  function LastFailure(es: seq<Event>): Option<real> {
    if es == [] then None
    else if es[|es| - 1].Fail? then Some(es[|es| - 1].now)
    else LastFailure(es[..|es| - 1])
  }

  /** A threshold below one acts like one: the first failure trips the breaker either way. */
  function Threshold(cfg: BreakerConfig): int { if cfg.failureThreshold > 1 then cfg.failureThreshold else 1 }

  /** The whole breaker in one line: too many failures in a row, the last of them too recent. */
  predicate Tripped(cfg: BreakerConfig, es: seq<Event>, now: real) {
    && FailuresSinceSuccess(es) >= Threshold(cfg)
    && LastFailure(es).Some?
    && now - LastFailure(es).value < cfg.resetTimeout
  }

  // ---- the breaker refines it ----

  /** What the fields mean: HALF_OPEN has been reached only once the timeout was over. */
  predicate Means(cfg: BreakerConfig, b: Breaker, es: seq<Event>) {
    && b.failures == FailuresSinceSuccess(es)
    && (b.state.Closed? <==> b.failures < Threshold(cfg))
    && (b.failures > 0 ==> LastFailure(es).Some?)
    && (!b.state.Closed? ==> b.openedAt == LastFailure(es).value)
    && (b.state.HalfOpen? ==> es != [] && es[|es| - 1].now - b.openedAt >= cfg.resetTimeout)
  }

  lemma {:induction false} FieldsMeanTheHistory(cfg: BreakerConfig, es: seq<Event>)
    requires IsRun(cfg, es)
    ensures Means(cfg, After(cfg, es).breaker, es)
  {
    if es != [] {
      FieldsMeanTheHistory(cfg, es[..|es| - 1]);
    }
  }

  /** After any interleaving, a call beginning now is rejected exactly when the history says so,
      and the breaker is closed exactly when too few calls have failed in a row. */
  lemma BreakerRefinesItsHistory(cfg: BreakerConfig, es: seq<Event>, now: real)
    requires IsRun(cfg, es) && (es != [] ==> es[|es| - 1].now <= now)
    ensures Rejects(cfg, After(cfg, es).breaker, now) <==> Tripped(cfg, es, now)
    ensures After(cfg, es).breaker.state.Closed? <==> FailuresSinceSuccess(es) < Threshold(cfg)
  {
    FieldsMeanTheHistory(cfg, es);
  }

  // ---- reading the state is harmless ----

  function WithoutReads(es: seq<Event>): seq<Event> {
    if es == [] then []
    else
      var front, last := es[..|es| - 1], es[|es| - 1];
      if last.ReadState? then WithoutReads(front) else WithoutReads(front) + [last]
  }

  lemma HistoryGrows(es: seq<Event>, e: Event)
    ensures FailuresSinceSuccess(es + [e]) ==
            (if e.Succeed? then 0 else if e.Fail? then FailuresSinceSuccess(es) + 1 else FailuresSinceSuccess(es))
    ensures LastFailure(es + [e]) == if e.Fail? then Some(e.now) else LastFailure(es)
  {
    assert (es + [e])[..|es|] == es;
  }

  lemma {:induction false} ReadsLeaveNoHistory(es: seq<Event>)
    ensures FailuresSinceSuccess(WithoutReads(es)) == FailuresSinceSuccess(es)
    ensures LastFailure(WithoutReads(es)) == LastFailure(es)
  {
    if es != [] {
      ReadsLeaveNoHistory(es[..|es| - 1]);
      HistoryGrows(WithoutReads(es[..|es| - 1]), es[|es| - 1]);
    }
  }

  /** Although a read may move the breaker from OPEN to HALF_OPEN, the run without its reads is a
      run, admits the same calls, and decides the next one alike. */
  lemma {:induction false} ReadsChangeNoDecision(cfg: BreakerConfig, es: seq<Event>, now: real)
    requires IsRun(cfg, es) && (es != [] ==> es[|es| - 1].now <= now)
    ensures var fewer := WithoutReads(es);
            && IsRun(cfg, fewer)
            && (fewer != [] ==> fewer[|fewer| - 1].now <= now)
            && After(cfg, fewer).running == After(cfg, es).running
            && Rejects(cfg, After(cfg, fewer).breaker, now) == Rejects(cfg, After(cfg, es).breaker, now)
  {
    if es != [] {
      var front, last := es[..|es| - 1], es[|es| - 1];
      ReadsChangeNoDecision(cfg, front, last.now);
      var fewer := WithoutReads(front) + [last];
      assert fewer[..|fewer| - 1] == WithoutReads(front);
    }
    BreakerRefinesItsHistory(cfg, es, now);
    BreakerRefinesItsHistory(cfg, WithoutReads(es), now);
    ReadsLeaveNoHistory(es);
  }

  // ---- half-open admits more than one trial ----

  /** The comment on HALF_OPEN speaks of one trial call. Once the timeout is over, every call that
      begins before another one fails is admitted, however many are running. */
  lemma EveryTrialIsAdmitted(cfg: BreakerConfig, es: seq<Event>, call: nat, now: real)
    requires IsRun(cfg, es + [Begin(call, now)])
    requires FailuresSinceSuccess(es) >= Threshold(cfg)
    ensures LastFailure(es).Some?
    ensures call in After(cfg, es + [Begin(call, now)]).running <==> now - LastFailure(es).value >= cfg.resetTimeout
  {
    var longer := es + [Begin(call, now)];
    assert longer[..|longer| - 1] == es;
    BreakerRefinesItsHistory(cfg, es, now);
    FieldsMeanTheHistory(cfg, es);
  }

  lemma TwoTrialsAtOnce()
    ensures var cfg := BreakerConfig(1, 30.0);
            var es := [Begin(0, 0.0), Fail(0, 0.0), Begin(1, 31.0), Begin(2, 31.0)];
            && IsRun(cfg, es)
            && After(cfg, es[..3]).breaker.state.HalfOpen?
            && After(cfg, es).running == {1, 2}
  {
    var cfg := BreakerConfig(1, 30.0);
    var es := [Begin(0, 0.0), Fail(0, 0.0), Begin(1, 31.0), Begin(2, 31.0)];
    assert es[..4][..3] == es[..3] && es[..3][..2] == es[..2] && es[..2][..1] == es[..1] && es[..1][..0] == [];
    assert es[..4] == es;
    assert After(cfg, []) == IDLE && IsRun(cfg, []);
    assert After(cfg, es[..1]) == System(UNTRIPPED, {0}) && IsRun(cfg, es[..1]);
    assert After(cfg, es[..2]) == System(Breaker(Open, 1, 0.0), {}) && IsRun(cfg, es[..2]);
    assert After(cfg, es[..3]) == System(Breaker(HalfOpen, 1, 0.0), {1}) && IsRun(cfg, es[..3]);
  }

  /** A success that arrives late closes the breaker whatever its state, in one step. */
  lemma LateSuccessCloses(cfg: BreakerConfig, es: seq<Event>, call: nat, now: real, later: real)
    requires IsRun(cfg, es + [Succeed(call, now)]) && now <= later
    ensures !Rejects(cfg, After(cfg, es + [Succeed(call, now)]).breaker, later)
  {
    HistoryGrows(es, Succeed(call, now));
    BreakerRefinesItsHistory(cfg, es + [Succeed(call, now)], later);
  }

  // ---- the class ----

  /** How a guarded body ends: it returns, raises an `Exception`, or escapes with something else. */
  datatype BodyEnd = Returns | Raises | Escapes

  class CircuitBreaker {
    const cfg: BreakerConfig
    var current: BreakerState
    var failures: nat
    var openedAt: real

    ghost function View(): Breaker
      reads this
    {
      Breaker(current, failures, openedAt)
    }

    constructor (cfg: BreakerConfig)
      ensures this.cfg == cfg && View() == UNTRIPPED
    {
      this.cfg := cfg;
      current, failures, openedAt := Closed, 0, 0.0;
    }

    /** The `state` property, which writes as well as reads. */
    method State(now: real) returns (s: BreakerState)
      modifies this
      ensures View() == Refreshed(cfg, old(View()), now) && s == current
    {
      if current == Open && now - openedAt >= cfg.resetTimeout {
        current := HalfOpen;
      }
      return current;
    }

    /** The first locked step of `call`. */
    method Admit(now: real) returns (admitted: bool)
      modifies this
      ensures View() == Refreshed(cfg, old(View()), now)
      ensures admitted == !Rejects(cfg, old(View()), now)
    {
      var s := State(now);
      return s != Open;
    }

    method OnSuccess()
      modifies this
      ensures View() == Succeeded(old(View()))
    {
      failures := 0;
      current := Closed;
    }

    method OnFailure(now: real)
      modifies this
      ensures View() == FailedAt(cfg, old(View()), now)
    {
      failures := failures + 1;
      if current == HalfOpen || failures >= cfg.failureThreshold {
        current := Open;
        openedAt := now;
      }
    }

    /** `call` with nothing else going on: `end` and `later` say how and when its body ends. */
    method Call(now: real, end: BodyEnd, later: real) returns (ran: bool)
      modifies this
      ensures ran == !Rejects(cfg, old(View()), now)
      ensures var b := Refreshed(cfg, old(View()), now);
              View() == if !ran then b
                        else match end
                          case Returns => Succeeded(b)
                          case Raises => FailedAt(cfg, b, later)
                          case Escapes => b
    {
      ran := Admit(now);
      if !ran {
        return;
      }
      match end {
        case Returns => OnSuccess();
        case Raises => OnFailure(later);
        case Escapes =>
      }
    }
  }
}
