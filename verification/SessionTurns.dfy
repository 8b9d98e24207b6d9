/** The loop in which a feed ticks, turn by turn. */
module SessionTurns {
  import opened Session

  /** What a loop does to the session in its k-th turn, and what it asks of it. */
  type Move = (Session, nat) -> Session
  type Ask = (Session, nat) -> bool

  /** The session after so many turns of a loop, from the k-th on. */
  function Turns(turn: Move, s: Session, k: nat, n: nat): Session
    decreases n
  {
    if n == 0 then s else Turns(turn, turn(s, k), k + 1, n - 1)
  }

  /** Each of these turns finds the loop ready for it. */
  predicate AllDue(turn: Move, due: Ask, s: Session, k: nat, n: nat)
    decreases n
  {
    n > 0 ==> due(s, k) && AllDue(turn, due, turn(s, k), k + 1, n - 1)
  }

  /** A loop that may go on takes a turn if one is due, and then goes on if it still may. */
  ghost predicate GoesRound(loop: Move, turn: Move, due: Ask, goes: Ask, limit: nat, s: Session, k: nat) {
    if due(s, k) then
      k < limit && loop(s, k) == if goes(turn(s, k), k + 1) then loop(turn(s, k), k + 1) else turn(s, k)
    else loop(s, k) == s
  }

  ghost predicate IsLoop(loop: Move, turn: Move, due: Ask, goes: Ask, limit: nat) {
    forall s: Session, k: nat :: goes(s, k) ==> GoesRound(loop, turn, due, goes, limit, s, k)
  }

  lemma {:induction false} LoopIsTurns(
      loop: Move, turn: Move, due: Ask, goes: Ask, limit: nat, s: Session, k: nat)
      returns (n: nat)
    requires IsLoop(loop, turn, due, goes, limit) && goes(s, k) && k <= limit
    ensures n <= limit - k && loop(s, k) == Turns(turn, s, k, n) && AllDue(turn, due, s, k, n)
    decreases limit - k
  {
    assert GoesRound(loop, turn, due, goes, limit, s, k);
    n := 0;
    if due(s, k) {
      var s1 := turn(s, k);
      if goes(s1, k + 1) { n := LoopIsTurns(loop, turn, due, goes, limit, s1, k + 1); }
      n := n + 1;
    }
  }

  lemma {:induction false} TurnsStay(turn: Move, good: iset<Session>, s: Session, k: nat, n: nat)
    requires s in good && forall t, i :: t in good ==> turn(t, i) in good
    ensures Turns(turn, s, k, n) in good
    decreases n
  {
    if n > 0 { TurnsStay(turn, good, turn(s, k), k + 1, n - 1); }
  }

  /** A turn of a feed's loop. */
  function Turn(cfg: SessionConfig, inputs: nat -> TickInput): Move {
    (s: Session, k: nat) => Advanced(cfg, s, inputs(k))
  }

  /** The session is unfinished and a tick is due. */
  function Due(): Ask { (s: Session, k: nat) => !s.finished && Audio(s) >= s.next }

  function GoesOn(cfg: SessionConfig): Ask {
    (s: Session, k: nat) => !s.finished && k <= 4 && Audio(s) - s.next <= Slack(cfg, k)
  }

  function Loop(cfg: SessionConfig, inputs: nat -> TickInput): Move
    requires cfg.interval > 0.0
  {
    (s: Session, k: nat) => if k <= 4 && Audio(s) - s.next <= Slack(cfg, k) then Ticks(cfg, s, inputs, k) else s
  }

  lemma FeedIsLoop(cfg: SessionConfig, inputs: nat -> TickInput)
    requires cfg.interval > 0.0
    ensures IsLoop(Loop(cfg, inputs), Turn(cfg, inputs), Due(), GoesOn(cfg), 4)
  {
    forall s: Session, k: nat | GoesOn(cfg)(s, k)
      ensures GoesRound(Loop(cfg, inputs), Turn(cfg, inputs), Due(), GoesOn(cfg), 4, s, k)
    {
      if Due()(s, k) { OneTick(cfg, s, inputs, k); }
    }
  }

  /** A feed's loop is so many turns, at most four, all of them due. */
  lemma TicksAreTurns(cfg: SessionConfig, s: Session, inputs: nat -> TickInput, k: nat) returns (n: nat)
    requires cfg.interval > 0.0 && k <= 4 && Audio(s) - s.next <= Slack(cfg, k) && !s.finished
    ensures n <= 4 - k
    ensures Ticks(cfg, s, inputs, k) == Turns(Turn(cfg, inputs), s, k, n)
    ensures AllDue(Turn(cfg, inputs), Due(), s, k, n)
  {
    FeedIsLoop(cfg, inputs);
    n := LoopIsTurns(Loop(cfg, inputs), Turn(cfg, inputs), Due(), GoesOn(cfg), 4, s, k);
  }
}
