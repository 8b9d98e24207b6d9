/** Ways to make a session tick as one wants, for runs that show what can happen. */
module SessionFeeds {
  import opened Prelude
  import opened CallFsm
  import opened Session

  /** Every tick of a feed gets the same answers. */
  function Always(inp: TickInput): nat -> TickInput { _ => inp }

  function HalfASecond(): (pcm: seq<int>)
    ensures |pcm| == 4000
  {
    seq(4000, _ => 0)
  }

  /** The first tick of a feed gets one set of answers, the others another. */
  function Pair(first: TickInput, second: TickInput): nat -> TickInput { k => if k == 0 then first else second }

  /** A chunk so long that the session skips ahead, to a tick at or after t and one more. */
  lemma LongFeed(cfg: SessionConfig, s: Session, first: TickInput, second: TickInput, t: real)
      returns (pcm: seq<int>, s1: Session)
    requires cfg.interval > 0.0 && !s.finished
    ensures s1 == s.(samples := s1.samples, next := s1.next, data := s1.data) && s1.next >= t
    ensures var a := Advanced(cfg, s1, first);
            Fed(cfg, s, pcm, Pair(first, second)) == if a.finished then a else Advanced(cfg, a, second)
  {
    var late := if t > s.next then t else s.next;
    var far := (8000.0 * (late + 4.0 * cfg.interval)).Floor + 1;
    pcm := seq(if far > 0 then far else 0, _ => 0);
    s1 := CaughtUp(cfg, Received(cfg, s, pcm));
    assert Audio(s1) >= late + 4.0 * cfg.interval;
    var inputs := Pair(first, second);
    var a := Advanced(cfg, s1, first);
    assert inputs(0) == first && inputs(1) == second;
    assert Ticks(cfg, s1, inputs, 0) == if a.finished then a else Ticks(cfg, a, inputs, 1);
    if !a.finished {
      var b := Advanced(cfg, a, second);
      assert Audio(b) < b.next;
      assert Ticks(cfg, a, inputs, 1) == b;
    }
  }

  /** A chunk that just reaches the next tick. */
  lemma ShortFeed(cfg: SessionConfig, s: Session, pcm: seq<int>, inp: TickInput)
    requires cfg.interval > 0.0 && !s.finished
    requires s.next <= Audio(Received(cfg, s, pcm)) < s.next + cfg.interval
    ensures Fed(cfg, s, pcm, Always(inp)) == Advanced(cfg, Received(cfg, s, pcm), inp)
  {
    var s1 := Received(cfg, s, pcm);
    var a := Advanced(cfg, s1, inp);
    assert Always(inp)(0) == inp;
    assert Ticks(cfg, s1, Always(inp), 0) == if a.finished then a else Ticks(cfg, a, Always(inp), 1);
  }

  /** A tick that moves nothing only counts the frame. */
  lemma QuietTick(cfg: SessionConfig, s: Session, now: real, inp: TickInput)
    requires s.kind.None? || !Polling(s.slot, inp).Ready?
    requires s.wakeDue.Some? ==> now < s.wakeDue.value
    requires Observed(cfg.fsm, s.fsm, inp.sound, inp.confidence, now).1.NoAction?
    ensures Ticked(cfg, s, now, inp) ==
            Classified(cfg, s, Observed(cfg.fsm, s.fsm, inp.sound, inp.confidence, now).0, now, inp)
  {
  }

  /** A set of states that a session cannot leave once it is in one of them. */
  ghost predicate Closed(cfg: SessionConfig, all: iset<Session>)
    requires cfg.interval > 0.0
  {
    forall s, e :: s in all ==> Next(cfg, s, e) in all
  }

  /** The states sessions get into. */
  ghost function Reached(cfg: SessionConfig): iset<Session>
    requires cfg.interval > 0.0
  {
    iset es: seq<Event> :: Played(cfg, es)
  }

  lemma ReachedIsClosed(cfg: SessionConfig)
    requires cfg.interval > 0.0
    ensures OPENED in Reached(cfg) && Closed(cfg, Reached(cfg))
  {
    assert Played(cfg, []) == OPENED;
    forall s, e | s in Reached(cfg) ensures Next(cfg, s, e) in Reached(cfg) {
      var es :| Played(cfg, es) == s;
      assert (es + [e])[..|es|] == es;
      assert Played(cfg, es + [e]) == Next(cfg, s, e);
    }
  }
}
