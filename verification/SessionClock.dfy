/** The audio clock and the audio window of a session. */
module SessionClock {
  import opened CallFsm
  import opened Session
  import opened SessionTurns

  // ---- the clock ----

  predicate Spaced(cfg: SessionConfig, frames: seq<Look>) {
    forall i :: 0 < i < |frames| ==> frames[i].t >= frames[i - 1].t + cfg.interval
  }

  /** Ticks so far are at least an interval apart, the next one included, and the next one is
      never more than an interval ahead of the audio. */
  predicate ClockOk(cfg: SessionConfig, s: Session) {
    var frames := Frames(s.log);
    && Spaced(cfg, frames)
    && (frames != [] ==> frames[|frames| - 1].t <= s.next - cfg.interval)
    && s.next <= Audio(s) + cfg.interval
  }

  /** The sessions whose clock is right. */
  ghost function RightTime(cfg: SessionConfig): iset<Session> { iset s: Session | ClockOk(cfg, s) }

  /** The audio is the same, and unless the call is over no tick is due any more. */
  predicate CaughtTheAudio(s: Session, r: Session) {
    (r.samples, r.data) == (s.samples, s.data) && (!r.finished ==> Audio(r) < r.next)
  }

  lemma AdvancedKeepsTime(cfg: SessionConfig, s: Session, inp: TickInput)
    requires cfg.interval > 0.0 && s in RightTime(cfg) && Audio(s) >= s.next
    ensures var r := Advanced(cfg, s, inp);
            r in RightTime(cfg) && (r.samples, r.data) == (s.samples, s.data)
  {
  }

  lemma {:induction false} TicksKeepTime(cfg: SessionConfig, s: Session, inputs: nat -> TickInput, k: nat)
    requires cfg.interval > 0.0 && k <= 4 && Audio(s) - s.next <= Slack(cfg, k) && s in RightTime(cfg)
    ensures Ticks(cfg, s, inputs, k) in RightTime(cfg) && CaughtTheAudio(s, Ticks(cfg, s, inputs, k))
    decreases 4 - k
  {
    if Audio(s) >= s.next {
      var s1 := Advanced(cfg, s, inputs(k));
      AdvancedKeepsTime(cfg, s, inputs(k));
      OneTick(cfg, s, inputs, k);
      if s1.finished {
        assert CaughtTheAudio(s, s1);
      } else {
        TicksKeepTime(cfg, s1, inputs, k + 1);
        CaughtLater(s, s1, Ticks(cfg, s1, inputs, k + 1));
      }
    }
  }

  lemma CaughtLater(s: Session, s1: Session, r: Session)
    requires (s1.samples, s1.data) == (s.samples, s.data) && CaughtTheAudio(s1, r)
    ensures CaughtTheAudio(s, r)
  {
  }

  // ---- what a feed looks at ----

  /** What n ticks from start on look at: the same window, an interval after one another, each with
      the label of its own input. */
  function Looks(start: real, pause: real, window: seq<int>, inputs: nat -> TickInput, k: nat, n: nat): seq<Look>
    decreases n
  {
    if n == 0 then []
    else
      [Look(start, inputs(k).sound, inputs(k).confidence, window)] +
      Looks(start + pause, pause, window, inputs, k + 1, n - 1)
  }

  /** So many pauses later. */
  function Later(start: real, pause: real, n: nat): real
    decreases n
  {
    if n == 0 then start else Later(start + pause, pause, n - 1)
  }

  lemma {:induction false} LaterIsSoMuchLater(start: real, pause: real, n: nat)
    ensures Later(start, pause, n) == start + n as real * pause
    decreases n
  {
    if n > 0 {
      LaterIsSoMuchLater(start + pause, pause, n - 1);
      assert n as real * pause == (n - 1) as real * pause + pause;
    }
  }

  /** The i-th of these looks comes i pauses after the start, and is at the i-th input. */
  lemma {:induction false} LooksAre(
      start: real, pause: real, window: seq<int>, inputs: nat -> TickInput, k: nat, n: nat, i: nat)
    requires i < n
    ensures var looks := Looks(start, pause, window, inputs, k, n);
            && |looks| == n
            && looks[i] == Look(Later(start, pause, i), inputs(k + i).sound, inputs(k + i).confidence, window)
    decreases n
  {
    var rest := Looks(start + pause, pause, window, inputs, k + 1, n - 1);
    if i > 0 {
      LooksAre(start + pause, pause, window, inputs, k + 1, n - 1, i - 1);
      assert (k + 1) + (i - 1) == k + i;
    } else if n > 1 {
      LooksAre(start + pause, pause, window, inputs, k + 1, n - 1, 0);
    }
  }

  /** A turn looks once, at its own input, and moves the clock on by an interval. */
  ghost predicate LooksOnce(cfg: SessionConfig, turn: Move, inputs: nat -> TickInput) {
    forall s: Session, k: nat :: OneLook(cfg, s, inputs(k), turn(s, k))
  }

  predicate OneLook(cfg: SessionConfig, s: Session, inp: TickInput, r: Session) {
    AudioSide(r) == (s.samples, s.next + cfg.interval, s.data, Frames(s.log) + [LookAt(cfg, s, s.next, inp)])
  }

  lemma TurnLooksOnce(cfg: SessionConfig, inputs: nat -> TickInput)
    ensures LooksOnce(cfg, Turn(cfg, inputs), inputs)
  {
    forall s: Session, k: nat ensures OneLook(cfg, s, inputs(k), Turn(cfg, inputs)(s, k)) {
      assert Turn(cfg, inputs)(s, k) == Advanced(cfg, s, inputs(k));
    }
  }

  /** The audio side after so many turns. */
  function Looked(
      cfg: SessionConfig, s: Session, inputs: nat -> TickInput, k: nat, n: nat): (nat, real, seq<int>, seq<Look>)
  {
    (s.samples, Later(s.next, cfg.interval, n), s.data,
     Frames(s.log) + Looks(s.next, cfg.interval, Tail(cfg, s), inputs, k, n))
  }

  lemma LookedOnceMore(cfg: SessionConfig, s: Session, s1: Session, inputs: nat -> TickInput, k: nat, n: nat)
    requires n > 0 && OneLook(cfg, s, inputs(k), s1)
    ensures Looked(cfg, s1, inputs, k + 1, n - 1) == Looked(cfg, s, inputs, k, n)
  {
    var look := LookAt(cfg, s, s.next, inputs(k));
    var rest := Looks(s.next + cfg.interval, cfg.interval, Tail(cfg, s), inputs, k + 1, n - 1);
    assert Tail(cfg, s1) == Tail(cfg, s);
    assert Looks(s.next, cfg.interval, Tail(cfg, s), inputs, k, n) == [look] + rest;
    assert (Frames(s.log) + [look]) + rest == Frames(s.log) + ([look] + rest);
  }

  lemma {:induction false} TurnsLook(
      cfg: SessionConfig, turn: Move, s: Session, inputs: nat -> TickInput, k: nat, n: nat)
    requires LooksOnce(cfg, turn, inputs)
    ensures AudioSide(Turns(turn, s, k, n)) == Looked(cfg, s, inputs, k, n)
    decreases n
  {
    if n > 0 {
      var s1 := turn(s, k);
      assert OneLook(cfg, s, inputs(k), s1);
      TurnsLook(cfg, turn, s1, inputs, k + 1, n - 1);
      LookedOnceMore(cfg, s, s1, inputs, k, n);
    } else {
      assert Frames(s.log) + [] == Frames(s.log);
    }
  }

  /** The loop ticks once for each interval the clock moves on by: none is skipped, none repeated. */
  lemma TicksLook(cfg: SessionConfig, s: Session, inputs: nat -> TickInput, k: nat) returns (n: nat)
    requires cfg.interval > 0.0 && k <= 4 && Audio(s) - s.next <= Slack(cfg, k) && !s.finished
    ensures n <= 4 - k && AudioSide(Ticks(cfg, s, inputs, k)) == Looked(cfg, s, inputs, k, n)
  {
    n := TicksAreTurns(cfg, s, inputs, k);
    TurnLooksOnce(cfg, inputs);
    TurnsLook(cfg, Turn(cfg, inputs), s, inputs, k, n);
  }

  // ---- the window ----

  /** The latest n samples, or all of them if there are fewer. */
  function Latest(a: seq<int>, n: nat): seq<int> { if |a| > n then a[|a| - n..] else a }

  /** Everything fed in a run. */
  function AudioFed(es: seq<Event>): seq<int> {
    if es == [] then []
    else
      var e := es[|es| - 1];
      AudioFed(es[..|es| - 1]) + (if e.Feed? then e.pcm else [])
  }

  lemma LatestOfMore(a: seq<int>, b: seq<int>, n: nat)
    ensures Latest(Latest(a, n) + b, n) == Latest(a + b, n)
  {
  }

  lemma LatestOfLatest(a: seq<int>, m: nat, n: nat)
    ensures Latest(Latest(a, m), n) == Latest(a, if m < n then m else n)
  {
  }

  /** The slice from minus n on begins n from the end, but not before the beginning; from minus zero
      it is the whole, and a negative n counts from the beginning. */
  lemma SuffixBegins(a: seq<int>, n: int)
    ensures var start := if n > 0 then |a| - n else -n;
            Suffix(a, n) == a[if start < 0 then 0 else if start > |a| then |a| else start..]
  {
  }

  /** The buffer is bounded exactly when its limit is positive: a limit of zero keeps all the
      audio there is, since the slice from minus zero is the whole. */
  lemma BufferIsBoundedExactlyWhenItsLimitIsPositive(n: int)
    ensures n > 0 <==> exists most: nat :: Bounds(most, n)
  {
    if n > 0 {
      assert Bounds(n, n);
    } else {
      forall most: nat ensures !Bounds(most, n) {
        var a := seq(most - n + 1, _ => 0);
        assert |Suffix(a, n)| > most;
      }
    }
  }

  ghost predicate Bounds(most: nat, n: int) { forall a: seq<int> :: |Suffix(a, n)| <= most }

  /** The states in which the clock is right and, while the call lasts, the buffer is the latest
      of all the audio fed. */
  ghost function OnTime(cfg: SessionConfig, fed: seq<int>): iset<Session> {
    iset s: Session |
      && ClockOk(cfg, s)
      && (cfg.bufferSamples > 0 && !s.finished ==> (s.samples, s.data) == (|fed|, Latest(fed, cfg.bufferSamples)))
  }

  lemma ReceivedOnTime(cfg: SessionConfig, s: Session, pcm: seq<int>, fed: seq<int>)
    requires cfg.interval > 0.0 && s in OnTime(cfg, fed) && !s.finished
    ensures CaughtUp(cfg, Received(cfg, s, pcm)) in OnTime(cfg, fed + pcm)
  {
    if cfg.bufferSamples > 0 { LatestOfMore(fed, pcm, cfg.bufferSamples); }
  }

  lemma TicksOnTime(cfg: SessionConfig, s: Session, inputs: nat -> TickInput, fed: seq<int>)
    requires cfg.interval > 0.0 && s in OnTime(cfg, fed) && !s.finished
    requires Audio(s) - s.next <= 3.0 * cfg.interval
    ensures Ticks(cfg, s, inputs, 0) in OnTime(cfg, fed)
  {
    TicksKeepTime(cfg, s, inputs, 0);
  }

  lemma {:induction false} RunOnTime(cfg: SessionConfig, es: seq<Event>)
    requires cfg.interval > 0.0
    ensures Played(cfg, es) in OnTime(cfg, AudioFed(es))
  {
    if es != [] {
      var front, e := es[..|es| - 1], es[|es| - 1];
      var s := Played(cfg, front);
      RunOnTime(cfg, front);
      match e {
        case Feed(pcm, inputs) =>
          if !s.finished {
            ReceivedOnTime(cfg, s, pcm, AudioFed(front));
            TicksOnTime(cfg, CaughtUp(cfg, Received(cfg, s, pcm)), inputs, AudioFed(es));
          }
        case Abort(reason) =>
          assert AudioFed(es) == AudioFed(front);
          assert AudioSide(Aborted(s, reason)) == AudioSide(s);
      }
    }
  }

  /** A feed's ticks begin where the clock stood, unless the audio has got more than three intervals
      ahead of it: then, and only then, they begin an interval back. */
  function StartOf(cfg: SessionConfig, s: Session, pcm: seq<int>): real {
    var heard := (s.samples + |pcm|) as real / 8000.0;
    if heard > s.next + 3.0 * cfg.interval then heard - cfg.interval else s.next
  }

  /** The feed looked n times, at the window the buffer then gives, and left the clock an interval
      after the last time. */
  predicate LookedInAFeed(
      cfg: SessionConfig, s: Session, pcm: seq<int>, inputs: nat -> TickInput, n: nat, r: Session)
  {
    var start := StartOf(cfg, s, pcm);
    var window := Tail(cfg, Received(cfg, s, pcm));
    && Frames(r.log) == Frames(s.log) + Looks(start, cfg.interval, window, inputs, 0, n)
    && r.next == Later(start, cfg.interval, n)
  }

  /** On every run, for any chunk of audio: what a feed looks at, tick for tick, at most four of them;
      all ticks so far at least an interval apart; the window the longest suffix of all the audio that
      fits both the window's length and the buffer; and a clock that, unless the call ends, is left
      ahead of the audio by at most an interval, so that no tick was due and not made. */
  lemma EveryFeedTicksOnTime(cfg: SessionConfig, es: seq<Event>, pcm: seq<int>, inputs: nat -> TickInput)
      returns (n: nat)
    requires cfg.interval > 0.0 && !Played(cfg, es).finished
    ensures var s, r := Played(cfg, es), Played(cfg, es + [Feed(pcm, inputs)]);
            && n <= 4 && LookedInAFeed(cfg, s, pcm, inputs, n, r)
            && Spaced(cfg, Frames(r.log))
            && (!r.finished ==> Audio(r) < r.next <= Audio(r) + cfg.interval)
            && WindowIsLatest(cfg, s, pcm, AudioFed(es) + pcm)
  {
    PlayedOnce(cfg, es, Feed(pcm, inputs));
    RunOnTime(cfg, es);
    n := FeedTicksOnTime(cfg, Played(cfg, es), pcm, inputs, AudioFed(es));
  }

  lemma PlayedOnce(cfg: SessionConfig, es: seq<Event>, e: Event)
    requires cfg.interval > 0.0
    ensures Played(cfg, es + [e]) == Next(cfg, Played(cfg, es), e)
  {
    assert (es + [e])[..|es|] == es;
  }

  predicate WindowIsLatest(cfg: SessionConfig, s: Session, pcm: seq<int>, fed: seq<int>) {
    cfg.bufferSamples > 0 && cfg.windowMs > 0 ==> Tail(cfg, Received(cfg, s, pcm)) == Latest(fed, Reach(cfg))
  }

  lemma FeedTicksOnTime(cfg: SessionConfig, s: Session, pcm: seq<int>, inputs: nat -> TickInput, fed: seq<int>)
      returns (n: nat)
    requires cfg.interval > 0.0 && !s.finished && s in OnTime(cfg, fed)
    ensures var r := Fed(cfg, s, pcm, inputs);
            && n <= 4 && LookedInAFeed(cfg, s, pcm, inputs, n, r)
            && Spaced(cfg, Frames(r.log))
            && (!r.finished ==> Audio(r) < r.next <= Audio(r) + cfg.interval)
            && WindowIsLatest(cfg, s, pcm, fed + pcm)
  {
    var s1 := CaughtUp(cfg, Received(cfg, s, pcm));
    ReceivedOnTime(cfg, s, pcm, fed);
    TicksKeepTime(cfg, s1, inputs, 0);
    n := TicksLook(cfg, s1, inputs, 0);
    StartsRight(cfg, s, pcm);
    ReceivesTheLatest(cfg, s, pcm, fed);
    assert Fed(cfg, s, pcm, inputs) == Ticks(cfg, s1, inputs, 0);
  }

  lemma StartsRight(cfg: SessionConfig, s: Session, pcm: seq<int>)
    ensures var s1 := CaughtUp(cfg, Received(cfg, s, pcm));
            s1.next == StartOf(cfg, s, pcm) && s1.log == s.log && s1.data == Received(cfg, s, pcm).data
  {
  }

  lemma ReceivesTheLatest(cfg: SessionConfig, s: Session, pcm: seq<int>, fed: seq<int>)
    requires !s.finished && s in OnTime(cfg, fed)
    ensures WindowIsLatest(cfg, s, pcm, fed + pcm)
  {
    if cfg.bufferSamples > 0 && cfg.windowMs > 0 {
      LatestOfMore(fed, pcm, cfg.bufferSamples);
      LatestOfLatest(fed + pcm, cfg.bufferSamples, 8 * cfg.windowMs);
    }
  }

  /** How far back a window can reach. */
  function Reach(cfg: SessionConfig): nat
    requires cfg.bufferSamples > 0 && cfg.windowMs > 0
  {
    if cfg.bufferSamples < 8 * cfg.windowMs then cfg.bufferSamples else 8 * cfg.windowMs
  }
}
