/** The session as the source writes it: an object that owns the machine, the buffer and the
    executor, and updates its fields. Each method is proved equal to its function in Session. */
module AgentSession {
  import opened Prelude
  import opened CallFsm
  import opened Session

  class RollingBuffer {
    const max: int
    var data: seq<int>

    constructor (max: int)
      ensures this.max == max && data == []
    {
      this.max := max;
      data := [];
    }

    method Write(pcm: seq<int>)
      modifies this
      ensures data == Suffix(old(data) + pcm, max)
    {
      data := Suffix(data + pcm, max);
    }

    method TailOf(ms: int) returns (window: seq<int>)
      ensures window == Suffix(data, 8 * ms)
    {
      var n := 8000 * ms / 1000;
      window := Suffix(data, n);
    }
  }

  /** The single slot a Tier 2 job is run in: at once, or by a thread that ends when it likes. */
  class Tier2Executor {
    const inlineJobs: bool
    var slot: Slot

    constructor (inlineJobs: bool)
      ensures this.inlineJobs == inlineJobs && slot == Empty
    {
      this.inlineJobs := inlineJobs;
      slot := Empty;
    }

    /** `outcome` is how the job ends if it is run here and now. */
    method Submit(kind: Kind, outcome: Outcome) returns (dropped: bool)
      modifies this
      ensures dropped == (old(slot).Running? && !inlineJobs)
      ensures slot == if inlineJobs then Ready(kind, outcome) else Running(kind)
    {
      dropped := slot.Running? && !inlineJobs;
      if inlineJobs {
        slot := Ready(kind, outcome);
      } else {
        slot := Running(kind);
      }
    }

    /** The thread ends. */
    method Finish(outcome: Outcome)
      modifies this
      ensures slot == if old(slot).Running? then Ready(old(slot).kind, outcome) else old(slot)
    {
      if slot.Running? {
        slot := Ready(slot.kind, outcome);
      }
    }

    method Poll() returns (answer: Option<(Kind, Outcome)>)
      modifies this
      ensures old(slot).Ready? ==> slot == Empty && answer == Some((old(slot).kind, old(slot).outcome))
      ensures !old(slot).Ready? ==> slot == old(slot) && answer == None
    {
      if !slot.Ready? {
        return None;
      }
      answer := Some((slot.kind, slot.outcome));
      slot := Empty;
    }
  }

  class AgentSession {
    const cfg: SessionConfig
    const fsm: CallStateMachine
    const buffer: RollingBuffer
    const executor: Tier2Executor
    var samplesSeen: nat
    var nextClassifyAt: real
    var finished: bool
    var menuWakeDue: Option<real>
    var tier2Kind: Option<Kind>
    var log: Log

    ghost predicate Valid() {
      && cfg.interval > 0.0
      && fsm.cfg == cfg.fsm
      && buffer.max == cfg.bufferSamples
      && executor.inlineJobs == cfg.inlineJobs
    }

    ghost function View(): Session
      reads this, fsm, buffer, executor
    {
      Session(samplesSeen, nextClassifyAt, finished, menuWakeDue, tier2Kind, executor.slot, fsm.View(),
              buffer.data, log)
    }

    constructor (cfg: SessionConfig)
      requires cfg.interval > 0.0
      ensures Valid() && this.cfg == cfg && View() == OPENED
      ensures fresh(fsm) && fresh(buffer) && fresh(executor)
    {
      this.cfg := cfg;
      var machine := new CallStateMachine(cfg.fsm);
      var rolling := new RollingBuffer(cfg.bufferSamples);
      var slot := new Tier2Executor(cfg.inlineJobs);
      fsm, buffer, executor := machine, rolling, slot;
      samplesSeen, nextClassifyAt, finished := 0, 0.0, false;
      menuWakeDue, tier2Kind, log := None, None, Start;
    }

    method FeedAudio(pcm: seq<int>, inputs: nat -> TickInput)
      requires Valid()
      modifies this, fsm, buffer, executor
      ensures View() == Fed(cfg, old(View()), pcm, inputs)
    {
      if finished {
        return;
      }
      TakeAudio(pcm);
      RunDueTicks(inputs);
    }

    /** `feed_audio` up to its loop: store the chunk, and skip ticks if too many are due. */
    method TakeAudio(pcm: seq<int>)
      requires Valid()
      modifies this, buffer
      ensures View() == CaughtUp(cfg, Received(cfg, old(View()), pcm))
    {
      buffer.Write(pcm);
      samplesSeen := samplesSeen + |pcm|;
      var audio := samplesSeen as real / 8000.0;
      if audio - nextClassifyAt > 3.0 * cfg.interval {
        nextClassifyAt := audio - cfg.interval;
      }
    }

    /** The loop of `feed_audio`. */
    method RunDueTicks(inputs: nat -> TickInput)
      requires Valid() && !finished && Audio(View()) - nextClassifyAt <= Slack(cfg, 0)
      modifies this, fsm, executor
      ensures View() == Ticks(cfg, old(View()), inputs, 0)
    {
      ghost var result := Ticks(cfg, View(), inputs, 0);
      var k := 0;
      while samplesSeen as real / 8000.0 >= nextClassifyAt
        invariant k <= 4 && !finished
        invariant Audio(View()) - nextClassifyAt <= Slack(cfg, k)
        invariant result == Ticks(cfg, View(), inputs, k)
        decreases 4 - k
      {
        ghost var before := View();
        TickAndAdvance(inputs(k));
        OneTick(cfg, before, inputs, k);
        if finished {
          return;
        }
        k := k + 1;
      }
    }

    /** The body of the loop above, up to its exit. */
    method TickAndAdvance(inp: TickInput)
      requires Valid()
      modifies this, fsm, executor
      ensures View() == Advanced(cfg, old(View()), inp)
      ensures AudioSide(View()) == AudioSide(Advanced(cfg, old(View()), inp))
    {
      RunTick(nextClassifyAt, inp);
      nextClassifyAt := nextClassifyAt + cfg.interval;
    }

    method RunTick(now: real, inp: TickInput)
      requires Valid()
      modifies this, fsm, executor
      ensures View() == Ticked(cfg, old(View()), now, inp)
    {
      var window := buffer.TailOf(cfg.windowMs);
      Emit(FrameClassified(Look(now, inp.sound, inp.confidence, window)));
      var before := fsm.state;
      var action := fsm.Observe(inp.sound, inp.confidence, now);
      EmitStateChange(before, now);
      Dispatch(action, now, inp);
      FireMenuWake(now, inp);
      PollTier2(now, inp);
    }

    method FireMenuWake(now: real, inp: TickInput)
      requires Valid()
      modifies this, executor
      ensures View() == WakeFired(cfg, old(View()), now, inp)
    {
      if menuWakeDue != None && now >= menuWakeDue.value {
        menuWakeDue := None;
        if fsm.state == IvrMenu && tier2Kind == None {
          StartJob(MenuJob, now, inp);
        }
      }
    }

    method Emit(n: Note)
      modifies this`log
      ensures View() == Emitted(old(View()), n)
    {
      log := After(log, n);
    }

    method EmitStateChange(before: CallState, now: real)
      modifies this`log
      ensures View() == ChangeEmitted(old(View()), before, now)
    {
      if fsm.state != before {
        Emit(StateChanged(now, before, fsm.state));
      }
    }

    method Dispatch(action: Action, now: real, inp: TickInput)
      requires Valid()
      modifies this, fsm, executor
      ensures View() == Dispatched(cfg, old(View()), action, now, inp)
    {
      match action {
        case NoAction =>
        case WakeTier2Menu => menuWakeDue := Some(now + cfg.menuCollect);
        case WakeTier2Probe =>
          if tier2Kind == None {
            StartJob(ProbeJob, now, inp);
          }
        case Bridge => BridgeCall(now, inp.handoff);
        case Fail => FailCall(now, "non_connect");
      }
    }

    /** `_start_menu` and `_start_probe`. */
    method StartJob(kind: Kind, now: real, inp: TickInput)
      requires Valid()
      modifies this, executor
      ensures View() == JobStarted(cfg, old(View()), kind, now, inp.outcome)
    {
      Emit(Tier2Woken(now, kind));
      tier2Kind := Some(kind);
      var dropped := executor.Submit(kind, inp.outcome);
      if dropped {
        Emit(JobDropped);
      }
    }

    method PollTier2(now: real, inp: TickInput)
      requires Valid()
      modifies this, fsm, executor
      ensures View() == Polled(cfg, old(View()), now, inp)
    {
      if tier2Kind == None {
        return;
      }
      if inp.arrived {
        executor.Finish(inp.outcome);
      }
      var answer := executor.Poll();
      if answer == None {
        return;
      }
      var (submittedAs, outcome) := answer.value;
      var kind := tier2Kind.value;
      tier2Kind := None;
      Emit(JobAnswered(kind, submittedAs));
      match outcome {
        case Raised(NotImplemented) => FailCall(now, "tier2_not_implemented");
        case Raised(CircuitOpen) => FailCall(now, "tier2_unavailable");
        case Raised(Unavailable) =>
          if kind == ProbeJob {
            FailCall(now, "tier2_unavailable");
          }
        case Raised(OtherError) =>
          if kind == ProbeJob {
            FailCall(now, "tier2_error");
          }
        case Value(digits, isHuman) =>
          if kind == MenuJob {
            ApplyMenu(digits, now);
          } else {
            ApplyProbe(isHuman, now, inp);
          }
      }
    }

    method ApplyMenu(digits: string, now: real)
      requires Valid()
      modifies this`log, fsm
      ensures View() == MenuApplied(cfg, old(View()), digits, now)
    {
      if digits == "" {
        Emit(MenuAbstained);
        fsm.NoteMenuAbstained();
        return;
      }
      Emit(DtmfSent(now, digits));
      fsm.NoteMenuAction(now);
    }

    method ApplyProbe(isHuman: bool, now: real, inp: TickInput)
      requires Valid()
      modifies this, fsm, executor
      ensures View() == ProbeApplied(cfg, old(View()), isHuman, now, inp)
    {
      Emit(ProbeResult(now, isHuman));
      var before := fsm.state;
      var followUp := fsm.TakeProbeResult(isHuman, now);
      EmitStateChange(before, now);
      Dispatch(followUp, now, inp);
    }

    method BridgeCall(now: real, handoff: Handoff)
      modifies this, fsm
      ensures View() == BridgedOver(old(View()), now, handoff)
    {
      Emit(HumanWasDetected(now));
      Emit(HookBridge(handoff));
      match handoff {
        case Impossible(reason) =>
          FailCall(now, reason);
          return;
        case Broken =>
          FailCall(now, "handoff_error");
          return;
        case Started =>
      }
      var before := fsm.state;
      fsm.NoteBridged();
      EmitStateChange(before, now);
      Emit(BridgeStarted(now));
      before := fsm.state;
      fsm.NoteCompleted();
      EmitStateChange(before, now);
      Emit(CallCompleted(now));
      finished := true;
    }

    method FailCall(now: real, reason: string)
      modifies this
      ensures View() == FailedWith(old(View()), now, reason)
    {
      Emit(CallFailed(now, reason));
      finished := true;
      Emit(HookFail(reason));
    }

    method AbortCall(reason: string)
      modifies this
      ensures View() == Aborted(old(View()), reason)
    {
      if finished {
        return;
      }
      FailCall(samplesSeen as real / 8000.0, reason);
    }
  }
}
