# DialPass, verified

DialPass places a phone call for a user, navigates the menu, waits in the queue, and brings the
user in when a human answers. This project models its stateful cores in Dafny and proves what
they keep on every run. `dafny verify dfyconfig.toml` checks everything.

| files | core |
|---|---|
| `CallFsm`, `FsmRuns`, `FsmLabels`, `FsmJournal` | the call state machine: its class, what its debouncing and cooldowns add up to over runs, what each label does, and its refinement of a machine without counters |
| `Session`, `AgentSession`, `SessionRuns`, `SessionAnswers`, `SessionPace`, `SessionTurns`, `SessionClock`, `SessionDrive` | one call: audio clock, buffer, single Tier 2 job, deferred menu wake, handoff, failure routes |
| `SessionFeeds`, `SessionPresses`, `SessionRail`, `SessionLate`, `SessionStays` | what a call can do at its worst: exact conditions, and runs that meet them |
| `CircuitBreaker` | the breaker all calls share, as interleaved locked steps |
| `Registry`, `RegistryRuns`, `RegistryCare`, `RegistryLegs`, `RegistryFates`, `RegistryUsers`, `CallRegistry` | the application's dictionaries: bridges, sessions, per-group context, redial, teardown, reaper |
| `CallBridge` | the two-way relay, framing and handoff of one call |
| `Telemetry`, `TelemetryPipeline` | sink, queue service, worker and store |
| `Ulaw` | the mu-law codec (section 3 of ITU-T G.711, scaled to 16 bits, encoded to the nearest level) |
| `Prelude` | the option type |

Every stateful core has the same shape. A record holds the fields as one value. One function per
operation gives its effect. A class with the fields themselves is proved, method by method, to
do what the functions say. Runs are sequences of events in any order the system allows, and the
main lemmas speak of all runs.

What the outside decides is a parameter or an event: labels and confidences, Tier 2 answers and
errors and when they arrive, the handoff hook, clocks, sockets, the telephone company, the queue
service and the store. Times and confidences are reals; a sample is 1/8000 of a second.

Where the code and its comments or documents differ, the model follows the code:

- `src/dialpass/resilience/circuit_breaker.py:22` speaks of one trial call in HALF_OPEN; every
  call that begins after the timeout is admitted (`EveryTrialIsAdmitted`, `TwoTrialsAtOnce`).
- `docs/m4-menu-nav.md:85` calls `max_menu_presses` a hard cap; it guards only wakes inside a
  menu, so each entry is good for a press beyond it (`KeypressesAreBounded`), and by coming back
  from the queue a call of any configuration can press any number of keys (`AnyNumberOfKeys`).
- `docs/m8-resilience.md:116` says that a fallback text follows when the user leaves before the
  handoff. It does not between a redial and its pickup, when the group has no bridge, nor while
  the holding line is spoken, when the session has finished and the relay is not open yet
  (`LeavingIsAnsweredExactlyWhen`, `LeavingDuringARedial`, `LeavingDuringTheHoldingLine`), nor for a
  leg that found no bridge for five seconds and gave up, while the call goes on
  (`GivingUpChangesNothing`, `PickedUpTooEarly`). Over runs, `ToldUnlessForgotten` says who is told.
- A call redialed and picked up again goes on without its user, whose leg stays on the old bridge, and
  its handoff is refused (`PickedUpWithoutTheUser`, `NoUserUnlessJoined`, `HandoffToNobodyIsRefused`).
- `src/dialpass/api/media.py:104-106` says that the reaper clears a redirect that never came
  back; it does unless the redirect was reported failed after its leg closed (`AnOrphan`,
  `OrphansAreNeverReaped`).
- A call that fails on its frames may report a second failure in the same tick when jobs are
  threaded, or press a key (`FailsTwice`, `PressesTooLate`).
- The relay can open, and the user be told, when the user is gone (`OpensOnNobody`); and a probe of
  an earlier stay can decide a later one (`OldProbeDecides`).
- A breaker threshold below one acts like one, a buffer limit of zero keeps all audio, and a
  refused handoff uses up the only attempt.

## Model

| member | source | states |
|---|---|---|
| `FsmJournal.CountersRefineTheJournal` | src/dialpass/agent/state.py:118-327 | On every run of frames, verdicts, keypresses, abstains and forced endings, the machine with counters, flags and deadlines has the state and the actions of a machine that keeps none, knows what each label is evidence of by name, and re-reads its whole journal at each frame; its streak is the longest constant suffix of confident labels since the last entry |
| `FsmJournal.StepAgrees` | src/dialpass/agent/state.py:156-229 | One signal, from any machine and journal that agree: same action, and they agree again |
| `FsmJournal.ObservedDecides` | src/dialpass/agent/state.py:156-176 | One frame through the counting machine leads where the declarative rules of the states lead, and changes each field as the journal entry written for it says |
| `FsmJournal.CountingAgrees` | src/dialpass/agent/state.py:118-132 | Counting a frame keeps the streak equal to the trail of the confident labels; a low-confidence frame brings no evidence |
| `FsmJournal.Trail` | src/dialpass/agent/state.py:118-132 | The length of the longest constant suffix: constant as far as it goes, and no further |
| `FsmJournal.PromptEndedGrows` | src/dialpass/agent/state.py:285-299 | The gap flag says that some frame since the last entry, keypress or wake completed a long enough run of hold sounds |
| `FsmJournal.EveryRewakeFollowsANewPrompt` | src/dialpass/agent/state.py:285-299 | On every run a menu wake raised inside a menu comes from a confident frame, after the prompt had ended since the last entry, press or wake, on the second equal speech label in a row, within the press cap, and a cooldown after the last press |
| `FsmRuns.GapFreeNarrationNeverRewakes` | src/dialpass/agent/state.py:285-299 | Narration without hold sounds, however long and whatever else happens, raises no menu wake while the stay in the menu lasts |
| `FsmRuns.ErasureExactlyWhenPositive` | src/dialpass/agent/state.py:125-126 | Deleting all low-confidence frames from any run of a fresh machine changes neither the final state nor the actions that ask for something, if and only if every frame threshold is positive |
| `FsmRuns.ErasureWhenPositive` | src/dialpass/agent/state.py:125-126 | With positive thresholds the same holds of runs from any state |
| `FsmRuns.SomeFrameLeaks` | src/dialpass/agent/state.py:165-171 | If some threshold is not positive, a run without low-confidence frames leads to a state in which one acts |
| `FsmRuns.TransitionsArePaidFor` | src/dialpass/agent/state.py:134-147 | Over any run, the thresholds of all transitions taken on frames add up to no more than the confident frames: no evidence is spent twice |
| `FsmRuns.StepIsPaidFor` | src/dialpass/agent/state.py:118-176 | One signal raises the streak by at most its own evidence, and a transition on a frame costs its threshold and forfeits the streak |
| `FsmRuns.ProbeSpacing` | src/dialpass/agent/state.py:149-153 | For nondecreasing times, any two probes of a run are as many cooldowns apart in time as they are in number |
| `FsmRuns.SuccessiveProbes` | src/dialpass/agent/state.py:310-327 | From any state, no probe before it is due, and each at least a cooldown after the one before |
| `FsmRuns.StepIsNotBefore` | src/dialpass/agent/state.py:179-193 | No signal asks for a probe before its date, or brings the date forward: every way back from a probe to the queue sets the cooldown |
| `FsmRuns.MusiclessQueueReachesTheProbe` | src/dialpass/agent/state.py:271-283 | In a menu that gave nothing to press often enough, with both cooldowns over, the two thresholds worth of confident live speech (at least a frame each) bring the probe, whatever faint frames lie between; asked for are positive nonConnectFrames and reenterMenuFrames, lest a faint frame fail the call or lead back to the menu |
| `FsmRuns.SpeechReachesTheProbe` | src/dialpass/agent/state.py:310-316 | The same from any streak, in the menu or already in the queue, with only the missing frames asked for and the same two thresholds positive |
| `FsmLabels.OneSoundLeads` | src/dialpass/agent/state.py:156-327 | One sound that lasts, label by label and from each live state: it leads out of the state in exactly the frame that completes its count, to the place and with the wish of a table written label by label, or, with no way out or before that, nowhere |
| `FsmLabels.OneSoundFromTheStart` | src/dialpass/agent/state.py:236-254 | A call that hears one sound only leaves dialing for a menu that is asked about if and only if the sound is menu speech, a menu waiting for input or live speech, and in the frame that completes that count; for failure if and only if it is a voicemail or an error tone; for the queue if and only if it is hold music; and never on any other sound |
| `FsmLabels.OneSoundEndsThePrompt` | src/dialpass/agent/state.py:285-299 | In a menu one sound ends the prompt if and only if it is hold music, a hold interjection or silence and lasts for the gap; alone it never has the menu read |
| `FsmLabels.TwoSoundsReread` | src/dialpass/agent/state.py:285-299 | One sound and then two frames of another have the menu read again if and only if the first is hold music, an interjection or silence for the length of the gap and the second any kind of speech, the cooldown is over and there is room under the cap |
| `CallFsm.Observed` | src/dialpass/agent/state.py:156-176 | Every frame makes a legal move of the machine, carries no evidence across it, forgets no keypress, and re-reads a menu only below the press cap |
| `CallFsm.HandledDialing` | src/dialpass/agent/state.py:236-254 | Dialing is left only for a menu that is asked about, for the queue or for failure, with the streak gone, and no keypress is forgotten |
| `CallFsm.HandledMenu` | src/dialpass/agent/state.py:256-299 | A menu is left only for the queue or for failure, with the streak gone; it is asked about again only below the press cap |
| `CallFsm.HandledHold` | src/dialpass/agent/state.py:301-317 | The queue is left only for a menu or a probe, each asked for, or for failure, with the streak gone |
| `CallFsm.HandledEvaluating` | src/dialpass/agent/state.py:319-327 | Frames lead from a probe only back to the queue or to failure, and ask for no wake and no handoff |
| `CallFsm.CallStateMachine.StreakFor` | src/dialpass/agent/state.py:118-132 | The new fields and the action are those of the function the run lemmas are about: counting a frame |
| `CallFsm.CallStateMachine.Enter` | src/dialpass/agent/state.py:134-147 | The new fields and the action are those of the function the run lemmas are about: entering a state: streak gone, the menu flags reset on a menu |
| `CallFsm.CallStateMachine.FallBackToHold` | src/dialpass/agent/state.py:149-153 | The new fields and the action are those of the function the run lemmas are about: going back to the queue with a cooldown |
| `CallFsm.CallStateMachine.Observe` | src/dialpass/agent/state.py:156-176 | The new fields and the action are those of the function the run lemmas are about: one frame |
| `CallFsm.CallStateMachine.OnDialing` | src/dialpass/agent/state.py:236-254 | The new fields and the action are those of the function the run lemmas are about: a frame while dialing |
| `CallFsm.CallStateMachine.OnIvrMenu` | src/dialpass/agent/state.py:256-299 | The new fields and the action are those of the function the run lemmas are about: a frame in a menu |
| `CallFsm.CallStateMachine.OnOnHold` | src/dialpass/agent/state.py:301-317 | The new fields and the action are those of the function the run lemmas are about: a frame in the queue |
| `CallFsm.CallStateMachine.OnEvaluatingSpeech` | src/dialpass/agent/state.py:319-327 | The new fields and the action are those of the function the run lemmas are about: a frame while a probe is out |
| `CallFsm.CallStateMachine.TakeProbeResult` | src/dialpass/agent/state.py:179-193 | The new fields and the action are those of the function the run lemmas are about: a verdict, ignored outside a probe |
| `CallFsm.CallStateMachine.NoteMenuAction` | src/dialpass/agent/state.py:195-205 | The new fields and the action are those of the function the run lemmas are about: a keypress, counted only in a menu |
| `CallFsm.CallStateMachine.NoteMenuAbstained` | src/dialpass/agent/state.py:207-213 | The new fields and the action are those of the function the run lemmas are about: a fruitless reading, counted only in a menu |
| `CallFsm.CallStateMachine.NoteBridged` | src/dialpass/agent/state.py:215-219 | The new fields and the action are those of the function the run lemmas are about: the handoff, only from a found human |
| `CallFsm.CallStateMachine.NoteCompleted` | src/dialpass/agent/state.py:221-224 | The new fields and the action are those of the function the run lemmas are about: done, from any state |
| `CallFsm.CallStateMachine.NoteFailed` | src/dialpass/agent/state.py:226-229 | The new fields and the action are those of the function the run lemmas are about: failed, from any state |
| `SessionRuns.OneJobAtATime` | src/dialpass/agent/session.py:169-217 | On every run, whatever Tier 2, the classifier and the hook answer: the slot holds a job exactly when the session waits for one, of that kind; every start met an empty slot; every job was answered at most once, as what it was asked for |
| `SessionRuns.KeypressesAreBounded` | src/dialpass/agent/session.py:245-258 | On every run, with E menu entries: no keys if E is 0; else the keys reported, and so those counted, are at most the cap plus E when jobs are threaded and menus are heard out for some time, and at most the larger of the cap and one, plus E - 1, when jobs are inline or there is no collecting time |
| `SessionPresses.CapAloneIsNoBound` | src/dialpass/agent/session.py:183-187 | For every configuration some run reports more keys than the cap |
| `SessionPresses.AnyNumberOfKeys` | src/dialpass/agent/state.py:301-305 | For every configuration and every n, some run enters menus n + 1 times and presses a key in each |
| `SessionRail.RailIsReached` | src/dialpass/agent/session.py:169-187 | For every number of entries E and every configuration, some run presses exactly as many keys as that sharper bound allows: with threaded jobs a wake due while a slow answer was awaited is served after it. Asked of the configuration: that a menu has room for one fruitless reading before silence means the queue, or that the cap is zero, or is one with no overlapping wakes |
| `SessionRuns.OneEnding` | src/dialpass/agent/session.py:123-145 | On every run: completion excludes failure; a completion reports one handoff; every failure report has its failure hook; at most one failure with inline jobs, at most two with threaded ones; no frame is classified after the end; an unfinished call is in a live state |
| `SessionRuns.FinishedIsFinal` | src/dialpass/agent/session.py:300-306 | Neither audio nor an abort changes a finished session in any way |
| `SessionRuns.CompletionNeedsAHuman` | src/dialpass/agent/session.py:260-290 | A completed call went from the queue to a probe, the probe heard a human, the handoff began, and the log ends in exactly the notes from the verdict to the completion, in order |
| `SessionRuns.ReplayEndsInAnEdge` | src/dialpass/agent/session.py:313-318 | The reported state changes chain up, and the last is an edge of the machine |
| `SessionRuns.TwoFailuresInOneTick` | src/dialpass/agent/session.py:164-177 | From any state that satisfies the invariant of all runs, one tick reports two failures if and only if the frames say the call never connected and the job in flight is answered, in that tick, by an error that ends a call: any error of a probe, a missing implementation or an open breaker |
| `SessionLate.FailsTwice` | src/dialpass/agent/session.py:164-177 | A two-tick run that reports two failures |
| `SessionLate.KeyAfterFailure` | src/dialpass/agent/session.py:245-258 | A tick reports a key after its failure if and only if its frames fail the call and a menu job already in flight is answered with digits in the same tick |
| `SessionLate.PressesTooLate` | src/dialpass/agent/session.py:164-177 | A two-tick run that presses a key after the call has failed |
| `SessionRuns.PollFailures` | src/dialpass/agent/session.py:210-243 | Polling adds a second failure report exactly when the session has already failed and the answer is an error of a probe, a missing implementation or an open breaker |
| `SessionAnswers.ErrorEndsTheCallExactlyWhen` | src/dialpass/agent/session.py:219-240 | An error that answers a job ends the call if and only if the job is a probe or the error is a missing implementation or an open breaker; what is reported, with which reason, and that nothing else moves |
| `SessionAnswers.TickEndsTheCallExactlyWhen` | src/dialpass/agent/session.py:147-177 | A tick in which an error answers the job in flight ends the call if and only if the frame says it never connected, or the job is a probe, or the error is one of those two |
| `SessionAnswers.MenuIsReadExactlyWhenDue` | src/dialpass/agent/session.py:147-208 | A menu the machine wants read is read in the first tick not before the end of the collecting time, if the call is still in a menu and no job is in flight then; else the wish is gone; a new wish replaces an old one |
| `SessionAnswers.NoConnectionFailsTheCall` | src/dialpass/agent/session.py:180-191 | A frame that says the call never connected fails it at once, reported and with its hook, as a call that did not connect |
| `SessionAnswers.AbortFailsTheCall` | src/dialpass/agent/session.py:300-306 | An abort fails a call that is not over, at the time of the audio, for the reason given |
| `SessionAnswers.KeysArePressedAsAnswered` | src/dialpass/agent/session.py:245-258 | The digits of an answer are reported as they came, no digits as an abstention; the machine notes either only while in a menu |
| `SessionAnswers.LateVerdictIsIgnored` | src/dialpass/agent/state.py:186-187 | A verdict is reported as it came, and moves nothing if the machine waits for none |
| `SessionAnswers.NoHumanLeadsBackToTheQueue` | src/dialpass/agent/session.py:260-265 | A verdict of no human leads to the queue, with the cooldown |
| `SessionAnswers.AHumanEndsTheCall` | src/dialpass/agent/session.py:260-290 | A verdict of a human ends the call: completed with the notes of the handoff, or failed for the reason the hook gives, or for an error in it |
| `SessionRuns.RunKeeps` | src/dialpass/agent/session.py:123-306 | The invariant behind these: single flight, replayed states, the keypress potential and the ending books, kept by every feed and abort |
| `SessionRuns.TickKeeps` | src/dialpass/agent/session.py:147-177 | Every tick keeps that invariant |
| `SessionRuns.PolledKeeps` | src/dialpass/agent/session.py:210-243 | Polling keeps it, whatever the answer |
| `SessionRuns.HandoffKeeps` | src/dialpass/agent/session.py:267-290 | The handoff keeps it, whether it begins, is impossible or breaks |
| `SessionPace.MenusAreHeardOut` | src/dialpass/agent/session.py:169-175 | On every run each menu job starts at least the collecting time after the last entry into a menu |
| `SessionPace.ProbesAreSpaced` | src/dialpass/agent/session.py:185-187 | On every run the probes actually started are as many cooldowns apart in time as they are in number |
| `SessionPace.EveryRunIsPaced` | src/dialpass/agent/session.py:164-191 | The invariant behind both: pending wakes and the machine's cooldowns against the last entry and the last probe |
| `SessionPace.StayIsProbedExactlyWhenFree` | src/dialpass/agent/session.py:185-187 | A stay in which the call waits for a probe has a probe of its own if and only if no job was in flight when it was entered; no later tick starts one |
| `SessionPace.VerdictIsOwnExactlyWhenProbed` | src/dialpass/agent/session.py:260-265 | While the session waits for a probe, that probe was started in some stay, no later than the present one, and it is the present one's own if and only if a probe was started in this stay |
| `SessionStays.OldProbeDecides` | src/dialpass/agent/session.py:260-265 | A run that completes on the verdict of a probe from an earlier stay, its last stay having none of its own |
| `SessionPace.TickPaces` | src/dialpass/agent/session.py:147-177 | Every tick keeps it, and a probe of its own is started for a stay by the tick that enters it or not at all |
| `SessionDrive.SessionsRunTheMachine` | src/dialpass/agent/session.py:147-265 | On every run of a session the machine is exactly where the signals read off the log take a fresh one: frames with label, confidence and time, verdicts, keys, abstains, the handoff. Their times never go back, and the frames among them are those the session looked at |
| `SessionDrive.TickInStep` | src/dialpass/agent/session.py:147-177 | Every tick keeps the machine, the times and the transition costs in step with the log |
| `SessionDrive.ReportedChangesArePaidFor` | src/dialpass/agent/session.py:313-318 | On every run the thresholds of the state changes a session reported after frames add up to no more than the confident frames it reported |
| `SessionDrive.ProbesAskedForAreSpaced` | src/dialpass/agent/session.py:185-187 | On every run the probes a session's machine asks for are as many cooldowns apart in time as they are in number |
| `SessionDrive.SessionRewakesFollowANewPrompt` | src/dialpass/agent/session.py:183-184 | Every tick of every run, within feeds too, that finds the call in a menu has the menu read again only on the evidence of the call's own log: prompt ended, the same speech twice, room under the cap, cooldown over |
| `SessionDrive.EveryTickIsInStep` | src/dialpass/agent/session.py:141-151 | On every run, before each tick of the feed under way, the session is in step with its log |
| `SessionTurns.TicksAreTurns` | src/dialpass/agent/session.py:141-145 | The tick loop of a feed is so many turns, at most four, all of them due, so that the two results above speak of every tick there is |
| `SessionDrive.EveryRunIsInStep` | src/dialpass/agent/session.py:123-145 | Every run of a session is in step with its log |
| `SessionClock.EveryFeedTicksOnTime` | src/dialpass/agent/session.py:123-151 | On every run, for any chunk: exactly what the feed looks at, tick for tick, at most four of them, each an interval after the other from where the clock stood, or from an interval back if and only if the audio is more than three intervals ahead; each at its own input and at the longest suffix of all audio fed that fits window and buffer; ticks at least an interval apart throughout; and an unfinished session ends the feed with audio < next <= audio + interval |
| `SessionClock.TicksKeepTime` | src/dialpass/agent/session.py:141-145 | The loop leaves the clock ahead of the audio by at most an interval and touches neither audio nor count |
| `SessionClock.TicksLook` | src/dialpass/agent/session.py:141-151 | The loop adds at most four frames and moves the clock on by as many intervals, touching neither the audio nor the frames before |
| `SessionClock.LooksAre` | src/dialpass/agent/session.py:147-155 | The i-th of these frames comes i intervals after the first and is the classifier's verdict of that tick on the same window |
| `SessionClock.BufferIsBoundedExactlyWhenItsLimitIsPositive` | src/dialpass/agent/buffer.py:14-21 | The slice from minus the limit bounds the buffer if and only if the limit is positive; a limit of zero keeps everything |
| `SessionClock.SuffixBegins` | src/dialpass/agent/buffer.py:14-21 | Where the slice from minus a number of samples begins, for positive, zero and negative numbers |
| `SessionClock.LatestOfLatest` | src/dialpass/agent/buffer.py:14-21 | A window cut from a buffer is the window cut from all the audio, by the smaller limit |
| `AgentSession.AgentSession.FeedAudio` | src/dialpass/agent/session.py:123-145 | The whole new session, its log included, is that of the function the run lemmas are about: a chunk of audio |
| `AgentSession.AgentSession.TakeAudio` | src/dialpass/agent/session.py:127-140 | The whole new session, its log included, is that of the function the run lemmas are about: storing a chunk and skipping ahead when far behind |
| `AgentSession.AgentSession.RunDueTicks` | src/dialpass/agent/session.py:141-145 | The whole new session, its log included, is that of the function the run lemmas are about: the tick loop |
| `AgentSession.AgentSession.RunTick` | src/dialpass/agent/session.py:147-177 | The whole new session, its log included, is that of the function the run lemmas are about: one tick |
| `AgentSession.AgentSession.FireMenuWake` | src/dialpass/agent/session.py:169-175 | The whole new session, its log included, is that of the function the run lemmas are about: the deferred menu wake |
| `AgentSession.AgentSession.Dispatch` | src/dialpass/agent/session.py:180-191 | The whole new session, its log included, is that of the function the run lemmas are about: an action |
| `AgentSession.AgentSession.StartJob` | src/dialpass/agent/session.py:194-208 | The whole new session, its log included, is that of the function the run lemmas are about: starting a Tier 2 job |
| `AgentSession.AgentSession.PollTier2` | src/dialpass/agent/session.py:210-243 | The whole new session, its log included, is that of the function the run lemmas are about: polling and routing an answer or error |
| `AgentSession.AgentSession.ApplyMenu` | src/dialpass/agent/session.py:245-258 | The whole new session, its log included, is that of the function the run lemmas are about: a menu answer |
| `AgentSession.AgentSession.ApplyProbe` | src/dialpass/agent/session.py:260-265 | The whole new session, its log included, is that of the function the run lemmas are about: a verdict |
| `AgentSession.AgentSession.BridgeCall` | src/dialpass/agent/session.py:267-290 | The whole new session, its log included, is that of the function the run lemmas are about: the handoff |
| `AgentSession.AgentSession.FailCall` | src/dialpass/agent/session.py:292-298 | The whole new session, its log included, is that of the function the run lemmas are about: failing |
| `AgentSession.AgentSession.AbortCall` | src/dialpass/agent/session.py:300-306 | The whole new session, its log included, is that of the function the run lemmas are about: the external kill switch |
| `AgentSession.AgentSession.EmitStateChange` | src/dialpass/agent/session.py:313-318 | The whole new session, its log included, is that of the function the run lemmas are about: reporting a state change |
| `AgentSession.Tier2Executor.Submit` | src/dialpass/agent/executor.py:53-57 | The slot holds the new job, done at once or running; a job still running is dropped |
| `AgentSession.Tier2Executor.Poll` | src/dialpass/agent/executor.py:59-61 | A finished job is handed out and the slot emptied; otherwise nothing changes |
| `AgentSession.Tier2Executor.Finish` | src/dialpass/agent/executor.py:79-85 | A running job becomes ready with its outcome; anything else stays |
| `AgentSession.RollingBuffer.Write` | src/dialpass/agent/buffer.py:14-17 | The data are the slice from minus the limit of all the data |
| `AgentSession.RollingBuffer.TailOf` | src/dialpass/agent/buffer.py:19-21 | The slice from minus the window length, at 8000 samples a second |
| `CircuitBreaker.BreakerRefinesItsHistory` | src/dialpass/resilience/circuit_breaker.py:46-77 | After any interleaving of overlapping calls and reads, under a clock that never goes back: a call is rejected if and only if as many calls failed since the last success as the threshold (at least one) and the last failure is more recent than the timeout; closed if and only if fewer failed |
| `CircuitBreaker.FieldsMeanTheHistory` | src/dialpass/resilience/circuit_breaker.py:40-42 | What each field is in terms of the history, on every run |
| `CircuitBreaker.ReadsChangeNoDecision` | src/dialpass/resilience/circuit_breaker.py:46-53 | Deleting all state reads from a run leaves a run with the same running calls and the same next decision, although a read writes |
| `CircuitBreaker.ReadsLeaveNoHistory` | src/dialpass/resilience/circuit_breaker.py:46-53 | Reads count neither as success nor as failure |
| `CircuitBreaker.EveryTrialIsAdmitted` | src/dialpass/resilience/circuit_breaker.py:22-22 | With the threshold reached, a call is admitted if and only if the timeout is over, however many trials are already running |
| `CircuitBreaker.TwoTrialsAtOnce` | src/dialpass/resilience/circuit_breaker.py:22-22 | A run in which HALF_OPEN has two trial calls running, against the comment that allows one |
| `CircuitBreaker.LateSuccessCloses` | src/dialpass/resilience/circuit_breaker.py:67-70 | A success that arrives late lets calls through at once, even from OPEN |
| `CircuitBreaker.CircuitBreaker.State` | src/dialpass/resilience/circuit_breaker.py:46-53 | The read, and its lazy move to HALF_OPEN |
| `CircuitBreaker.CircuitBreaker.Admit` | src/dialpass/resilience/circuit_breaker.py:56-58 | The locked check of a call, with the same lazy move |
| `CircuitBreaker.CircuitBreaker.OnSuccess` | src/dialpass/resilience/circuit_breaker.py:67-70 | The locked completion after a success |
| `CircuitBreaker.CircuitBreaker.OnFailure` | src/dialpass/resilience/circuit_breaker.py:72-77 | The locked completion after a failure |
| `CircuitBreaker.CircuitBreaker.Call` | src/dialpass/resilience/circuit_breaker.py:55-65 | A whole call with nothing else going on, whether its body returns, raises or escapes with what is no Exception |
| `TelemetryPipeline.NoEventIsLost` | src/dialpass/telemetry/sqs_sink.py:67-122 | On every run with overflow, raising sends that deliver any subset, partial failures, redelivery, failing stores, failing deletes and a dying worker: each event is found, as often as it was emitted, among overflow-dropped, queued, in hand, send-dropped, with the service, parked or stored |
| `TelemetryPipeline.CountersConserve` | src/dialpass/telemetry/sqs_sink.py:54-62 | Emitted = dropped by overflow + queued + in hand + sent + dropped by sending, on every run |
| `TelemetryPipeline.DrainedMeansStored` | src/dialpass/workers/telemetry_worker.py:26-68 | With nothing queued, in hand, with the service, parked or dropped, every event is in the store as often as it was emitted |
| `TelemetryPipeline.QueueIsBounded` | src/dialpass/telemetry/sqs_sink.py:67-76 | On every run a queue with a limit never holds more than its limit, and one without drops nothing at its door |
| `TelemetryPipeline.DroppedExactlyWhenFull` | src/dialpass/telemetry/sqs_sink.py:67-76 | On every run an emitted event is dropped if and only if there is a limit and exactly as many are queued; otherwise it becomes the last in the queue and no counter moves |
| `TelemetryPipeline.DeliveredTwice` | src/dialpass/telemetry/sqs_sink.py:106-114 | A run that puts one emitted event with the service twice |
| `TelemetryPipeline.StoredTwice` | src/dialpass/workers/telemetry_worker.py:52-68 | A run that stores one emitted event twice: the pipeline is at least once, not exactly once |
| `TelemetryPipeline.RunConserves` | src/dialpass/telemetry/sqs_sink.py:67-122 | The two invariants: each emitted body is in exactly one place of the producer's; each deleted event has been stored as often |
| `TelemetryPipeline.AttemptConserves` | src/dialpass/telemetry/sqs_sink.py:106-120 | An answered attempt moves bodies from the hand to the service and counts them |
| `TelemetryPipeline.SendIsItsSteps` | src/dialpass/telemetry/sqs_sink.py:104-122 | The batch sending of the class is exactly the atomic attempts and the giving up of the system |
| `TelemetryPipeline.DeleteConserves` | src/dialpass/workers/telemetry_worker.py:61-63 | Deleting any part of what is acknowledged loses no event that is not stored |
| `TelemetryPipeline.AcknowledgedEvents` | src/dialpass/workers/telemetry_worker.py:52-61 | The events acknowledged are those just stored, or none if the store failed |
| `Telemetry.AnswerConservesExactlyWhenItNamesItsOwn` | src/dialpass/telemetry/sqs_sink.py:115-119 | Sent plus kept equals the batch if and only if the service names no id that was not sent to it |
| `Telemetry.SendingConserves` | src/dialpass/telemetry/sqs_sink.py:104-122 | Whatever raises and fails on the way, each entry of a batch ends up counted as sent or as dropped |
| `Telemetry.GivenUpExactlyWhenNeverAccepted` | src/dialpass/telemetry/sqs_sink.py:104-122 | An entry is given up if and only if every attempt up to the last retry raised or named it |
| `Telemetry.BatchIsTheFront` | src/dialpass/telemetry/sqs_sink.py:91-102 | A batch is the front of the queue, as long as asked for, at least one and at most ten, or all there is |
| `Telemetry.DrainingConserves` | src/dialpass/telemetry/sqs_sink.py:84-89 | Draining empties the queue and counts every body of it as sent or dropped |
| `Telemetry.OnlyKeeps` | src/dialpass/telemetry/sqs_sink.py:119-119 | The entries kept for a retry are exactly those named, still with different ids |
| `Telemetry.SqsSink.Emit` | src/dialpass/telemetry/sqs_sink.py:67-76 | Queue, or count an overflow; an event that cannot be serialised leaves no trace |
| `Telemetry.SqsSink.NextBatch` | src/dialpass/telemetry/sqs_sink.py:91-102 | The batch is the front of the queue, as long as the limit and the queue allow, and the rest stays in order |
| `Telemetry.SqsSink.Send` | src/dialpass/telemetry/sqs_sink.py:104-122 | The counters after all attempts are those of the sending function |
| `Telemetry.SqsSink.Drain` | src/dialpass/telemetry/sqs_sink.py:84-89 | The sink after the final drain is that of the draining function |
| `Telemetry.TelemetryWorker.Round` | src/dialpass/workers/telemetry_worker.py:40-68 | One poll appends to the store exactly the events that parse, if the store accepts them, and then deletes exactly what is settled |
| `Telemetry.TelemetryWorker.Run` | src/dialpass/workers/telemetry_worker.py:26-68 | Over any polls, a parseable message is deleted only if its event is in the store; the store only grows |
| `Telemetry.DeletedOnlyOnceStored` | src/dialpass/workers/telemetry_worker.py:52-61 | What one round acknowledges is unparseable or just stored |
| `Telemetry.DeletedExactlyWhenSettled` | src/dialpass/workers/telemetry_worker.py:40-63 | A round deletes a message if and only if it was received and is no event, or the store accepted the events |
| `Telemetry.StoredInOrder` | src/dialpass/workers/telemetry_worker.py:40-54 | What a round stores are the events of the messages that parse, in their order |
| `Ulaw.EncodesToTheNearest` | src/dialpass/telephony/audio.py:40-48 | For every integer sample, no byte stands for a level nearer to it than the byte chosen, and of two levels equally near the lower is chosen |
| `Ulaw.ErrorIsBounded` | src/dialpass/telephony/audio.py:40-48 | 34 times the error is at most the amplitude plus 132, for every integer sample cut to 16 bits |
| `Ulaw.ErrorBoundIsTight` | src/dialpass/telephony/audio.py:40-48 | At sample 4 that bound is reached |
| `Ulaw.QuantisationIsMonotone` | src/dialpass/telephony/audio.py:40-48 | A larger sample never decodes to a smaller level |
| `Ulaw.ByteRoundTrip` | src/dialpass/telephony/audio.py:34-52 | Encoding a decoded byte gives it back, 0x7F as 0xFF |
| `Ulaw.BufferRoundTrip` | src/dialpass/telephony/audio.py:34-52 | The same for buffers of any length, byte for byte |
| `Ulaw.AudioRoundTrip` | src/dialpass/telephony/audio.py:34-52 | Decoded audio is unchanged by a further trip |
| `Ulaw.SearchSorted` | src/dialpass/telephony/audio.py:43-43 | The first index whose level is not below the sample |
| `Ulaw.SortedTableExists` | src/dialpass/telephony/audio.py:28-29 | A sorted table with its bytes exists; the other lemmas hold of each one, whichever zero sorts first |
| `Ulaw.DecodeIsInjectiveButForZero` | src/dialpass/telephony/audio.py:49-50 | Two bytes share a level if and only if they are the same or are 0x7F and 0xFF |
| `Ulaw.MagnitudesAreOrdered` | src/dialpass/telephony/audio.py:16-21 | The 128 magnitudes rise strictly with their bits, from 0 to 32124 |
| `Ulaw.BuildDecodeTable` | src/dialpass/telephony/audio.py:13-22 | The table filled in place holds at each byte the level of the closed form |
| `Ulaw.BitsOfAByte` | src/dialpass/telephony/audio.py:17-19 | The bit masks and shifts of the table are the divisions used here |
| `CallBridge.UserGetsExactlyTheRelay` | src/dialpass/agent/bridge.py:104-111 | On every run, all batches handed to the user's socket and the queue equal, in order, exactly the agent's frames heard while the relay was open and the user bound |
| `CallBridge.AgentGetsExactlyItsDue` | src/dialpass/agent/bridge.py:113-140 | Likewise towards the agent: our own clips, cut into frames, and the user's frames once the relay is open |
| `CallBridge.AgentHearsOnlyUsBeforeTheHandoff` | src/dialpass/agent/bridge.py:113-117 | Before the relay opens no user frame reaches the agent, and the user hears nothing |
| `CallBridge.RelayNeverCloses` | src/dialpass/agent/bridge.py:178-214 | Once open the relay stays open, and the user has been told exactly once |
| `CallBridge.OpensOnNobodyExactlyWhen` | src/dialpass/agent/bridge.py:197-214 | The relay opens, and the user is told so, with no user bound if and only if a holding line was spoken and the user left since the handoff began and did not come back |
| `CallBridge.OpensOnNobody` | src/dialpass/agent/bridge.py:197-214 | A run in which that happens |
| `CallBridge.RefusedHandoffIsSpent` | src/dialpass/agent/bridge.py:182-188 | A handoff refused for want of a user can never be had again: later attempts do nothing and the relay stays shut |
| `CallBridge.HandoffToNobodyIsRefused` | src/dialpass/agent/bridge.py:178-188 | On a run in which no user was ever bound a handoff opens and schedules nothing, and the first attempt reports the user gone |
| `CallBridge.ProbeHearsExactlyItsDue` | src/dialpass/agent/bridge.py:104-108 | On every run the frames put into the inbound queue of a probe are, in order, exactly those the business sent since the probe began; there is no queue when no probe is under way |
| `CallBridge.SessionHearsExactlyItsDue` | src/dialpass/agent/bridge.py:104-111 | On every run the session is fed, in order and once, exactly the frames the business sent while the session had not finished |
| `CallBridge.HandoffAnswers` | src/dialpass/agent/bridge.py:178-195 | On every run, what asking for the handoff answers: already begun if it was, else refused, scheduled or open, as the history makes it |
| `CallBridge.PressingSelects` | src/dialpass/agent/bridge.py:120-131 | A keypress asks for a redirect if and only if one of the twelve keys is in it and a leg is bound, and then for those keys |
| `CallBridge.KeysAreSelected` | src/dialpass/agent/bridge.py:124-124 | What can be pressed of some digits is their selection, in order, of the twelve keys |
| `CallBridge.RedirectIsDated` | src/dialpass/agent/bridge.py:124-129 | On every run the hub waits for a redirect exactly since the last keypress that asked for one, the end of the wait being left to the application |
| `CallBridge.HubMatchesHistory` | src/dialpass/agent/bridge.py:178-214 | Bindings, relay, handoff flag and notifications are those of the history |
| `CallBridge.CutsJoinAgain` | src/dialpass/agent/bridge.py:133-140 | The frames of a clip joined are the clip; all are 160 bytes but the last, which is not empty |
| `CallBridge.Bridge.OnAgentAudio` | src/dialpass/agent/bridge.py:104-111 | The whole new hub is that of the function the run lemmas are about: a frame from the business |
| `CallBridge.Bridge.OnUserAudio` | src/dialpass/agent/bridge.py:113-117 | The whole new hub is that of the function the run lemmas are about: a frame from the user |
| `CallBridge.Bridge.PressDtmf` | src/dialpass/agent/bridge.py:120-131 | The whole new hub is that of the function the run lemmas are about: a keypress, refused if nothing of it can be pressed or no leg is bound |
| `CallBridge.Bridge.PlayToAgent` | src/dialpass/agent/bridge.py:133-140 | The whole new hub is that of the function the run lemmas are about: a clip, cut by a loop |
| `CallBridge.Bridge.BeginProbe` | src/dialpass/agent/bridge.py:164-164 | The whole new hub is that of the function the run lemmas are about: a probe begins: an empty inbound queue |
| `CallBridge.Bridge.EndProbe` | src/dialpass/agent/bridge.py:172-173 | The whole new hub is that of the function the run lemmas are about: a probe ends: no inbound queue |
| `CallBridge.Bridge.TakeForAgent` | src/dialpass/agent/bridge.py:149-151 | The whole new hub is that of the function the run lemmas are about: draining towards the agent |
| `CallBridge.Bridge.TakeForUser` | src/dialpass/agent/bridge.py:153-155 | The whole new hub is that of the function the run lemmas are about: draining towards the user |
| `CallBridge.Bridge.StartHandoff` | src/dialpass/agent/bridge.py:178-195 | The whole new hub is that of the function the run lemmas are about: beginning the handoff |
| `CallBridge.Bridge.OpenRelay` | src/dialpass/agent/bridge.py:197-214 | The whole new hub is that of the function the run lemmas are about: its end |
| `RegistryRuns.CallsAndTextsAreBounded` | src/dialpass/api/media.py:195-212 | On every run, for each group: placements are one plus the redials counted, never above three; at most one fallback text, and none while the number is still held |
| `RegistryRuns.StepWithinBudget` | src/dialpass/api/media.py:68-101 | Every event keeps that budget |
| `RegistryRuns.TornDownIsGone` | src/dialpass/api/media.py:89-101 | After a teardown the group is in no dictionary, its session is gone and its bridge closed |
| `RegistryRuns.TeardownTouchesNoOther` | src/dialpass/api/media.py:79-101 | Every other group keeps its bridge, its call and its context; its session stays listed unless the torn-down bridge carried the same call id |
| `RegistryRuns.TeardownIsIdempotent` | src/dialpass/api/media.py:89-101 | A second teardown changes nothing and asks for nothing, whatever its reason and flags |
| `RegistryRuns.CollidingIds` | src/dialpass/api/media.py:94-94 | A run of two calls with one call id: the later one hides the earlier one's session, and when the earlier call fails the later one is registered but listed no more |
| `RegistryRuns.ReaperTakesExactlyTheStale` | src/dialpass/api/media.py:104-115 | A pass over any listing of groups removes exactly those that have waited for a redirect for more than twenty seconds, leaves every other group its bridge, call and context, its session listed unless a removed bridge carried the same call id, and returns how many it removed |
| `RegistryRuns.ReapedExactlyWhenOutOfTime` | src/dialpass/api/media.py:104-115 | After a pass over all groups a registered group is gone if and only if its bridge was reconnecting since a known time more than 20.0 seconds ago; and the pass returns how many such groups there were |
| `RegistryCare.GraceIsTwentySeconds` | src/dialpass/api/media.py:104-115 | A run of a start, a keypress, the close of the leg and a pass: the call is kept up to twenty seconds after the keypress and taken at any later time |
| `RegistryRuns.NothingOverdueIsLeft` | src/dialpass/api/media.py:104-115 | After a pass over all groups none has waited for a redirect for more than twenty seconds |
| `RegistryRuns.SessionsGoWithTheirBridges` | src/dialpass/api/media.py:89-101 | On every run each listed session is that of the bridge registered for its group, and a bridge is closed if and only if it is not registered: nothing is leaked, nothing closed is used |
| `RegistryRuns.ContextExactlyWhenPlaced` | src/dialpass/api/calls.py:56-75 | A new call is asked for if and only if there are a client and an address, and has a context, which is spelled out, if and only if it was accepted; no other group is touched |
| `RegistryCare.OrphansComeFromLateReports` | src/dialpass/api/media.py:140-147 | Over a whole run a group's bridge always has a live agent leg or a dated redirect if and only if no failed redirect of it is reported after its leg has gone; overlapping legs do no harm here |
| `RegistryCare.OnlyALateReportOrphans` | src/dialpass/api/media.py:300-322 | The same for one step: the late report is the only event that leaves a looked-after bridge to nobody |
| `RegistryCare.ClosingLooksAfter` | src/dialpass/api/media.py:300-322 | A closing leg leaves its bridge to the redirect in flight or takes it off the register |
| `RegistryCare.OrphansAreNeverReaped` | src/dialpass/api/media.py:104-115 | A reaper pass leaves an orphan registered, in the same condition and with its context, however long it waits |
| `RegistryCare.AnOrphan` | src/dialpass/api/media.py:140-147 | A four-event run that ends with an orphan |
| `RegistryLegs.RedirectInOrder` | src/dialpass/api/media.py:242-252 | A leg that closes before the redirected one starts leaves everything in place but the leg itself, which is the new one, and nobody waiting for a redirect |
| `RegistryLegs.RedirectOverlapped` | src/dialpass/api/media.py:242-252 | If the redirected leg starts first, the old one's close takes the call down under it |
| `RegistryLegs.CloseKeepsTheGroupExactlyWhen` | src/dialpass/api/media.py:300-322 | Whichever bridge is registered, a closing leg leaves its group registered if and only if its own bridge has a redirect in flight, or that bridge is not the registered one and its drop is answered by yet another placement; in every other case a stale leg takes the successor down |
| `RegistryLegs.DropIsPlacedAgainExactlyWhen` | src/dialpass/api/media.py:195-212 | On every run a call that drops is placed again if and only if there are a client and an address, the group has its context, and fewer than three calls were placed for it |
| `RegistryLegs.TeardownAsksExactly` | src/dialpass/api/media.py:89-101 | A teardown with a bridge asks, in this order, for the text if there is a reason and a number, and for the end of the business's leg and of the user's, each if it is known; otherwise for nothing |
| `RegistryLegs.StaleCloseTakesTheSuccessor` | src/dialpass/api/media.py:300-322 | A run in which that happens: an overlapping redirect, a redial, a pickup, and the close of the stale leg |
| `RegistryLegs.LeavingIsAnsweredExactlyWhen` | src/dialpass/api/media.py:184-192 | A user who leaves is sent the fallback text if and only if there is a telephone client, the relay is shut, the session has not finished, the number is known and the group has a bridge just then |
| `RegistryLegs.LeavingDuringARedial` | src/dialpass/api/media.py:310-318 | A run in which the user leaves between a redial and its pickup: no text, no hang-up, the context gone and the second call left ringing |
| `RegistryLegs.LeavingDuringTheHoldingLine` | src/dialpass/agent/bridge.py:197-214 | A run in which the user leaves while the holding line is spoken: no text, and the call stays registered with the relay still to open |
| `RegistryLegs.LeavingAfterTheHandoff` | src/dialpass/api/media.py:184-192 | A run in which the user leaves with the relay open: nothing ends and nothing is asked for |
| `RegistryFates.EveryEventTextsExactly` | src/dialpass/api/media.py:68-115 | Every event sends a group the fallback text if and only if there is a telephone client and the event takes the group's number away with a bridge to end and something to tell; none brings back the number of a call that exists |
| `RegistryFates.ToldUnlessForgotten` | src/dialpass/api/media.py:184-212 | Over a whole run, once a user's number has been known: the number is still held or one fallback text was sent, if and only if no event took the number away without a word, that is with no bridge registered, or by a leg that closes with a stop or after its session finished |
| `RegistryUsers.UsersMoveOnlyByThemselves` | src/dialpass/api/media.py:157-192 | No event but the start and the end of a user's own leg changes which bridge users' legs sit on: redials, teardowns and the reaper leave them where they are |
| `RegistryUsers.NoUserUnlessJoined` | src/dialpass/api/media.py:163-172 | On every run a bridge has a user's leg only if one started while that bridge was the registered one: a call placed again has no user until a leg starts anew |
| `RegistryUsers.PickedUpWithoutTheUser` | src/dialpass/api/media.py:310-318 | A run in which a dropped call is redialed and picked up while the user's leg is still open, on the old bridge: the new one has no user |
| `RegistryUsers.GivingUpChangesNothing` | src/dialpass/api/media.py:163-170 | On every run a user's leg that finds no bridge and gives up waiting leaves the application as it was, nothing sent |
| `RegistryUsers.PickedUpTooEarly` | src/dialpass/api/media.py:163-170 | A run in which the user picks up before the business does and gives up waiting: no text, and the call goes on without its user |
| `CallRegistry.CallRegistry.ClearContext` | src/dialpass/api/media.py:79-86 | All dictionaries and all requests, in order, are those of the function the run lemmas are about: clearing the context |
| `CallRegistry.CallRegistry.HangUpLeg` | src/dialpass/api/media.py:58-65 | All dictionaries and all requests, in order, are those of the function the run lemmas are about: hanging up one leg |
| `CallRegistry.CallRegistry.SendText` | src/dialpass/api/media.py:68-76 | All dictionaries and all requests, in order, are those of the function the run lemmas are about: the text |
| `CallRegistry.CallRegistry.TeardownGroup` | src/dialpass/api/media.py:89-101 | All dictionaries and all requests, in order, are those of the function the run lemmas are about: the teardown |
| `CallRegistry.CallRegistry.ReapStaleBridges` | src/dialpass/api/media.py:104-115 | All dictionaries and all requests, in order, are those of the function the run lemmas are about: the reaper, looping over a snapshot while it removes |
| `CallRegistry.CallRegistry.RedialAgentLeg` | src/dialpass/api/media.py:195-212 | All dictionaries and all requests, in order, are those of the function the run lemmas are about: the redial, an attempt counted even if it fails |
| `CallRegistry.CallRegistry.FinishAgentLeg` | src/dialpass/api/media.py:300-322 | All dictionaries and all requests, in order, are those of the function the run lemmas are about: a closing agent leg |
| `CallRegistry.CallRegistry.StartAgentLeg` | src/dialpass/api/media.py:242-269 | All dictionaries and all requests, in order, are those of the function the run lemmas are about: an agent leg that starts or comes back |
| `CallRegistry.CallRegistry.FailSession` | src/dialpass/api/media.py:150-154 | All dictionaries and all requests, in order, are those of the function the run lemmas are about: a session that gives up |
| `CallRegistry.CallRegistry.EndUserLeg` | src/dialpass/api/media.py:184-192 | All dictionaries and all requests, in order, are those of the function the run lemmas are about: a user leg that ends |
| `CallRegistry.CallRegistry.CreateCall` | src/dialpass/api/calls.py:56-75 | The same for a new call, taken as one step |

## Left out

- Twilio REST, TwiML, routes, websockets, base64 and JSON text: events and abstract payloads.
- The Realtime exchanges: a probe's audio is queued for it, and Tier 2 answers with digits, an abstain, a verdict or an error, whenever it likes.
- The DSP features, the classifier's thresholds, tone synthesis and resampling: the machine is fed arbitrary labels and confidences.
- Rounding of floating-point times and confidences, and the 16-bit cast of incoming chunks.
- Real threads and locks: steps are atomic and interleave in any order. Non-atomic counter updates and join timeouts are not modelled.
- The order in which the sorted table puts the two zero bytes: the codec lemmas hold for either.
- AgentSession.AgentSession.FeedAudio: the classification interval is positive, as the source assumes; an interval of zero would make its loop endless.
- AgentSession.AgentSession.RunTick: the note of a frame keeps its time, label, window and exact confidence; the rounding and the features are left out.
- AgentSession.Tier2Executor.Submit: the two executors are one class with a flag, and only a job that raises or returns is modelled; closing, cancelling and submitting to a closed executor are not.
- AgentSession.AgentSession.AbortCall: `close`, which only releases the executor, is not modelled.
- CircuitBreaker.CircuitBreaker.Call: one call with nothing else going on; overlapping calls are the runs of the step relation.
- CallRegistry.CallRegistry.TeardownGroup: bridge objects are rows of a table known by their place, so aliasing is by number; a text or hang-up that raises counts as asked for; which text is chosen for which reason is not modelled.
- CallRegistry.CallRegistry.StartAgentLeg: one `start` per socket; the recorder and the choice of the streaming probe are left out.
- CallRegistry.CallRegistry.EndUserLeg: the loop in which a leg waits for its bridge is not modelled; how it ends is, by finding one or by giving up, at any time at which there is one or none.
- CallBridge.Bridge.OpenRelay: the holding line is a clip played like any other, and the wait for it to drain is not modelled: the relay opens at any time after the handoff was scheduled.
- CallBridge.Bridge.PressDtmf: the redirect itself is an event of the registry, where it fails or comes back.
- CallBridge.RedirectIsDated: the end of the wait, a leg that comes back or a redirect reported failed, is an event of the registry and not of the hub.
- Telemetry.TelemetryWorker.Run: one worker; retention expiry of the queue service is not modelled, parking in the dead-letter queue is.
- Telemetry.SqsSink.Drain: the endless pump loop before shutdown takes the same batches; waiting and sleeping are not modelled.
- SessionRail.RailIsReached: with no room for a fruitless reading and a cap that needs one, only the bound is proved.
- WAV recording, logging, health endpoint, settings, database and AWS client details, persistence, the spike API and the scripts.
- `_menu_woken` is kept as a field but nothing rests on it: the source writes and never reads it.
