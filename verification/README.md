# Vehicle Autonomy Core: verified model

A Dafny model of the concurrent state machines at the heart of Vehicle Autonomy Core, with proofs
of what they guarantee over every run. `dafny verify dfyconfig.toml` verifies all of it.

Each section of the program that runs under a lock is one atomic step. Threads may interleave
between steps in any way. What user callbacks do (start, stop, write, close) is a parameter: they
succeed or fail as the caller of the model pleases. Time is a real number passed in. Methods of a
class change the class's fields in place, as the program's methods do; where the proofs need it, a
method is tied to a function that says what it does to the abstract state.

- **Missions** (`MissionPhases`, `MissionState`, `MissionSafety`, `MissionTermination`,
  `MissionQueueIndex`, `MissionAdmission`, `MissionOutcomes`, `MissionSections`, `MissionIndexes`,
  `MissionPreemption`, `MissionPromotion`, `MissionRuns`, `MissionInterruption`, `MissionStrayRecords`,
  `MissionEngine`). `MissionState` is the reference semantics: of the engine's indexes it knows only the
  queue's, and otherwise scans all registered missions. `MissionSafety` and `MissionTermination` prove
  what all its runs keep, and `MissionAdmission`, `MissionOutcomes` and `MissionSections` what each of
  its sections answers and does. `MissionEngine` is the engine object with its four indexes; its methods
  do what the reference steps do. A runtime record is known by its registration number, so
  that a thread can go on using a record whose mission has left the registry.
- **Mission chains** (`MissionChains`). Stages run one after the other. At any moment at most one
  party, a launching thread, a launched child or a reporting thread, can move a run on.
- **Application packets** (`ApplicationCodec`, `ApplicationAssembler`, `ApplicationReplies`,
  `ApplicationRoundTrip`). Bodies are cut into V2_EXTENSION payloads and put together again under time,
  count and byte limits. The checksum is any function from bytes to 32 bits.
- **Dependency container** (`WaitGraph`, `ResourceShutdown`). Owners that wait for owners, and
  disposal across failed shutdowns.
- **Events** (`EventReplay`). One subscriber that replays history beside any number of publishers.
- **Messages** (`Recency`, `MessageCaches`, `MessageRouting`, `MessageRouter`, `MessageRules`,
  `HistoryWriters`, `VehicleRegistries`). Tables ordered by recency, the latest-message lookup, the loss estimate,
  the recording queue and the vehicle registry.

## Where the code does less than one might expect

- A retryable failure reported on a mission that never started is finalized later. If the mission is
  unregistered in between, the record goes back to the queue although it is no longer registered
  (`MissionStrayRecords.StrayRetryIsReachable`). This is the only way for the queue index to go wrong
  (`MissionTermination.IndexAgreesIff`); the other indexes are always right. It has two consequences.
  - The index holds a mission that is not registered. Every promotion pass then raises while it lists the
    queue (`MissionStrayRecords.NextPassRaises`), which ends the scheduler's thread. Stopping the engine
    raises as well, because it cancels what the index holds (mission/engine.py:193-197), and an engine whose
    stop failed cannot be started again.
  - If the mission has been registered again and waits, and a thread that still has the old record cancels
    it, the index loses the mission that waits. No pass comes to it any more, and more missions can be
    queued than the limit allows (`MissionStrayRecords.QueueLimitIsExceeded`).
- A chain that went on after a FAILED stage and is then cut short by a CANCELLED or STOPPED one is not
  marked failed (`MissionChains.FailedThenCancelled`); this is the only way an outcome can end a run
  with a wrong mark (`MissionChains.InterruptionDropsFailure`).
- The lookup of the latest message is the last matching one in every run exactly for the filters that
  never tell apart two messages of one type and source (`MessageRouters.FindsLastIffKeyDecides`).
- A vehicle can be disconnected while a component is connected: exactly if a heartbeat is handled that
  was stamped before the last one of another connected component (`VehicleRegistries.RightIffInTime`).
  The thread that starts the runtime hands in the initial heartbeat beside the reader thread, so this
  can happen.
- A queued mission that holds a failure intent makes a promotion pass raise as soon as nothing else keeps
  it from starting (`MissionInterruption.LeftoverIsReachable`), and so does a mission that must preempt
  one whose `stop()` raises. The exception is not among those the pass catches, and the scheduler's loop
  catches none (mission/scheduler.py:300-310): its thread ends. Later launches do not start a new one
  (mission/engine.py:152-153), so the missions behind it wait until the engine is stopped and started
  again. `MissionPromotion.PassRunsToItsEnd` says exactly when a pass is spared.
- If the cleanup of such an intent fails, not even that helps: unless the mission's time in the queue is
  limited, and a pass gets to it, it can be neither ended nor unregistered, its cleanup cannot be retried because it is not STOPPING
  (`MissionInterruption.StuckRefuses`, `MissionInterruption.StuckIsReachable`), and stopping the engine raises.

## Model

| member | source | states |
|---|---|---|
| MissionTermination.EveryRunIsSafe | mission/scheduler.py:136-298 | in every reachable state, distinct active missions share no resource and neither blocks the other's class; the active count and the size of the queue index never exceed their limits, and neither does the number of queued missions unless a failure of an unregistered record was requeued |
| MissionTermination.IndexAgreesIff | mission/engine.py:660-664 | the queue index is the set of queued missions, and every queued record is registered, at every moment of a run if and only if no failure of an unregistered record is requeued in it |
| MissionTermination.IndexIsLastChange | mission/engine.py:660-664 | in every run, the queue index holds a mission exactly if the last change of any of its records into or out of the queue was into it |
| MissionTermination.ReportedIffFinal | mission/lifecycle.py:360-420 | a commit reports the end exactly when it records one change, into the intent's phase; when a failure will be tried again the mission is back in the queue, and nothing is reported |
| MissionTermination.ResourcesHaveOneOwner | mission/engine.py:642-677 | whenever the run invariant holds, a resource has at most one active owner |
| MissionTermination.RunKeepsInv | mission/lifecycle.py:888-950 | every sequence of lock sections, by any threads, keeps the whole invariant: exclusion, limits, at most one intent per record, stop log, phase paths |
| MissionSafety.StepKeepsInv | mission/lifecycle.py:47-1007 | each single lock section keeps that invariant, whatever it is applied to |
| MissionTermination.StepIsTwoPhase | mission/lifecycle.py:666-717 | one step leaves an active mission active (a STOPPING one keeps its intent, generation and resources), or commits exactly the recorded intent after `stop()` returned in that generation |
| MissionTermination.FirstIntentWins | mission/lifecycle.py:438-461 | over any run from STOPPING: still STOPPING with the same intent, or the first thing the mission did was move to that intent's phase with the return of its `stop()` on record |
| MissionTermination.EveryEndFollowsStop | mission/lifecycle.py:825-886 | in every run no change leads from an active to an inactive phase except out of STOPPING, and `stop()` returned normally exactly once in that generation |
| MissionTermination.EveryHistoryIsAPath | mission/enums.py:116-198 | in every run the changes of one registration form a path through the phase table from REGISTERED to its current phase, and what was published is a prefix of the history |
| MissionTermination.PathConnects | mission/enums.py:190-198 | each change of such a path is allowed by the table and begins where the one before it ended |
| MissionTermination.StepHistoryGrows | mission/lifecycle.py:943-949 | no step takes back a committed change or a recorded `stop()` return, or forgets a record |
| MissionOutcomes.CompleteAsks | mission/lifecycle.py:197-259 | completing a running mission records SUCCEEDED with the given result and begins stopping; each refusal exactly when it is due, with nothing changed |
| MissionOutcomes.CompleteSucceeds | mission/lifecycle.py:225-288 | completing, and then `stop()` returning, ends the mission as SUCCEEDED with that result |
| MissionOutcomes.FailAsks | mission/lifecycle.py:290-358 | failing a started mission records FAILED, retryable as reported; on an unstarted one the intent is recorded outside STOPPING; it joins an intent that is there |
| MissionOutcomes.FailFails | mission/lifecycle.py:360-420 | failing, and then `stop()` returning, ends the attempt: back in the queue after the retry delay if it may be tried again and there is room, FAILED otherwise |
| MissionOutcomes.FinishAsks | mission/lifecycle.py:719-790 | stopping or cancelling ends an unstarted mission so at once and asks a started one for exactly that end; each refusal exactly when it is due |
| MissionOutcomes.FinishEnds | mission/lifecycle.py:666-717 | stopping or cancelling a started mission, and then `stop()` returning, ends it so |
| MissionOutcomes.WorkerAsks | mission/lifecycle.py:566-600 | the worker of this attempt activates it, or asks for CANCELLED when the guard rejects; another worker does nothing |
| MissionOutcomes.RejectionCancels | mission/lifecycle.py:566-600 | an attempt whose guard rejects ends as CANCELLED once `stop()` returned |
| MissionOutcomes.SettledEndsAs | mission/lifecycle.py:666-717 | whatever the intent of a STOPPING mission says comes of it once `stop()` returns: phase, result, retry time, and nothing else of the attempt is lost |
| MissionOutcomes.ClockRunsWhileRunning | mission/lifecycle.py:888-950 | the running time of an attempt starts at zero and grows exactly while the mission is RUNNING |
| MissionSafety.PutKeepsExclusion | mission/scheduler.py:424-451 | replacing one record adds no conflict unless the mission becomes active beside one |
| MissionSafety.CommitKeepsInv | mission/lifecycle.py:360-420 | committing an intent, with or without the retry back to the queue, keeps the invariant |
| MissionSafety.CleanupKeepsInv | mission/lifecycle.py:825-886 | a cleanup attempt keeps the invariant, whether `stop()` returns or raises |
| MissionSafety.AdmissionKeepsInv | mission/scheduler.py:225-298 | both admission passes keep the invariant, in particular exclusion and the two limits |
| MissionSafety.DiscardKeepsInv | mission/engine.py:683-696 | releasing the terminal missions of a forgotten execution keeps the invariant |
| MissionPromotion.StartsIffAdmissible | mission/scheduler.py:165-192 | the second admission pass begins a new attempt exactly when prerequisites, conflicts, capacity, left-over intent and phase all permit it |
| MissionPromotion.PreemptsOnlyLower | mission/scheduler.py:264-287 | a launch preempts exactly the set of conflicting active missions, and only if each has strictly lower priority |
| MissionPromotion.AdmissionIsAntitone | mission/scheduler.py:410-455 | what is admissible beside more active missions is admissible beside fewer |
| MissionAdmission.FirstAnswers | mission/scheduler.py:145-157 | the first section of a launch: for each answer (unknown or unauthorized requester, already active, missing prerequisites, conflict, full queue, preemption, start, queued), exactly when it is given; nothing changes unless the mission enters the queue |
| MissionAdmission.SecondAnswers | mission/scheduler.py:165-192 | the second section likewise, with capacity before conflicts, the left-over intent, and what a started attempt looks like |
| MissionAdmission.EntersQueueIff | mission/scheduler.py:225-298 | a launch puts a mission into the queue exactly if it is neither active nor queued, there is room in the queue, and its policies or the capacity make it wait |
| MissionSections.CapacityIsExact | mission/scheduler.py:453-455 | in every reachable state there is no room exactly when the limit has been reached |
| MissionSections.ConflictsAreClashes | mission/scheduler.py:439-451 | in the way of a mission are exactly the other active missions that share a resource with it, or block its class, or are of a class it blocks |
| MissionSections.EnteredFrom | mission/enums.py:116-198 | the phase table read by where a change leads: from exactly which phases each phase can be entered |
| MissionPromotion.PromotionIsWorkConserving | mission/scheduler.py:352-405 | after a pass that ran to its end no waiting mission of the queue index has timed out and, unless an active mission was preempted in it, no due one is admissible; in any pass waiting missions keep their place, also those the index has lost, the others started or expired in (priority, queue time) order, and no mission the pass started is preempted by it; a pass over an index with an unregistered mission changes nothing |
| MissionPromotion.WorkConservedIff | mission/scheduler.py:352-405 | where nobody in the queue preempts, a pass is work-conserving for the missions of the queue index if and only if no mission, when its turn comes, is due and admissible and holds a left-over intent; with an unregistered mission in the index, if and only if there was nothing to do |
| MissionPromotion.PassRunsToItsEnd | mission/scheduler.py:352-405 | a pass runs to its end if and only if every mission in the queue index is registered and no entry, when its turn comes, is blocked by a left-over intent or must preempt and cannot |
| MissionPromotion.EntryIsHandled | mission/scheduler.py:159-192 | a queue entry raises exactly when it is due and may start, or may preempt, and holds a left-over intent, or when a mission in its way cannot be stopped; otherwise it starts, expires, or waits for a reason, and only lower-priority missions are stopped |
| MissionPromotion.EntryOutcome | mission/scheduler.py:374-405 | a queue entry fails exactly if its time limit is reached, is started exactly if it is due, may start or preempt, and the launch does not raise, and otherwise stays queued |
| MissionPromotion.ListedInOrder | mission/scheduler.py:352-373 | in the listing a more important mission comes before a less important one, and of two equally important ones the one queued earlier |
| MissionPromotion.PassIsNotInterrupted | mission/scheduler.py:398-405 | a check before the pass: with every mission in the index registered, without left-over intents among the queued ones, and with active missions that can be stopped, it runs to its end |
| MissionPromotion.StoppedMakesRoom | mission/scheduler.py:165-206 | once all missions in the way have stopped, the second admission pass admits the launch, so nothing is preempted twice |
| MissionInterruption.LeftoverIsReachable | mission/scheduler.py:178-181 | a concrete run reaches an interrupted pass: a requeued mission holds the intent of a second failure report, the pass raises at it, changes nothing, and leaves another mission due and admissible |
| MissionInterruption.StuckRefuses | mission/lifecycle.py:422-436 | a queued mission whose failure could not be cleaned up after can be neither stopped, cancelled, unregistered nor launched, and its cleanup cannot be retried |
| MissionInterruption.StuckForGood | mission/lifecycle.py:740-747 | over every run in which its queue time limit does not expire and no cleanup retry is let through, such a mission stays so |
| MissionInterruption.StuckIsReachable | mission/lifecycle.py:335-344 | a concrete run gets a mission stuck: it waits, is reported as failed, and its `stop()` raises |
| MissionPreemption.StopOneDoes | mission/lifecycle.py:719-790 | stopping an active mission touches no other one and ends it as STOPPED if and only if no other end is wanted, cleanup has not failed before, its worker ends in time and `stop()` returns; otherwise it stays active and the call raises |
| MissionPreemption.StopAllDoes | mission/scheduler.py:159-163 | the missions in the way are stopped, all of them, exactly when each of them can be; nothing else is touched |
| MissionIndexes.ReindexAgrees | mission/engine.py:642-677 | the incremental update gives exactly the scans of all registered missions, and the reference's queue index, after any phase change of a registered one |
| MissionIndexes.ReleaseAgrees | mission/engine.py:679-681 | removing a mission by reindexing it as REGISTERED leaves the indexes equal to the scans without it |
| MissionIndexes.RecordAgrees | mission/engine.py:642-677 | the same holds for a change of an unregistered record between phases that no scan mentions, the queue included |
| MissionQueueIndex.StepKeepsQueue | mission/lifecycle.py:374-400 | from a state in which the queue index agrees, a section breaks the agreement if and only if it is the retry of a failure of an unregistered record |
| MissionQueueIndex.StrayRequeueDisagrees | mission/lifecycle.py:374-400 | a record outside the registry that goes back to the queue is a queued record nobody can find; the index itself stays right for the moment if and only if the mission id is queued anyway |
| MissionStrayRecords.StrayRetryIsReachable | mission/lifecycle.py:335-344 | a concrete run reaches that case: failure reported before the start, unregistration, then finalization |
| MissionStrayRecords.NextPassRaises | mission/scheduler.py:352-373 | after that run the queue index holds an unregistered mission, and every pass raises while listing and changes nothing |
| MissionStrayRecords.QueueLimitIsExceeded | mission/lifecycle.py:994-996 | a concrete run queues three missions under a limit of two: the mission is registered again and queued, the old record is requeued and cancelled, which drops the mission from the index |
| MissionEngines.CandidatesSuffice | mission/scheduler.py:424-437 | when nobody blocks by class, every conflict is with an owner of a wanted resource |
| MissionEngines.CountersAnswer | mission/scheduler.py:410-422 | the class counters answer a prerequisite exactly as a scan of all registered missions would |
| MissionEngines.MissionEngine.constructor | mission/engine.py:60-119 | a new engine is the empty state with agreeing indexes |
| MissionEngines.MissionEngine.UpdatePhaseIndexes | mission/engine.py:642-677 | the in-place update of the four indexes, loops included, is the reference reindexing |
| MissionSections.RegisterAnswers | mission/engine.py:561-589 | registering is refused exactly for a taken id; otherwise the id stands for an untouched new record |
| MissionSections.UnregisterAnswers | mission/engine.py:591-633 | each answer of unregistering exactly when it is given; only the registry changes |
| MissionSections.DiscardReleases | mission/engine.py:683-696 | of the given missions exactly those that have ended are released |
| MissionSections.PauseAnswers | mission/lifecycle.py:86-107 | pausing needs permission and a running mission; each answer exactly when it is given |
| MissionSections.CallbackAnswers | mission/lifecycle.py:108-167 | after its callback PAUSING becomes PAUSED and PAUSED becomes RUNNING, unless the mission moved on |
| MissionSections.FinalizeAnswers | mission/lifecycle.py:666-686 | each answer to a thread that wants the terminal lock, exactly when it is given |
| MissionSections.CleanupAnswers | mission/lifecycle.py:805-886 | `stop()` runs unless it has returned in this generation, its return is recorded once, and a raise leaves the mission waiting for a retry |
| MissionSections.CommitAnswers | mission/lifecycle.py:360-420 | a commit takes place exactly for a cleaned mission that has not ended; it ends as the intent says, and is requeued exactly if it may be tried again and the queue it has left has room |
| MissionSections.ExpireAnswers | mission/scheduler.py:374-396 | a queue entry fails exactly if it is still the one listed and has been queued for its limit |
| MissionEngines.MissionEngine.Transition | mission/lifecycle.py:888-950 | a phase change happens exactly when the table allows it, records one change, and keeps the indexes right if the record is registered or no scan mentions the phases |
| MissionEngines.MissionEngine.FindConflicts | mission/scheduler.py:424-451 | the shortcut over resource owners returns exactly the conflicts a scan of every registered mission returns |
| MissionEngines.MissionEngine.FindMissingPrerequisites | mission/scheduler.py:410-422 | the answer from the class counters is the answer of the scan |
| MissionEngines.MissionEngine.DecideLocked | mission/scheduler.py:225-298 | one admission pass over the indexes decides as the reference semantics does over scans; what that is, FirstAnswers and SecondAnswers say |
| MissionEngines.MissionEngine.AuthorizeLocked | mission/engine.py:789-804 | a command is permitted exactly without a requester, on the requester itself, or to a registered, running mission of no lower priority; an unknown requester and an unauthorized one are told apart |
| MissionEngines.MissionEngine.QueueLocked | mission/lifecycle.py:981-1007 | queueing is refused exactly at capacity or outside the table; the indexes stay right |
| MissionEngines.MissionEngine.AdmitFirst | mission/scheduler.py:145-157 | the first section of a launch answers and changes as the reference step does (FirstAnswers), and keeps every index and the invariant |
| MissionEngines.MissionEngine.AdmitSecond | mission/scheduler.py:165-192 | the second section of a launch, which starts the mission, likewise (SecondAnswers) |
| MissionEngines.MissionEngine.BeginStoppingLocked | mission/lifecycle.py:319-334 | STOPPING and the terminal intent are recorded together |
| MissionEngines.MissionEngine.WorkerBegin | mission/lifecycle.py:566-600 | the worker activates only the attempt it was started for, or cancels it when its guard rejects |
| MissionEngines.MissionEngine.PauseBegin | mission/lifecycle.py:86-129 | pausing is authorized and follows the table |
| MissionEngines.MissionEngine.PauseEnd | mission/lifecycle.py:108-129 | PAUSING becomes PAUSED unless the mission moved on meanwhile |
| MissionEngines.MissionEngine.ResumeEnd | mission/lifecycle.py:131-167 | PAUSED becomes RUNNING unless the mission moved on meanwhile |
| MissionEngines.MissionEngine.Complete | mission/lifecycle.py:197-259 | completion is refused beside another intent and outside RUNNING, and otherwise asks for SUCCEEDED as the reference does (CompleteAsks) |
| MissionEngines.MissionEngine.Fail | mission/lifecycle.py:290-358 | failure begins stopping an active mission, joins a pending intent, or records one on a mission that never started |
| MissionEngines.MissionEngine.Finish | mission/lifecycle.py:719-790 | stop and cancel end an unstarted mission at once and begin stopping a started one |
| MissionEngines.MissionEngine.RetryCleanup | mission/lifecycle.py:422-436 | offered exactly for a STOPPING mission whose cleanup failed; the intent is the pending one of the current generation, which without a retry request is refused and with one takes the terminal lock when it is free |
| MissionEngines.MissionEngine.FinalizeBegin | mission/lifecycle.py:666-686 | the terminal lock is taken only for the current intent, and not after a failed cleanup unless a retry was asked for |
| MissionEngines.MissionEngine.Cleanup | mission/lifecycle.py:825-886 | `stop()` runs again until it returns once in a generation; every index and the invariant are kept |
| MissionEngines.MissionEngine.Commit | mission/lifecycle.py:360-420 | commits the intent as the reference does and keeps every index, also for a record outside the registry |
| MissionEngines.MissionEngine.Register | mission/engine.py:561-589 | a new registration gets a record of its own and no index changes |
| MissionEngines.MissionEngine.Unregister | mission/engine.py:591-633 | only the registration first seen is removed, never an active or queued one, and the indexes follow |
| MissionEngines.MissionEngine.DiscardMissions | mission/engine.py:683-696 | exactly the terminal missions among the given ones are released |
| MissionEngines.MissionEngine.PublishTransitions | mission/lifecycle.py:952-972 | draining publishes the pending changes in order; published then pending always is the committed history |
| MissionEngines.MissionEngine.ExpireQueued | mission/scheduler.py:374-396 | a queue entry fails exactly when it is still the listed one and has waited too long |
| MissionEngines.MissionEngine.SortQueue | mission/scheduler.py:352-373 | the listing is the queue index sorted by priority, then queue time; it raises exactly when the index holds an unregistered mission |
| MissionEngines.MissionEngine.PromoteQueued | mission/scheduler.py:352-405 | the pass does what the reference pass does over that listing, or raises with it; preemption included, it keeps the indexes and the invariant |
| MissionEngines.MissionEngine.LaunchQueued | mission/scheduler.py:136-223 | admission, stops of the missions in the way and second admission do what the reference launch does |
| MissionEngines.MissionEngine.StopMission | mission/lifecycle.py:719-790 | request, cleanup and commit of a stop do what the reference does and keep every index |
| MissionChains.StagesLaunchInOrder | mission/chain.py:139-238 | a stage is launched at most once and only right after the stage before it ended, in SUCCEEDED or, without stop_on_failure, FAILED |
| MissionChains.RunShows | mission/chain.py:139-252 | any run, however it ended: completed exactly if every stage has ended and the last one lets the chain go on; active exactly if neither completed, nor cut short by a stage, nor ended from outside; marked failed exactly if some stage FAILED or something went wrong and no CANCELLED or STOPPED stage cut it short; marked cancelled or stopped as its last stage was; its results are those of the stages that have ended, under their names |
| MissionChains.AdvancedOk | mission/chain.py:139-213 | an outcome of the current stage keeps what a run promises |
| MissionChains.InterruptionDropsFailure | mission/chain.py:150-173 | a run that an outcome ends is marked failed exactly when some stage FAILED, if and only if it is not so that the outcome is CANCELLED or STOPPED and an earlier stage FAILED |
| MissionChains.FailedThenCancelled | mission/chain.py:160-173 | a concrete run whose first stage FAILED and whose second was cancelled is not marked failed |
| MissionChains.RefusingKeepsBoard | mission/chain.py:240-252 | failing an active run from outside keeps every promise and marks it failed; a finished run stays as it is |
| MissionChains.TerminatingKeepsBoard | mission/chain.py:394-405 | stopping or cancelling a run from outside keeps every promise, whatever the run has become by then |
| MissionChains.IssueKeepsBoard | mission/chain.py:319-331 | launching hands the right to move a run on from the launching thread to the launched child; nobody else holds it |
| MissionChains.HandingInKeepsBoard | mission/chain.py:139-213 | handing in an outcome keeps every run's promises and at most one party able to move each run on |
| MissionChains.ChainExecutor.Start | mission/chain.py:42-78 | a new run, its first launch pending |
| MissionChains.ChainExecutor.LaunchBegin | mission/chain.py:296-303 | a launch that finds its run inactive or gone does nothing |
| MissionChains.ChainExecutor.LaunchIssue | mission/chain.py:319-331 | the child launched carries out the stage that was read, and is recorded as such |
| MissionChains.ChainExecutor.LaunchRefused | mission/chain.py:234-238 | a launch that raises fails the run |
| MissionChains.ChainExecutor.AfterTerminal | mission/chain.py:122-137 | only the first report of a child reaches its run |
| MissionChains.ChainExecutor.AfterCommit | mission/lifecycle.py:395-420 | a child's end reaches its run exactly when the mission's commit is final, with the phase it ended in; a failure that will be tried again changes nothing in the run |
| MissionChains.ChainExecutor.Advance | mission/chain.py:139-238 | an outcome moves the run on or ends it, completed exactly after the last stage ended in a phase that lets the chain go on (see `RunShows`); one for an inactive run changes nothing |
| MissionChains.ChainExecutor.Fail | mission/chain.py:240-252 | failing ends an active run and leaves a finished one alone |
| MissionChains.ChainExecutor.TerminateEnd | mission/chain.py:394-405 | stopping or cancelling overwrites the cancelled and stopped flags of whatever the run has become, and leaves the failure mark |
| MissionChains.ChainExecutor.ForgetMission | mission/chain.py:285-287 | a forgotten child can no longer move its run on |
| MissionChains.ChainExecutor.Forget | mission/chain.py:105-114 | only a finished run is forgotten |
| ApplicationCodec.Encode | mavlink/application.py:139-180 | exactly bodies of 1 to 16632 bytes are encoded; each payload has at most 249 bytes and, zero-padded, decodes to its fragment |
| ApplicationCodec.DecodesExactly | mavlink/application.py:183-208 | a payload decodes to a fragment if and only if the fragment is well formed and the payload begins with its header, under any flags, and its chunk |
| ApplicationCodec.BigEndianRoundTrip | mavlink/application.py:31-31 | a number that fits survives packing and unpacking in network byte order |
| ApplicationReplies.PayloadBytes | mavlink/application.py:31-31 | a payload byte by byte: magic, version, flags, packet id, index, count, length, checksum in network byte order, then the chunk |
| ApplicationReplies.DecodeRefusals | mavlink/application.py:183-208 | which check a payload that does not decode fails first |
| ApplicationCodec.ChunksJoin | mavlink/application.py:162-166 | the first n chunks of a body, joined, are the first 231*n bytes of it |
| ApplicationRoundTrip.RoundTrip | mavlink/application.py:280-334 | fragments in any order, duplicated and mixed with any other traffic: exactly one call returns the body, the first by which all fragments had arrived, and all others about the packet return nothing, provided no call expires, evicts or rejects it |
| ApplicationRoundTrip.RoundTripWithinLimits | mavlink/application.py:254-278 | the same from a new assembler whenever all traffic concerns at most as many packets as the limits provide for and comes within one timeout |
| ApplicationRoundTrip.EncodedBrings | mavlink/application.py:480-491 | the zero-padded payloads of the encoder are the fragments the round trip speaks about |
| ApplicationAssembler.AcceptKeepsOk | mavlink/application.py:280-366 | malformed order, conflicts, exhausted budgets and expiry included, every call keeps: stored bytes within budget, counts within limits, in-flight and completed keys disjoint, every stored assembly strictly incomplete with indices in range and the right byte count |
| ApplicationAssembler.NoneMissing | mavlink/application.py:320-322 | as many distinct indices below the count as the count: none is missing, so the join is total |
| ApplicationReplies.AcceptAnswers | mavlink/application.py:280-334 | for each answer to a fragment, exactly when it is given, and what becomes of the packet: a body is handed out only if every chunk is there, is their join, and has the announced checksum; mismatch, contradiction, exhausted bytes and a wrong checksum give the packet up |
| ApplicationReplies.PayloadAnswers | mavlink/application.py:280-289 | a malformed payload changes nothing; a fragment is taken under its source, a missing id counting as 0, and its packet id |
| ApplicationReplies.PruneForgetsOverdue | mavlink/application.py:348-366 | pruning, when its time has come, forgets exactly the assemblies and completed packets older than the timeout, and sets its next time at most a second ahead |
| ApplicationReplies.TrimKeepsNewest | mavlink/application.py:326-328 | of the completed packets the newest are remembered, as many as allowed |
| ApplicationAssembler.Assembler.Accept | mavlink/application.py:280-334 | the in-place assembler answers and changes as the reference does (PayloadAnswers, AcceptAnswers); its byte counter is the sum over all assemblies |
| ApplicationAssembler.Assembler.DiscardAssembly | mavlink/application.py:343-346 | discarding takes exactly the assembly's bytes off the counter |
| ApplicationAssembler.Assembler.PruneLocked | mavlink/application.py:348-366 | pruning forgets exactly what is older than the timeout, at most once a second |
| ApplicationAssembler.Assembler.RememberLocked | mavlink/application.py:326-328 | the oldest completed packets beyond the limit are forgotten |
| ApplicationAssembler.Assembler.Clear | mavlink/application.py:336-341 | clearing empties everything and resets the counter |
| WaitGraphs.EdgeKeepsAcyclic | dependency/registration.py:117-127 | a new wait keeps the graph acyclic if and only if the owner's chain does not reach the waiter |
| WaitGraphs.WaitGraph.TryWait | dependency/registration.py:117-127 | the walk terminates, and refuses exactly when the owner's chain reaches the waiter; the graph stays acyclic |
| WaitGraphs.WaitGraph.EndWait | dependency/registration.py:132-136 | ending a wait keeps the graph acyclic |
| WaitGraphs.EveryChainEnds | dependency/registration.py:117-127 | every chain of waiting owners ends in one with no recorded wait |
| WaitGraphs.NoCircularWait | dependency/registration.py:107-136 | no group of owners waits only for members of the group |
| WaitGraphs.InitializationGate.Claim | dependency/registration.py:96-105 | at most one owner initializes, and none once the gate is retired |
| WaitGraphs.InitializationGate.WaitBegin | dependency/registration.py:107-127 | a wait is refused for the owner of an async initialization and for a cycle, and for nothing else |
| WaitGraphs.InitializationGate.WaitEnd | dependency/registration.py:128-136 | the recorded wait ends, and a gate retired meanwhile is reported |
| WaitGraphs.InitializationGate.Release | dependency/registration.py:141-146 | nobody initializes any more |
| ResourceShutdown.RetriesCloseOnce | dependency/container.py:631-674 | over any number of attempts each resource is closed successfully at most once, those that failed every time stay owned in their original order, and nothing else stays owned |
| ResourceShutdown.ClosesReverse | dependency/lifecycle.py:31-48 | an attempt closes every owned resource exactly once, in reverse creation order |
| ResourceShutdown.DisposalOrderMeans | dependency/lifecycle.py:31-48 | the disposal order lists every candidate once, owned ones before the others and newest first |
| ResourceShutdown.CloseEachMeans | dependency/lifecycle.py:131-152 | one close for each resource, in order, which raises exactly for the failing ones |
| ResourceShutdown.KeepInOrder | dependency/lifecycle.py:50-57 | what stays owned stays in its order |
| ResourceShutdown.ClaimsEverything | dependency/container.py:1159-1175 | whatever else is cached, the claimed disposal order is everything owned, newest first |
| ResourceShutdown.DependencyContainer.Shutdown | dependency/container.py:631-674 | an attempt closes what is owned in reverse order and keeps the failures, succeeds exactly when nothing remains, and changes nothing if something only an async shutdown can close |
| ResourceShutdown.DependencyContainer.DisposeMany | dependency/lifecycle.py:131-152 | of any given instances each is closed once, in order and despite errors; the closed ones are forgotten, the others released and reported in order |
| ResourceShutdown.ResourceTracker.Ordered | dependency/lifecycle.py:31-48 | owned candidates newest first, then the others, last first, each once |
| ResourceShutdown.ResourceTracker.Claim | dependency/lifecycle.py:65-75 | exactly the owned and not yet claimed instances are claimed, each once |
| ResourceShutdown.ResourceTracker.Remember | dependency/lifecycle.py:24-29 | a resource is owned once, at the place of its first creation |
| ResourceShutdown.ResourceTracker.Forget | dependency/lifecycle.py:50-57 | forgetting keeps the order of the rest |
| EventReplay.ExactlyOnce | events/event_bus.py:149-231 | however publishers interleave with the replay, no event is handed over twice or unowed or beyond the delivery limit; while the subscriber is live every owed event is handed over or on its way, all are handed over once the replay is done and nothing is in flight, and it stops being live only when its subscription has ended or its delivery limit is used up |
| EventReplay.InactiveIff | events/event_bus.py:43-72 | over every run, a subscription is inactive if and only if it was cancelled, its callback raised during the replay, or an event met a full replay buffer |
| EventReplay.OrderIsKept | events/event_bus.py:196-231 | with one publication at a time the callbacks see, in order, a prefix of the replay tail followed by the publications |
| EventReplay.TailMeans | events/event_bus.py:188-198 | the replay tail is the last `replay` matching events still in the history, in publication order |
| EventReplay.StepKeeps | events/event_bus.py:253-283 | each section of a publisher or of the subscribing thread conserves what is owed |
| EventReplay.Subscriber.Claim | events/event_bus.py:43-54 | a delivery is reserved exactly while the subscription is active and its limit not used up |
| EventReplay.Subscriber.BufferIfReplaying | events/event_bus.py:56-63 | during a replay an event is kept at the end of the buffer, and refused if and only if that holds as many as its limit |
| EventReplay.Subscriber.FinishReplay | events/event_bus.py:65-72 | the replay ends only when the buffer is empty |
| Recency.TouchIsRecent | mavlink/router.py:401-414 | after any history of accesses an ordered dictionary with a limit holds exactly the most recent distinct keys, by last access |
| Recency.RecentByLastUse | mavlink/router.py:401-414 | of two keys the one accessed last stands last |
| MessageRouting.PutKeepsLatest | mavlink/router.py:401-414 | the latest table keeps every entry under its own key, in strictly increasing stream order, within its limit |
| MessageRouting.LinkedAfterSource | mavlink/router.py:415-440 | every latest entry with a known source stays the message remembered for that source, also when a source is pushed out |
| MessageRules.LatestShows | mavlink/router.py:401-440 | of the other latest entries exactly those stay that are neither the oldest of a full table nor from a source that is pushed out, with their values and in their order |
| MessageRules.SourcesShow | mavlink/router.py:415-440 | the message becomes the last of its kind of its source; everything else remembered stays, but for the source heard longest ago when a new one finds the table full |
| MessageRules.EvictionsAreLosses | mavlink/router.py:405-440 | what is counted as evicted is the number of entries and sources that have left the tables |
| MessageRules.CriteriaNarrow | mavlink/filter.py:133-177 | each criterion of a filter narrows it to the messages that have one of the values |
| MessageRules.GapsCounted | mavlink/router.py:478-485 | a gap of 2 to 64 modulo 256 counts as one less lost, and any other packet as no loss |
| MessageRouting.DroppedIsExact | mavlink/router.py:478-485 | the estimate between two packets is the number lost if and only if that is at most 63, is never too high, and never over 63 |
| MessageRouting.EstimateIsTrueLoss | mavlink/router.py:469-486 | over any interleaving of sources with at most 63 packets lost in a row the running estimate is the number of packets really lost |
| MessageRouters.FindsLastIffKeyDecides | mavlink/router.py:268-312 | without limits, the lookup answers with the last accepted match in every run if and only if the filter never tells apart two possible messages of one key |
| MessageRouters.FaithfulFindsLast | mavlink/router.py:268-312 | without limits, for such a filter the scan finds the last accepted message that matches |
| MessageRouters.KeyOnlyDecides | mavlink/filter.py:133-177 | a filter on type and source alone is such a filter |
| MessageRouters.SingleKeySuffices | mavlink/router.py:286-303 | for a filter with a single type, system and component the direct lookup finds what a scan finds |
| MessageRouters.BestMatchIsNewest | mavlink/router.py:304-312 | the match found is the matching entry with the highest sequence, and is missing only if no entry matches |
| MessageRouters.PredicateMayMissMatches | mavlink/router.py:268-312 | a concrete filter with a predicate misses an older match that a newer message of its key has replaced |
| MessageRouters.MessageRouter.Receive | mavlink/router.py:392-446 | one received message updates both tables, the packet numbers and the estimate, and keeps them linked; without a source limit the latest table is the newest keys with their last messages |
| MessageRouters.MessageRouter.StoreSource | mavlink/router.py:415-440 | a source pushed out takes its packet number and all its latest entries with it |
| MessageRouters.MessageRouter.RecordDelivery | mavlink/router.py:469-486 | each delivery adds between 0 and 63 to the estimate |
| MessageRouters.MessageRouter.Latest | mavlink/router.py:268-312 | fast path or scan, the answer is the newest matching entry; without limits, the last accepted match |
| MessageCaches.MessageCache.Add | mavlink/cache.py:48-60 | the cached keys are the most recently used distinct ones; each bucket is the newest items of its key since it entered |
| MessageCaches.MessageCache.Latest | mavlink/cache.py:80-83 | for a cached key, the last item ever added under it |
| MessageCaches.MessageCache.All | mavlink/cache.py:85-87 | at most the limit of newest items, in order |
| MessageCaches.BucketEndsWithLatest | mavlink/cache.py:80-83 | a bucket never exceeds its limit and ends with the last item added under its key |
| HistoryWriters.HistoryWriter.Submit | mavlink/recording.py:63-74 | a record is queued, or refused as closed, failed or full, and a full queue makes the failure permanent |
| HistoryWriters.HistoryWriter.TakeBatch | mavlink/recording.py:78-91 | a batch is the front of the queue; attempted, in-flight and queued records together stay the submission order |
| HistoryWriters.HistoryWriter.WriteReturned | mavlink/recording.py:92-100 | each batch counts as persisted or as failed, and a failure is permanent |
| HistoryWriters.HistoryWriter.FinishBatch | mavlink/recording.py:101-107 | a batch counts as processed only after its outcome was recorded |
| HistoryWriters.HistoryWriter.FlushEnd | mavlink/recording.py:122-128 | a flush that returns normally means every record submitted before it was written, in order |
| HistoryWriters.HistoryWriter.CloseEnd | mavlink/recording.py:130-137 | a close that returns normally means everything ever submitted was written |
| HistoryWriters.AllWritten | mavlink/recording.py:92-107 | while nothing has failed, what was written is what was attempted |
| VehicleRegistries.ConnectedThroughComponent | mavlink/vehicles.py:499-516 | a vehicle in step with its components is connected exactly when one of them is |
| VehicleRegistries.RightIffInTime | mavlink/vehicles.py:510-555 | after a heartbeat the vehicle is connected exactly when a component is, at every later expiry, if and only if no other connected component was heard after the heartbeat was stamped |
| VehicleRegistries.ObservedInStep | mavlink/vehicles.py:499-521 | a heartbeat puts the vehicle in step with its components exactly when it is in time; any other message changes nothing in this |
| VehicleRegistries.ObservedIsSensible | mavlink/vehicles.py:499-521 | with any timestamps, whatever is connected has been heard and a selected connected component is an autopilot |
| VehicleRegistries.ExpiredOk | mavlink/vehicles.py:533-555 | expiry at any time keeps this and leaves a settled selection |
| VehicleRegistries.ObservedShows | mavlink/vehicles.py:499-521 | what a message changes: a heartbeat connects vehicle and component, is when they were last heard, and says whether the component is an autopilot; other messages are only observed |
| VehicleRegistries.ExpiredShows | mavlink/vehicles.py:533-550 | expiry disconnects exactly the endpoints not heard for the timeout and changes nothing else |
| VehicleRegistries.StoppedShows | mavlink/vehicles.py:664-673 | stopping disconnects every endpoint and changes nothing else |
| VehicleRegistries.LateHeartbeatBreaks | mavlink/runtime.py:349-352 | a concrete late heartbeat, such as the initial one handled by the starting thread beside the reader thread, takes a vehicle down while a component is connected |
| VehicleRegistries.VehicleRegistry.SelectAutopilot | mavlink/vehicles.py:604-611 | a live selection stays; otherwise the lowest live autopilot is selected, or nothing if there is none |
| VehicleRegistries.VehicleRegistry.Accept | mavlink/vehicles.py:475-525 | at any times, only an autopilot's heartbeat creates a vehicle; a heartbeat connects vehicle and component and settles the selection; vehicles whose last heartbeat was in time stay in step |
| VehicleRegistries.VehicleRegistry.Expire | mavlink/vehicles.py:533-559 | at any time, exactly the endpoints not heard for the timeout are disconnected, and every selection is settled |
| VehicleRegistries.VehicleRegistry.RemoveComponent | mavlink/vehicles.py:613-631 | a connected component cannot be removed; removing another one leaves a settled selection alone |
| VehicleRegistries.VehicleRegistry.RemoveVehicle | mavlink/vehicles.py:613-621 | a disconnected vehicle without live components can be removed; the refusal for live components happens only after a late heartbeat |
| VehicleRegistries.VehicleRegistry.Stop | mavlink/vehicles.py:651-675 | stopping disconnects every endpoint |

## Left out

- Transport, sockets, SQLite, real threads, event loops and wall clocks: steps, outcomes and times are parameters.
- JSON: a packet body is a sequence of bytes; decoding the returned body, which may still raise, is not part of this model.
- Mission reasons, progress, checkpoints, events, results of failed attempts and running-time limits: they decide no transition that is modelled, except that a time-out is a failure report like any other.
- Validation of a mission's configuration when it is registered, and the start, stop and close flags of the engine: they refuse calls before any section that is modelled.
- The shortcuts a mission gets when it ends itself from its own thread or callback, and unwinding through nested pause and resume callbacks.
- Parallel groups and background missions: a parallel stage of a chain is a child that reports once.
- The bound on retained chain runs: forgetting a finished run is a step that may happen at any time.
- Whether a launched child's run command still finds the mission as the chain left it: a stage counts as launched when its child is recorded.
- Mission records, chain runs, assemblies and vehicles are values in maps, not shared objects: what a caller sees through an old reference to one is not modelled.
- MissionEngines.MissionEngine.PromoteQueued: does not model commands of other threads between two entries of a pass; the single sections it consists of are steps of the run theorems. A launch that finds another thread finalizing a mission it must stop waits for that thread, whose cleanup and commit then count as part of the pass. What chains and groups do when a preempted mission ends is not part of the pass.
- ApplicationRoundTrip.RoundTrip: does not model loss of the packet through limits or expiry, which its premise excludes call by call; RoundTripWithinLimits gives a premise that can be checked beforehand.
- WaitGraphs.WaitGraph.EndWait: does not model that a waiter woken late keeps its recorded wait until it runs, so that a wait may be refused although the owner has moved on.
- ResourceShutdown.DependencyContainer.Shutdown: does not model disposals of single tokens that run beside it, nor async shutdown; an attempt is one step.
- Once-only creation of singletons: the cache is read before the gate is claimed.
- EventReplay.ExactlyOnce: does not model executors, where handing over is submitting, nor filters that raise.
- EventReplay.OrderIsKept: does not model the publish and subscribe loops as methods of a bus object; their sections are steps.
- The router's history, routes, conditions and delivery window, and waiting for a message.
- MessageCaches.MessageCache.Clear: does not model clearing a single key, after which the cached keys are no longer the most recent ones.
- Pruning of stale endpoints, waits for vehicles, and the actions emitted.
- Async twins of all of these, annotations and signatures, decorators, remote logs, endpoints, benchmarks.
