// Runs after which a promotion pass is cut short, or a mission is stuck (mission/lifecycle.py, mission/scheduler.py).

module MissionInterruption {
  import opened Prelude
  import opened MissionPhases
  import opened MissionState
  import opened MissionSafety
  import opened MissionTermination
  import opened MissionPromotion
  import opened MissionRuns

  /** Two missions want the same resource; each may be tried twice. */
  function Wants(id: MissionId): Mission {
    Mission(id, MissionType("survey", {"survey"}), id, {"arm"}, {}, {}, QueueConflict, RejectMissing, None, 2, 0.0)
  }

  function FirstFailure(): Intent {
    Intent(0, 1, Failed, map[], true)
  }

  function SecondFailure(): Intent {
    Intent(1, 1, Failed, map[], false)
  }

  /** Mission 1 starts, 2 has to wait; 1 fails, goes back to the queue, and is reported as failed again. */
  function LeftoverRun(): seq<Step> {
    [DoRegister(Wants(1)), DoRegister(Wants(2)),
     DoAdmitFirst(1, None, 0.0), DoAdmitSecond(1, 0.0), DoAdmitFirst(2, None, 0.0),
     On(0, DoFail(true), 0.0), On(0, DoFinalizeBegin(FirstFailure(), false), 0.0), On(0, DoCleanup(true), 0.0),
     On(0, DoCommit, 0.0), On(0, DoFail(false), 1.0)]
  }

  // ---------------------------------------------------------------- the records on the way

  function Started(): Runtime {
    NewRuntime(Wants(1)).(phase := Starting, generation := 1, attempt := 1)
  }

  function Stops(): Runtime {
    Started().(phase := Stopping, stopRequested := true, pending := Some(FirstFailure()))
  }

  function Clean(): Runtime {
    Stops().(cleaned := true, finalizer := Cleaned(FirstFailure()))
  }

  function Again(): Runtime {
    Clean().(phase := Queued, finalizer := Idle, pending := None, queuedAt := Some(0.0), nextRetryAt := Some(0.0))
  }

  function Leftover(): Runtime {
    Again().(pending := Some(SecondFailure()))
  }

  function Second(): Runtime {
    NewRuntime(Wants(2)).(phase := Queued, queuedAt := Some(0.0))
  }

  function Both(first: Runtime, second: Runtime, queueIndex: set<MissionId>, nextIntent: nat): Snapshot {
    Snapshot(map[0 := first, 1 := second], map[1 := 0, 2 := 1], queueIndex, 2, nextIntent)
  }

  // ---------------------------------------------------------------- the steps

  lemma Launches(s: State)
    requires Shows(s, None, Both(NewRuntime(Wants(1)), NewRuntime(Wants(2)), {}, 0))
    ensures Apply(s, DoAdmitFirst(1, None, 0.0)) == s
    ensures Shows(Apply(s, DoAdmitSecond(1, 0.0)), None, Both(Started(), NewRuntime(Wants(2)), {}, 0))
  {
    Free(s, Wants(1));
    hide Conflicts, MissingPrerequisitesOf;
  }

  lemma SecondWaits(s: State)
    requires Shows(s, None, Both(Started(), NewRuntime(Wants(2)), {}, 0))
    ensures Shows(Apply(s, DoAdmitFirst(2, None, 0.0)), None, Both(Started(), Second(), {2}, 0))
  {
    assert MissingPrerequisitesOf(s, Wants(2)) == {};
    assert "arm" in Wants(2).resources * Wants(1).resources;
    assert 1 in Conflicts(s, Wants(2));
  }

  lemma Reports(s: State)
    requires Shows(s, None, Both(Started(), Second(), {2}, 0))
    ensures Shows(Apply(s, On(0, DoFail(true), 0.0)), None, Both(Stops(), Second(), {2}, 1))
  {
  }

  lemma Locks(s: State)
    requires Shows(s, None, Both(Stops(), Second(), {2}, 1))
    ensures Shows(Apply(s, On(0, DoFinalizeBegin(FirstFailure(), false), 0.0)), None,
                  Both(Stops().(finalizer := Cleaning(FirstFailure())), Second(), {2}, 1))
  {
  }

  lemma Cleans(s: State)
    requires Shows(s, None, Both(Stops().(finalizer := Cleaning(FirstFailure())), Second(), {2}, 1))
    ensures Shows(Apply(s, On(0, DoCleanup(true), 0.0)), None, Both(Clean(), Second(), {2}, 1))
  {
  }

  lemma GoesBack(s: State)
    requires Shows(s, None, Both(Clean(), Second(), {2}, 1))
    ensures Shows(Apply(s, On(0, DoCommit, 0.0)), None, Both(Again(), Second(), {1, 2}, 1))
  {
  }

  lemma ReportsAgain(s: State)
    requires Shows(s, None, Both(Again(), Second(), {1, 2}, 1))
    ensures Shows(Apply(s, On(0, DoFail(false), 1.0)), None, Both(Leftover(), Second(), {1, 2}, 2))
  {
  }

  lemma LeftoverRunShows()
    ensures Shows(Run(Initial(None, None), LeftoverRun()), None, Both(Leftover(), Second(), {1, 2}, 2))
  {
    var start, steps := Initial(None, None), LeftoverRun();
    LaunchShows();
    hide Shows, Apply, Run, Both, Started, Stops, Clean, Again, Second;
    SecondWaits(Run(start, steps[..4]));
    Then(start, steps, 4);
    Reports(Run(start, steps[..5]));
    Then(start, steps, 5);
    Locks(Run(start, steps[..6]));
    Then(start, steps, 6);
    Cleans(Run(start, steps[..7]));
    Then(start, steps, 7);
    GoesBack(Run(start, steps[..8]));
    Then(start, steps, 8);
    ReportsAgain(Run(start, steps[..9]));
    Then(start, steps, 9);
    assert steps[..10] == steps;
  }

  lemma LaunchShows()
    ensures Shows(Run(Initial(None, None), LeftoverRun()[..4]), None, Both(Started(), NewRuntime(Wants(2)), {}, 0))
  {
    var start, steps := Initial(None, None), LeftoverRun();
    StartShows(None, steps);
    hide Apply, Run, Shows, Started;
    var nothing := Snapshot(map[], map[], {}, 0, 0);
    Registers(Run(start, steps[..0]), None, nothing, Wants(1));
    Then(start, steps, 0);
    var one := Snapshot(map[0 := NewRuntime(Wants(1))], map[1 := 0], {}, 1, 0);
    Registers(Run(start, steps[..1]), None, one, Wants(2));
    Then(start, steps, 1);
    Launches(Run(start, steps[..2]));
    Then(start, steps, 2);
    Then(start, steps, 3);
  }

  /** Both missions wait for nothing, and the first holds the intent of its second failure. */
  lemma BothCouldStart(s: State)
    requires Shows(s, None, Both(Leftover(), Second(), {1, 2}, 2))
    ensures Listable(s) && QueueOrder(s, [1, 2]) && LeftoverBlocks(s, 1, 1.0)
    ensures IsQueued(s, 2) && Due(Find(s, 2).value, 1.0) && Admissible(s, Find(s, 2).value.mission)
  {
    assert Find(s, 1) == Some(Leftover()) && Find(s, 2) == Some(Second());
    Free(s, Wants(1));
    Free(s, Wants(2));
    hide Admissible;
  }

  /**
   * Mission 1 is queued, due and admissible, and holds the intent of the second report. A pass raises at it,
   * changes nothing, and never comes to mission 2, which is due and admissible as well.
   */
  lemma LeftoverIsReachable(w: World)
    requires Iterates(w)
    ensures var s := Run(Initial(None, None), LeftoverRun());
            && Listable(s) && QueueOrder(s, [1, 2])
            && Pass(s, [1, 2], 1.0, w) == (s, false)
            && LeftoverBlocks(s, 1, 1.0)
            && IsQueued(s, 2) && Due(Find(s, 2).value, 1.0) && Admissible(s, Find(s, 2).value.mission)
  {
    var s := Run(Initial(None, None), LeftoverRun());
    LeftoverRunShows();
    RunKeepsInv(None, None, LeftoverRun());
    BothCouldStart(s);
    hide Run, LeftoverRun, Inv, Shows, Admissible, PromoteEntry, LeftoverBlocks, PreemptionFails;
    EntryIsHandled(s, 1, 1.0, w);
    StopsAtFirst(s, w);
  }

  lemma StopsAtFirst(s: State, w: World)
    requires Find(s, 1).Some? && Find(s, 2).Some?
    requires PromoteEntry(s, 1, Find(s, 1).value, 1.0, w) == (s, false)
    ensures Promote(s, [1, 2], 1.0, w) == (s, false)
  {
    hide PromoteEntry;
    assert [1, 2][..1] == [1] && [1][..0] == [];
    assert Promote(s, [1], 1.0, w) == (s, false);
  }

  // ---------------------------------------------------------------- a mission nobody can end

  /** The cleanup of a failure that was reported while the mission was queued has failed. */
  ghost predicate Stuck(s: State, id: MissionId) {
    && IsQueued(s, id)
    && Find(s, id).value.pending.Some? && Find(s, id).value.cleanupError && Find(s, id).value.finalizer.Idle?
  }

  /** Only a cleanup retry, which is refused for a queued mission, or the queue's time limit could help. */
  predicate Helps(s: State, id: MissionId, e: Step) {
    || (e.DoExpire? && e.id == id)
    || (e.On? && e.command.DoFinalizeBegin? && e.command.retryCleanup && id in s.registry && e.reg == s.registry[id])
  }

  /** Every way to end a stuck mission is refused, and a launch of it raises or leaves it in the queue. */
  lemma StuckRefuses(s: State, id: MissionId, seen: Registration, now: real)
    requires Inv(s) && Stuck(s, id)
    ensures var reg := s.registry[id];
            && Finish(s, reg, Stopped, None, now) == (s, Refused(OtherIntent))
            && Finish(s, reg, Cancelled, None, now) == (s, Refused(OtherIntent))
            && RetryCleanup(s, reg) == Refused(NotWaitingForCleanup)
            && FinalizeBegin(s, reg, Find(s, id).value.pending.value, false) == (s, Refused(CleanupFailed))
            && Unregister(s, id, seen).1.Refused?
            && AdmitSecond(s, id, now).0 == s && AdmitSecond(s, id, now).1 != Done
  {
    RecordOk(s, s.registry[id]);
    hide Inv, Decide, AtQueueCapacity, BeginStopping, Record, Put, Advance;
  }

  /** A record that is queued, and whose failure could not be cleaned up after. */
  ghost predicate StuckRecord(s: State, reg: Registration) {
    && reg in s.runtimes
    && var rt := s.runtimes[reg];
       && rt.phase.Queued? && rt.stopRequested
       && rt.pending.Some? && rt.pending.value.phase.Failed? && rt.cleanupError && rt.finalizer.Idle?
  }

  lemma WorkKeepsStuck(s: State, reg: Registration, generation: nat, guardAllows: bool, requester: Option<MissionId>, now: real)
    requires StuckRecord(s, reg)
    ensures WorkerBegin(s, reg, generation, guardAllows, now).0 == s
    ensures PauseBegin(s, reg, requester, now).0 == s
    ensures PauseEnd(s, reg, now).0 == s
    ensures ResumeEnd(s, reg, now).0 == s
  {
    hide Denial, Move, BeginStopping;
  }

  lemma RequestKeepsStuck(s: State, reg: Registration, result: Payload, retryable: bool, requester: Option<MissionId>, now: real)
    requires StuckRecord(s, reg)
    ensures Complete(s, reg, result, now).0 == s
    ensures Fail(s, reg, retryable, now).0 == s
    ensures Finish(s, reg, Stopped, requester, now).0 == s
    ensures Finish(s, reg, Cancelled, requester, now).0 == s
  {
    assert s.runtimes[reg].(stopRequested := true) == s.runtimes[reg];
    assert Put(s, reg, s.runtimes[reg]) == s;
    hide Denial, Put, Record, BeginStopping, Advance;
  }

  lemma EndingKeepsStuck(s: State, reg: Registration, intent: Intent, stopOk: bool, now: real)
    requires StuckRecord(s, reg)
    ensures FinalizeBegin(s, reg, intent, false).0 == s
    ensures Cleanup(s, reg, stopOk).0 == s
    ensures Commit(s, reg, now).0 == s
  {
    hide Put, Record, Advance;
  }

  lemma OwnStepKeepsStuck(s: State, id: MissionId, c: Command, now: real)
    requires Inv(s) && Stuck(s, id) && !Helps(s, id, On(s.registry[id], c, now))
    ensures Execute(s, s.registry[id], c, now).0 == s
  {
    var reg := s.registry[id];
    RecordOk(s, reg);
    hide Inv, WorkerBegin, PauseBegin, PauseEnd, ResumeEnd, Complete, Fail, Finish, FinalizeBegin, Cleanup, Commit;
    match c
    case DoWorkerBegin(generation, guardAllows) => WorkKeepsStuck(s, reg, generation, guardAllows, None, now);
    case DoPauseBegin(requester) => WorkKeepsStuck(s, reg, 0, true, requester, now);
    case DoPauseEnd => WorkKeepsStuck(s, reg, 0, true, None, now);
    case DoResumeEnd => WorkKeepsStuck(s, reg, 0, true, None, now);
    case DoComplete(result) => RequestKeepsStuck(s, reg, result, false, None, now);
    case DoFail(retryable) => RequestKeepsStuck(s, reg, map[], retryable, None, now);
    case DoStop(requester) => RequestKeepsStuck(s, reg, map[], false, requester, now);
    case DoCancel(requester) => RequestKeepsStuck(s, reg, map[], false, requester, now);
    case DoFinalizeBegin(intent, retryCleanup) => EndingKeepsStuck(s, reg, intent, true, now);
    case DoCleanup(stopOk) => EndingKeepsStuck(s, reg, FirstFailure(), stopOk, now);
    case DoCommit => EndingKeepsStuck(s, reg, FirstFailure(), true, now);
  }

  lemma OtherStepKeepsStuck(s: State, t: State, id: MissionId, other: Registration)
    requires Stuck(s, id) && Local(s, t, other) && other != s.registry[id]
    ensures Stuck(t, id)
  {
  }

  lemma OwnAdmissionKeepsStuck(s: State, id: MissionId, requester: Option<MissionId>, now: real)
    requires Inv(s) && Stuck(s, id)
    ensures AdmitFirst(s, id, requester, now).0 == s && AdmitSecond(s, id, now).0 == s
  {
    hide Inv, Denial, Decide, AtQueueCapacity;
  }

  lemma {:induction false} DiscardKeepsStuck(s: State, ids: seq<MissionId>, id: MissionId)
    requires Stuck(s, id)
    ensures Stuck(Discard(s, ids), id)
    decreases |ids|
  {
    if ids != [] {
      var rt := Find(s, ids[0]);
      DiscardKeepsStuck(if rt.Some? && rt.value.phase.Terminal() then s.(registry := s.registry - {ids[0]}) else s, ids[1..], id);
    }
  }

  lemma DifferentRecords(s: State, id: MissionId, other: MissionId)
    requires Inv(s) && Find(s, id).Some? && Find(s, other).Some? && id != other
    ensures s.registry[id] != s.registry[other]
  {
  }

  lemma RegistrationKeepsStuck(s: State, id: MissionId, m: Mission)
    requires Inv(s) && Stuck(s, id)
    ensures Stuck(Register(s, m).0, id)
  {
    RegistrationIsFresh(s);
  }

  lemma UnregistrationKeepsStuck(s: State, id: MissionId, other: MissionId, seen: Registration)
    requires Stuck(s, id)
    ensures Stuck(Unregister(s, other, seen).0, id)
  {
  }

  lemma PublicationKeepsStuck(s: State, id: MissionId)
    requires Stuck(s, id)
    ensures Stuck(Publish(s), id)
  {
  }

  lemma StepKeepsStuck(s: State, id: MissionId, e: Step)
    requires Inv(s) && Stuck(s, id) && !Helps(s, id, e)
    ensures Stuck(Apply(s, e), id)
  {
    var own := s.registry[id];
    hide Register, Unregister, Discard, AdmitFirst, AdmitSecond, ExpireQueued, Execute, Inv, Local, Stuck;
    match e
    case DoRegister(m) => RegistrationKeepsStuck(s, id, m);
    case DoUnregister(other, seen) => UnregistrationKeepsStuck(s, id, other, seen);
    case DoDiscard(ids) => DiscardKeepsStuck(s, ids, id);
    case DoAdmitFirst(other, requester, now) => AdmissionKeepsStuck(s, id, other, requester, now);
    case DoAdmitSecond(other, now) => AdmissionKeepsStuck(s, id, other, None, now);
    case DoExpire(other, generation, queuedAt, now) => ExpiryKeepsStuck(s, id, other, generation, queuedAt, now);
    case DoPublish => PublicationKeepsStuck(s, id);
    case On(reg, c, now) =>
      if reg == own {
        OwnStepKeepsStuck(s, id, c, now);
      } else if reg in s.runtimes {
        ExecuteIsLocal(s, reg, c, now);
        OtherStepKeepsStuck(s, Execute(s, reg, c, now).0, id, reg);
      }
  }

  lemma AdmissionKeepsStuck(s: State, id: MissionId, other: MissionId, requester: Option<MissionId>, now: real)
    requires Inv(s) && Stuck(s, id)
    ensures Stuck(AdmitFirst(s, other, requester, now).0, id) && Stuck(AdmitSecond(s, other, now).0, id)
  {
    hide Inv, AdmitFirst, AdmitSecond, Local, Stuck;
    if other == id {
      OwnAdmissionKeepsStuck(s, id, requester, now);
    } else if Find(s, other).None? {
      UnknownAdmission(s, other, requester, now);
    } else {
      StuckFinds(s, id);
      DifferentRecords(s, id, other);
      AdmissionIsLocal(s, other, requester, now);
      OtherStepKeepsStuck(s, AdmitFirst(s, other, requester, now).0, id, s.registry[other]);
      OtherStepKeepsStuck(s, AdmitSecond(s, other, now).0, id, s.registry[other]);
    }
  }

  lemma StuckFinds(s: State, id: MissionId)
    requires Stuck(s, id)
    ensures Find(s, id).Some?
  {
  }

  lemma ExpiryKeepsStuck(s: State, id: MissionId, other: MissionId, generation: nat, queuedAt: Option<real>, now: real)
    requires Inv(s) && Stuck(s, id) && other != id
    ensures Stuck(ExpireQueued(s, other, generation, queuedAt, now).0, id)
  {
    hide Inv, Local, QueueTimedOut, Advance;
    if ExpireQueued(s, other, generation, queuedAt, now).1.Done? {
      DifferentRecords(s, id, other);
      RecordIsLocal(s, s.registry[other], Advance(s.runtimes[s.registry[other]], Failed, now));
      OtherStepKeepsStuck(s, Move(s, s.registry[other], Failed, now), id, s.registry[other]);
    }
  }

  /** No step of the run helps the mission. */
  ghost predicate NothingHelps(s: State, id: MissionId, steps: seq<Step>)
    decreases |steps|
  {
    steps != [] ==>
      && NothingHelps(s, id, steps[..|steps| - 1])
      && !Helps(Run(s, steps[..|steps| - 1]), id, steps[|steps| - 1])
  }

  /** Whatever else happens, a stuck mission stays in the queue, and can neither be ended nor unregistered. */
  lemma {:induction false} StuckForGood(s: State, id: MissionId, steps: seq<Step>)
    requires Inv(s) && Stuck(s, id) && NothingHelps(s, id, steps)
    ensures Inv(Run(s, steps)) && Stuck(Run(s, steps), id)
    decreases |steps|
  {
    hide Inv, Stuck, Helps, Apply;
    if steps != [] {
      StuckForGood(s, id, steps[..|steps| - 1]);
      StepKeepsInv(Run(s, steps[..|steps| - 1]), steps[|steps| - 1]);
      StepKeepsStuck(Run(s, steps[..|steps| - 1]), id, steps[|steps| - 1]);
    }
  }

  // ---------------------------------------------------------------- how a mission gets stuck

  function Requires(): Mission {
    Mission(1, MissionType("survey", {"survey"}), 1, {}, {}, {"map"}, QueueConflict, QueueMissing, None, 0, 0.0)
  }

  function Report(): Intent {
    Intent(0, 0, Failed, map[], false)
  }

  /** A mission waits for a prerequisite, is reported as failed, and its `stop()` raises. */
  function StuckRun(): seq<Step> {
    [DoRegister(Requires()), DoAdmitFirst(1, None, 0.0), On(0, DoFail(false), 0.0),
     On(0, DoFinalizeBegin(Report(), false), 0.0), On(0, DoCleanup(false), 0.0)]
  }

  lemma StuckIsReachable()
    ensures Stuck(Run(Initial(None, None), StuckRun()), 1)
  {
    var start, steps := Initial(None, None), StuckRun();
    StartShows(None, steps);
    var waits := NewRuntime(Requires()).(phase := Queued, queuedAt := Some(0.0));
    var asked := waits.(stopRequested := true, pending := Some(Report()));
    var x := Snapshot(map[0 := NewRuntime(Requires())], map[1 := 0], {}, 1, 0);
    hide Run;
    Registers(Run(start, steps[..0]), None, Snapshot(map[], map[], {}, 0, 0), Requires());
    Then(start, steps, 0);
    Then(start, steps, 1);
    WaitsForMap(Run(start, steps[..1]));
    Then(start, steps, 2);
    Then(start, steps, 3);
    Then(start, steps, 4);
    StopRaises(Run(start, steps[..2]));
    assert steps[..5] == steps;
    hide Apply, Stuck;
  }

  lemma WaitsForMap(s: State)
    requires Shows(s, None, Snapshot(map[0 := NewRuntime(Requires())], map[1 := 0], {}, 1, 0))
    ensures Shows(Apply(s, DoAdmitFirst(1, None, 0.0)), None,
                  Snapshot(map[0 := NewRuntime(Requires()).(phase := Queued, queuedAt := Some(0.0))], map[1 := 0], {1}, 1, 0))
  {
    assert !PrerequisiteMet(s, "map");
    assert "map" in MissingPrerequisitesOf(s, Requires());
    hide MissingPrerequisitesOf;
  }

  lemma StopRaises(s: State)
    requires Shows(s, None, Snapshot(map[0 := NewRuntime(Requires()).(phase := Queued, queuedAt := Some(0.0))], map[1 := 0], {1}, 1, 0))
    ensures var failed := Apply(s, On(0, DoFail(false), 0.0));
            var locked := Apply(failed, On(0, DoFinalizeBegin(Report(), false), 0.0));
            Stuck(Apply(locked, On(0, DoCleanup(false), 0.0)), 1)
  {
  }
}
