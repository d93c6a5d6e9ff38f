// What a record that has left the registry can do to the queue index, shown on runs
// (mission/lifecycle.py, mission/engine.py, mission/scheduler.py).

module MissionStrayRecords {
  import opened Prelude
  import opened MissionPhases
  import opened MissionState
  import opened MissionSafety
  import opened MissionQueueIndex
  import opened MissionTermination
  import opened MissionPromotion
  import opened MissionRuns

  // ---------------------------------------------------------------- the records on the way

  /** A mission that waits for one of class `map`, and may be tried once more. */
  function Needs(id: MissionId): Mission {
    Mission(id, MissionType("survey", {"survey"}), 1, {}, {}, {"map"}, QueueConflict, QueueMissing, None, 1, 0.0)
  }

  function Failure(): Intent {
    Intent(0, 0, Failed, map[], true)
  }

  function Asked(): Runtime {
    NewRuntime(Needs(1)).(stopRequested := true, pending := Some(Failure()))
  }

  function Locked(): Runtime {
    Asked().(finalizer := Cleaning(Failure()))
  }

  function Clean(): Runtime {
    Asked().(cleaned := true, finalizer := Cleaned(Failure()))
  }

  function Stray(): Runtime {
    Clean().(phase := Queued, finalizer := Idle, pending := None, queuedAt := Some(0.0), nextRetryAt := Some(0.0))
  }

  function Gone(): Runtime {
    Stray().(phase := Cancelled)
  }

  function Waits(id: MissionId): Runtime {
    NewRuntime(Needs(id)).(phase := Queued, queuedAt := Some(0.0))
  }

  // ---------------------------------------------------------------- the steps

  lemma Fails(s: State, limit: Option<nat>, x: Snapshot)
    requires Shows(s, limit, x) && 0 in x.runtimes && x.runtimes[0] == NewRuntime(Needs(1)) && x.nextIntent == 0
    ensures Shows(Apply(s, On(0, DoFail(true), 0.0)), limit, x.(runtimes := x.runtimes[0 := Asked()], nextIntent := 1))
  {
  }

  lemma Unregisters(s: State, limit: Option<nat>, x: Snapshot)
    requires Shows(s, limit, x) && x.runtimes == map[0 := Asked()] && x.registry == map[1 := 0]
    ensures Shows(Apply(s, DoUnregister(1, 0)), limit, x.(registry := map[]))
  {
    assert Find(s, 1) == Some(Asked());
    assert x.registry - {1} == map[];
  }

  lemma Locks(s: State, limit: Option<nat>, x: Snapshot)
    requires Shows(s, limit, x) && 0 in x.runtimes && x.runtimes[0] == Asked()
    ensures Shows(Apply(s, On(0, DoFinalizeBegin(Failure(), false), 0.0)), limit, x.(runtimes := x.runtimes[0 := Locked()]))
  {
  }

  lemma Cleans(s: State, limit: Option<nat>, x: Snapshot)
    requires Shows(s, limit, x) && 0 in x.runtimes && x.runtimes[0] == Locked()
    ensures Shows(Apply(s, On(0, DoCleanup(true), 0.0)), limit, x.(runtimes := x.runtimes[0 := Clean()]))
  {
  }

  lemma GoesBack(s: State, limit: Option<nat>, x: Snapshot)
    requires Shows(s, limit, x) && 0 in x.runtimes && x.runtimes[0] == Clean()
    requires limit.Some? ==> |x.queueIndex| < limit.value
    ensures Shows(Apply(s, On(0, DoCommit, 0.0)), limit,
                  x.(runtimes := x.runtimes[0 := Stray()], queueIndex := x.queueIndex + {1}))
  {
    Requeues(s);
  }

  lemma Requeues(s: State)
    requires 0 in s.runtimes && s.runtimes[0] == Clean() && !AtQueueCapacity(s)
    ensures var t := Commit(s, 0, 0.0).0;
            t == s.(runtimes := s.runtimes[0 := Stray()], queueIndex := s.queueIndex + {1}, history := t.history)
  {
    EndingIs(Clean(), Failure(), 0.0);
    CommitIs(s, 0, 0.0);
    hide Commit, AtQueueCapacity;
    var failed := Ending(Clean(), Failure(), 0.0);
    var t := Record(s, 0, failed);
    RoomIsSame(s, t);
    assert Requeue(t, 0, 0.0).runtimes[0] == Stray();
    assert Requeue(t, 0, 0.0).runtimes == s.runtimes[0 := Stray()];
  }

  lemma IsCancelled(s: State, limit: Option<nat>, x: Snapshot)
    requires Shows(s, limit, x) && 0 in x.runtimes && x.runtimes[0] == Stray()
    ensures Shows(Apply(s, On(0, DoCancel(None), 0.0)), limit,
                  x.(runtimes := x.runtimes[0 := Gone()], queueIndex := x.queueIndex - {1}))
  {
  }

  lemma Queues(s: State, limit: Option<nat>, x: Snapshot, id: MissionId)
    requires Shows(s, limit, x) && id in x.registry && x.registry[id] in x.runtimes
    requires x.runtimes[x.registry[id]] == NewRuntime(Needs(id))
    requires forall reg :: reg in x.runtimes ==> !x.runtimes[reg].phase.Succeeded?
    requires limit.Some? ==> |x.queueIndex| < limit.value
    ensures Shows(Apply(s, DoAdmitFirst(id, None, 0.0)), limit,
                  x.(runtimes := x.runtimes[x.registry[id] := Waits(id)], queueIndex := x.queueIndex + {id}))
  {
    assert !PrerequisiteMet(s, "map");
    assert "map" in MissingPrerequisitesOf(s, Needs(id));
    hide MissingPrerequisitesOf;
  }

  // ---------------------------------------------------------------- a retry after the mission left the registry

  /** A failure reported before the start; the mission leaves the registry before the failure is finalized. */
  function StrayRun(): seq<Step> {
    [DoRegister(Needs(1)), On(0, DoFail(true), 0.0), DoUnregister(1, 0),
     On(0, DoFinalizeBegin(Failure(), false), 0.0), On(0, DoCleanup(true), 0.0)]
  }

  /** Both runs below begin in this way. */
  lemma LeavesTheRegistry(limit: Option<nat>, steps: seq<Step>)
    requires |steps| > 3 && steps[0] == DoRegister(Needs(1)) && steps[1] == On(0, DoFail(true), 0.0) && steps[2] == DoUnregister(1, 0)
    ensures Shows(Run(Initial(None, limit), steps[..3]), limit, Snapshot(map[0 := Asked()], map[], {}, 1, 1))
  {
    var start := Initial(None, limit);
    StartShows(limit, steps);
    hide Apply, Run, Shows, Asked;
    Registers(Run(start, steps[..0]), limit, Snapshot(map[], map[], {}, 0, 0), Needs(1));
    Then(start, steps, 0);
    var x := Snapshot(map[0 := NewRuntime(Needs(1))], map[1 := 0], {}, 1, 0);
    Fails(Run(start, steps[..1]), limit, x);
    Then(start, steps, 1);
    Unregisters(Run(start, steps[..2]), limit, x.(runtimes := map[0 := Asked()], nextIntent := 1));
    Then(start, steps, 2);
  }

  lemma StrayRunShows(limit: Option<nat>)
    ensures Shows(Run(Initial(None, limit), StrayRun()), limit, Snapshot(map[0 := Clean()], map[], {}, 1, 1))
  {
    var start, steps := Initial(None, limit), StrayRun();
    LeavesTheRegistry(limit, steps);
    hide Apply, Run, Shows, Asked, Locked, Clean;
    Locks(Run(start, steps[..3]), limit, Snapshot(map[0 := Asked()], map[], {}, 1, 1));
    Then(start, steps, 3);
    Cleans(Run(start, steps[..4]), limit, Snapshot(map[0 := Locked()], map[], {}, 1, 1));
    Then(start, steps, 4);
    assert steps[..5] == steps;
  }

  /** The retry that breaks the agreement is reachable. */
  lemma StrayRetryIsReachable()
    ensures var s := Run(Initial(None, None), StrayRun());
            && StrayRetryStep(s, On(0, DoCommit, 0.0))
            && QueueAgrees(s) && !QueueAgrees(Apply(s, On(0, DoCommit, 0.0)))
  {
    var s := Run(Initial(None, None), StrayRun());
    StrayRunShows(None);
    RunKeepsInv(None, None, StrayRun());
    hide Run, StrayRun, Inv, Apply;
    assert QueuedIds(s) == {};
    assert StrayRetry(s, 0);
    StepKeepsQueue(s, On(0, DoCommit, 0.0));
  }

  /** After it, the queue index holds a mission that is not registered, and every pass raises at once and changes nothing. */
  lemma NextPassRaises(now: real, w: World)
    ensures var s := Apply(Run(Initial(None, None), StrayRun()), On(0, DoCommit, 0.0));
            && 1 in s.queueIndex && Find(s, 1).None? && !Listable(s)
            && forall order :: Pass(s, order, now, w) == (s, false)
  {
    StrayRunShows(None);
    var s := Run(Initial(None, None), StrayRun());
    hide Run, StrayRun, Apply;
    GoesBack(s, None, Snapshot(map[0 := Clean()], map[], {}, 1, 1));
    var t := Apply(s, On(0, DoCommit, 0.0));
    assert 1 in t.queueIndex && Find(t, 1).None?;
    forall order ensures Pass(t, order, now, w) == (t, false) {
    }
  }

  // ---------------------------------------------------------------- more missions queued than the limit allows

  /**
   * The mission is registered again, and waits, before the old record goes back to the queue. Then the old
   * record is cancelled, by a thread that still holds it, and two more missions are launched.
   */
  function LimitRun(): seq<Step> {
    [DoRegister(Needs(1)), On(0, DoFail(true), 0.0), DoUnregister(1, 0),
     DoRegister(Needs(1)), DoAdmitFirst(1, None, 0.0),
     On(0, DoFinalizeBegin(Failure(), false), 0.0), On(0, DoCleanup(true), 0.0), On(0, DoCommit, 0.0),
     On(0, DoCancel(None), 0.0),
     DoRegister(Needs(2)), DoAdmitFirst(2, None, 0.0), DoRegister(Needs(3)), DoAdmitFirst(3, None, 0.0)]
  }

  function TwoRecords(old': Runtime, new': Runtime, queueIndex: set<MissionId>): Snapshot {
    Snapshot(map[0 := old', 1 := new'], map[1 := 1], queueIndex, 2, 1)
  }

  lemma TwoRecordsMove(old': Runtime, new': Runtime, queueIndex: set<MissionId>)
    ensures var x := TwoRecords(old', new', queueIndex);
            && 0 in x.runtimes && x.runtimes[0] == old' && x.queueIndex == queueIndex
            && forall r: Runtime, q: set<MissionId> ::
                 x.(runtimes := x.runtimes[0 := r], queueIndex := q) == TwoRecords(r, new', q)
  {
  }

  lemma LimitSteps()
    ensures |LimitRun()| == 13
    ensures LimitRun()[5] == On(0, DoFinalizeBegin(Failure(), false), 0.0) && LimitRun()[6] == On(0, DoCleanup(true), 0.0)
    ensures LimitRun()[7] == On(0, DoCommit, 0.0) && LimitRun()[8] == On(0, DoCancel(None), 0.0)
    ensures LimitRun()[9] == DoRegister(Needs(2)) && LimitRun()[10] == DoAdmitFirst(2, None, 0.0)
    ensures LimitRun()[11] == DoRegister(Needs(3)) && LimitRun()[12] == DoAdmitFirst(3, None, 0.0)
    ensures LimitRun()[..13] == LimitRun()
  {
  }

  lemma RegisteredAgain()
    ensures Shows(Run(Initial(None, Some(2)), LimitRun()[..5]), Some(2), TwoRecords(Asked(), Waits(1), {1}))
  {
    var start, steps, limit := Initial(None, Some(2)), LimitRun(), Some(2);
    LeavesTheRegistry(limit, steps);
    assert steps[3] == DoRegister(Needs(1)) && steps[4] == DoAdmitFirst(1, None, 0.0);
    hide Apply, Run, Shows, LimitRun, NewRuntime, Needs;
    Then(start, steps, 3);
    Then(start, steps, 4);
    ComesBack(Run(start, steps[..3]));
  }

  lemma ComesBack(s: State)
    requires Shows(s, Some(2), Snapshot(map[0 := Asked()], map[], {}, 1, 1))
    ensures Shows(Apply(Apply(s, DoRegister(Needs(1))), DoAdmitFirst(1, None, 0.0)), Some(2), TwoRecords(Asked(), Waits(1), {1}))
  {
    NoneSucceeded();
    hide Apply, Shows, Asked, Waits;
    Registers(s, Some(2), Snapshot(map[0 := Asked()], map[], {}, 1, 1), Needs(1));
    var x := TwoRecords(Asked(), NewRuntime(Needs(1)), {});
    Queues(Apply(s, DoRegister(Needs(1))), Some(2), x, 1);
    assert x.runtimes[1 := Waits(1)] == map[0 := Asked(), 1 := Waits(1)];
  }

  lemma NoneSucceeded()
    ensures !Asked().phase.Succeeded? && !Gone().phase.Succeeded?
    ensures forall id :: !Waits(id).phase.Succeeded?
  {
  }

  lemma CleanedUp()
    ensures Shows(Run(Initial(None, Some(2)), LimitRun()[..7]), Some(2), TwoRecords(Clean(), Waits(1), {1}))
  {
    var start, steps, limit := Initial(None, Some(2)), LimitRun(), Some(2);
    RegisteredAgain();
    LimitSteps();
    hide Apply, Run, Shows, Asked, Waits, Locked, Clean, LimitRun, TwoRecords;
    TwoRecordsMove(Asked(), Waits(1), {1});
    Locks(Run(start, steps[..5]), limit, TwoRecords(Asked(), Waits(1), {1}));
    Then(start, steps, 5);
    TwoRecordsMove(Locked(), Waits(1), {1});
    Cleans(Run(start, steps[..6]), limit, TwoRecords(Locked(), Waits(1), {1}));
    Then(start, steps, 6);
  }

  lemma LosesTheMission()
    ensures Shows(Run(Initial(None, Some(2)), LimitRun()[..9]), Some(2), TwoRecords(Gone(), Waits(1), {}))
  {
    var start, steps, limit := Initial(None, Some(2)), LimitRun(), Some(2);
    CleanedUp();
    LimitSteps();
    hide Apply, Run, Shows, Waits, Clean, Stray, Gone, LimitRun, TwoRecords;
    TwoRecordsMove(Clean(), Waits(1), {1});
    assert {1} + {1} == {1} && |{1}| == 1;
    GoesBack(Run(start, steps[..7]), limit, TwoRecords(Clean(), Waits(1), {1}));
    Then(start, steps, 7);
    TwoRecordsMove(Stray(), Waits(1), {1});
    assert {1} - {1} == {};
    IsCancelled(Run(start, steps[..8]), limit, TwoRecords(Stray(), Waits(1), {1}));
    Then(start, steps, 8);
  }

  lemma LimitRunShows()
    ensures Shows(Run(Initial(None, Some(2)), LimitRun()), Some(2),
                  Snapshot(map[0 := Gone(), 1 := Waits(1), 2 := Waits(2), 3 := Waits(3)], map[1 := 1, 2 := 2, 3 := 3], {2, 3}, 4, 1))
  {
    var start, steps := Initial(None, Some(2)), LimitRun();
    LosesTheMission();
    LimitSteps();
    hide Apply, Run, Shows, Waits, Gone, TwoRecords, LimitRun;
    Then(start, steps, 9);
    Then(start, steps, 10);
    SecondQueues(Run(start, steps[..9]));
    Then(start, steps, 11);
    Then(start, steps, 12);
    ThirdQueues(Run(start, steps[..11]));
  }

  lemma SecondQueues(s: State)
    requires Shows(s, Some(2), TwoRecords(Gone(), Waits(1), {}))
    ensures Shows(Apply(Apply(s, DoRegister(Needs(2))), DoAdmitFirst(2, None, 0.0)), Some(2),
                  Snapshot(map[0 := Gone(), 1 := Waits(1), 2 := Waits(2)], map[1 := 1, 2 := 2], {2}, 3, 1))
  {
    NoneSucceeded();
    hide Apply, Shows, Waits, Gone;
    Registers(s, Some(2), TwoRecords(Gone(), Waits(1), {}), Needs(2));
    var x := Snapshot(map[0 := Gone(), 1 := Waits(1), 2 := NewRuntime(Needs(2))], map[1 := 1, 2 := 2], {}, 3, 1);
    Queues(Apply(s, DoRegister(Needs(2))), Some(2), x, 2);
    assert x.runtimes[2 := Waits(2)] == map[0 := Gone(), 1 := Waits(1), 2 := Waits(2)];
  }

  lemma ThirdQueues(s: State)
    requires Shows(s, Some(2), Snapshot(map[0 := Gone(), 1 := Waits(1), 2 := Waits(2)], map[1 := 1, 2 := 2], {2}, 3, 1))
    ensures Shows(Apply(Apply(s, DoRegister(Needs(3))), DoAdmitFirst(3, None, 0.0)), Some(2),
                  Snapshot(map[0 := Gone(), 1 := Waits(1), 2 := Waits(2), 3 := Waits(3)], map[1 := 1, 2 := 2, 3 := 3], {2, 3}, 4, 1))
  {
    NoneSucceeded();
    hide Apply, Shows, Waits, Gone;
    var x := Snapshot(map[0 := Gone(), 1 := Waits(1), 2 := Waits(2)], map[1 := 1, 2 := 2], {2}, 3, 1);
    Registers(s, Some(2), x, Needs(3));
    var y := Snapshot(map[0 := Gone(), 1 := Waits(1), 2 := Waits(2), 3 := NewRuntime(Needs(3))], map[1 := 1, 2 := 2, 3 := 3], {2}, 4, 1);
    Queues(Apply(s, DoRegister(Needs(3))), Some(2), y, 3);
    assert {2} + {3} == {2, 3};
    assert y.runtimes[3 := Waits(3)] == map[0 := Gone(), 1 := Waits(1), 2 := Waits(2), 3 := Waits(3)];
  }

  /** Three missions are queued though the limit is two, and the index has lost one of them. */
  lemma QueueLimitIsExceeded()
    ensures var s := Run(Initial(None, Some(2)), LimitRun());
            QueuedIds(s) == {1, 2, 3} && |QueuedIds(s)| > 2 && s.queueIndex == {2, 3} && Listable(s)
  {
    LimitRunShows();
    var s := Run(Initial(None, Some(2)), LimitRun());
    hide Run, LimitRun;
    assert QueuedIds(s) == {1, 2, 3};
  }
}
