// When the queue index is the set of queued missions, and what makes it something else
// (mission/engine.py, mission/lifecycle.py).

module MissionQueueIndex {
  import opened Prelude
  import opened MissionPhases
  import opened MissionState
  import opened MissionSafety

  /** No record outside the registry waits in the queue. */
  ghost predicate NoStrayQueueEntry(s: State) {
    forall reg :: reg in s.runtimes && s.runtimes[reg].phase.Queued? ==> Attached(s, reg)
  }

  /** The index is the set of queued missions, and every record in the queue is registered. */
  ghost predicate QueueAgrees(s: State) {
    s.queueIndex == QueuedIds(s) && NoStrayQueueEntry(s)
  }

  /**
   * A retryable failure, reported on a mission that never started and has since left the registry,
   * is about to be committed with room in the queue.
   */
  ghost predicate StrayRetry(s: State, reg: Registration)
    requires reg in s.runtimes
  {
    var rt := s.runtimes[reg];
    && !Attached(s, reg)
    && rt.phase.Registered?
    && rt.finalizer.Cleaned?
    && WillRetry(s, rt, rt.finalizer.intent)
  }

  ghost predicate StrayRetryStep(s: State, e: Step) {
    e.On? && e.command.DoCommit? && e.reg in s.runtimes && StrayRetry(s, e.reg)
  }

  // ---------------------------------------------------------------- one change

  /** A record is replaced by one in the same phase. */
  lemma PutKeepsQueue(s: State, reg: Registration, rt: Runtime)
    requires Wired(s) && QueueAgrees(s) && reg in s.runtimes
    requires rt.mission == s.runtimes[reg].mission && rt.phase == s.runtimes[reg].phase
    ensures QueueAgrees(Put(s, reg, rt))
  {
    QueuedAfterPut(s, reg, rt);
    hide Wired;
  }

  lemma OtherFieldsKeepQueue(s: State, t: State)
    requires QueueAgrees(s) && t.runtimes == s.runtimes && t.registry == s.registry && t.queueIndex == s.queueIndex
    ensures QueueAgrees(t)
  {
    assert forall id :: Find(t, id) == Find(s, id);
  }

  /** The index follows a change of a registered record, and of any other as long as that stays out of the queue. */
  lemma RecordKeepsQueue(s: State, reg: Registration, rt: Runtime)
    requires Wired(s) && QueueAgrees(s) && reg in s.runtimes && rt.mission == s.runtimes[reg].mission
    ensures QueueAgrees(Record(s, reg, rt)) <==> Attached(s, reg) || !rt.phase.Queued?
  {
    RecordMovesQueue(s, reg, rt);
    hide QueuedIds, Wired;
    var s' := Record(s, reg, rt);
    if !Attached(s, reg) && rt.phase.Queued? {
      assert !Attached(s', reg) && s'.runtimes[reg].phase.Queued?;
    } else {
      forall r | r in s'.runtimes && s'.runtimes[r].phase.Queued? ensures Attached(s', r) {
        assert Attached(s, r);
      }
    }
  }

  /** What a recorded change does to the index, and to the set it stands for. */
  lemma RecordMovesQueue(s: State, reg: Registration, rt: Runtime)
    requires Wired(s) && QueueAgrees(s) && reg in s.runtimes && rt.mission == s.runtimes[reg].mission
    ensures QueuedIds(Record(s, reg, rt)) == QueuedIds(s) - Own(s, reg) + (if rt.phase.Queued? then Own(s, reg) else {})
    ensures Attached(s, reg) || !rt.phase.Queued? ==> Record(s, reg, rt).queueIndex == QueuedIds(Record(s, reg, rt))
  {
    QueuedAfterPut(s, reg, rt);
    SameRecords(Put(s, reg, rt), Record(s, reg, rt));
    hide Wired, Find;
    assert !Attached(s, reg) ==> !s.runtimes[reg].phase.Queued?;
  }

  /** A record outside the registry that enters the queue puts its id into the index, whoever holds that id by now. */
  lemma StrayRequeueDisagrees(s: State, reg: Registration, rt: Runtime)
    requires Wired(s) && QueueAgrees(s) && reg in s.runtimes && !Attached(s, reg)
    requires rt.mission == s.runtimes[reg].mission && rt.phase.Queued?
    ensures var s' := Record(s, reg, rt);
            && !NoStrayQueueEntry(s')
            && (s'.queueIndex == QueuedIds(s') <==> IsQueued(s, rt.mission.id))
  {
    RecordKeepsQueue(s, reg, rt);
    RecordMovesQueue(s, reg, rt);
    var s', id := Record(s, reg, rt), rt.mission.id;
    assert IsQueued(s, id) <==> id in QueuedIds(s);
    assert !Attached(s', reg) && !s.runtimes[reg].phase.Queued?;
    hide QueuedIds, Wired, IsQueued, Attached;
    assert QueuedIds(s') == QueuedIds(s);
    assert s'.queueIndex == QueuedIds(s) + {id};
  }

  // ---------------------------------------------------------------- every section

  lemma MoveKeepsQueue(s: State, reg: Registration, to: Phase, now: real)
    requires Wired(s) && QueueAgrees(s) && reg in s.runtimes && (Attached(s, reg) || !to.Queued?)
    ensures QueueAgrees(Move(s, reg, to, now))
  {
    hide Wired, QueueAgrees, Attached, Record;
    RecordKeepsQueue(s, reg, Advance(s.runtimes[reg], to, now));
  }

  lemma BeginStoppingKeepsQueue(s: State, reg: Registration, phase: Phase, result: Payload, retryable: bool, now: real)
    requires Wired(s) && QueueAgrees(s) && reg in s.runtimes
    ensures QueueAgrees(BeginStopping(s, reg, phase, result, retryable, now).0)
  {
    hide Wired, QueueAgrees, Record, Put;
    var rt := s.runtimes[reg].(stopRequested := true);
    var stopping := Advance(rt, Stopping, now);
    var intent := Intent(s.nextIntent, stopping.generation, phase, result, retryable);
    PutKeepsQueue(s, reg, rt);
    AdvanceSets(rt, now);
    RecordKeepsQueue(s, reg, stopping);
    RecordKeepsQueue(s, reg, stopping.(pending := Some(intent)));
    var t := Record(s, reg, stopping.(pending := Some(intent)));
    OtherFieldsKeepQueue(t, t.(nextIntent := s.nextIntent + 1));
    hide Advance;
  }

  lemma AdvanceSets(rt: Runtime, now: real)
    ensures Advance(rt, Stopping, now).phase == Stopping && Advance(rt, Stopping, now).mission == rt.mission
  {
  }

  lemma AdmissionKeepsQueue(s: State, id: MissionId, requester: Option<MissionId>, now: real)
    requires Inv(s) && QueueAgrees(s)
    ensures QueueAgrees(AdmitFirst(s, id, requester, now).0) && QueueAgrees(AdmitSecond(s, id, now).0)
  {
    hide QueueAgrees, Denial, Decide, StartAttempt, Enqueue;
    if Find(s, id).Some? {
      RegisteredRecord(s, id);
      EnteringKeepsQueue(s, s.registry[id], now);
    }
    hide Inv;
  }

  lemma EnteringKeepsQueue(s: State, reg: Registration, now: real)
    requires Wired(s) && QueueAgrees(s) && reg in s.runtimes && Attached(s, reg)
    ensures QueueAgrees(Enqueue(s, reg, now).0) && QueueAgrees(StartAttempt(s, reg, now).0)
  {
    hide QueueAgrees, Wired, Attached, Put, Record, AtQueueCapacity;
    var cleared := s.runtimes[reg].(stopRequested := false, cleaned := false);
    MoveKeepsQueue(s, reg, Queued, now);
    PutKeepsQueue(s, reg, cleared);
    RecordKeepsQueue(s, reg, Advance(cleared, Starting, now));
  }

  lemma WorkKeepsQueue(s: State, reg: Registration, generation: nat, guardAllows: bool, requester: Option<MissionId>, now: real)
    requires Wired(s) && QueueAgrees(s) && reg in s.runtimes
    ensures QueueAgrees(WorkerBegin(s, reg, generation, guardAllows, now).0)
    ensures QueueAgrees(PauseBegin(s, reg, requester, now).0)
    ensures QueueAgrees(PauseEnd(s, reg, now).0)
    ensures QueueAgrees(ResumeEnd(s, reg, now).0)
  {
    hide Wired, QueueAgrees, Denial, Move, BeginStopping;
    BeginStoppingKeepsQueue(s, reg, Cancelled, map[], false, now);
    MoveKeepsQueue(s, reg, Running, now);
    MoveKeepsQueue(s, reg, Pausing, now);
    MoveKeepsQueue(s, reg, Paused, now);
  }

  lemma RequestKeepsQueue(s: State, reg: Registration, result: Payload, retryable: bool, now: real)
    requires Wired(s) && QueueAgrees(s) && reg in s.runtimes
    ensures QueueAgrees(Complete(s, reg, result, now).0)
    ensures QueueAgrees(Fail(s, reg, retryable, now).0)
  {
    hide Wired, QueueAgrees, Put, BeginStopping;
    var rt := s.runtimes[reg];
    BeginStoppingKeepsQueue(s, reg, Succeeded, result, false, now);
    BeginStoppingKeepsQueue(s, reg, Failed, map[], retryable, now);
    PutKeepsQueue(s, reg, rt.(stopRequested := true));
    var asked := rt.(stopRequested := true, pending := Some(Intent(s.nextIntent, rt.generation, Failed, map[], retryable)));
    PutKeepsQueue(s, reg, asked);
    AskKeepsQueue(s, reg, asked);
  }

  lemma AskKeepsQueue(s: State, reg: Registration, rt: Runtime)
    requires reg in s.runtimes && QueueAgrees(Put(s, reg, rt))
    ensures QueueAgrees(Put(s, reg, rt).(nextIntent := s.nextIntent + 1))
  {
    OtherFieldsKeepQueue(Put(s, reg, rt), Put(s, reg, rt).(nextIntent := s.nextIntent + 1));
  }

  lemma FinishKeepsQueue(s: State, reg: Registration, terminal: Phase, requester: Option<MissionId>, now: real)
    requires Wired(s) && QueueAgrees(s) && reg in s.runtimes && (terminal.Stopped? || terminal.Cancelled?)
    ensures QueueAgrees(Finish(s, reg, terminal, requester, now).0)
  {
    hide Wired, QueueAgrees, Put, Record, BeginStopping, Denial, Attached;
    var asked := s.runtimes[reg].(stopRequested := true);
    BeginStoppingKeepsQueue(s, reg, terminal, map[], false, now);
    PutKeepsQueue(s, reg, asked);
    RecordKeepsQueue(s, reg, Advance(asked, terminal, now));
  }

  lemma CleanupKeepsQueue(s: State, reg: Registration, intent: Intent, retryCleanup: bool, stopOk: bool)
    requires Wired(s) && QueueAgrees(s) && reg in s.runtimes
    ensures QueueAgrees(FinalizeBegin(s, reg, intent, retryCleanup).0)
    ensures QueueAgrees(Cleanup(s, reg, stopOk).0)
  {
    hide Wired, QueueAgrees;
    var rt := s.runtimes[reg];
    PutKeepsQueue(s, reg, rt.(finalizer := Cleaning(intent)));
    PutKeepsQueue(s, reg, rt.(cleanupError := true, finalizer := Idle));
    if rt.finalizer.Cleaning? {
      var i := rt.finalizer.intent;
      PutKeepsQueue(s, reg, rt.(cleanupError := false, finalizer := Cleaned(i)));
      var done := rt.(cleaned := true, cleanupError := false, finalizer := Cleaned(i));
      PutKeepsQueue(s, reg, done);
      OtherFieldsKeepQueue(Put(s, reg, done), Put(s, reg, done).(stopReturns := s.stopReturns + [(reg, rt.generation)]));
    }
  }

  /** Committing breaks the agreement in exactly one case. */
  lemma CommitKeepsQueue(s: State, reg: Registration, now: real)
    requires Inv(s) && QueueAgrees(s) && reg in s.runtimes
    ensures QueueAgrees(Commit(s, reg, now).0) <==> !StrayRetry(s, reg)
  {
    RecordOk(s, reg);
    InvIsWired(s);
    var rt := s.runtimes[reg];
    if rt.finalizer.Cleaned? {
      StrayIsUnstarted(s, reg);
      hide Inv, QueueAgrees, Attached, Wired, AllRuntimesOk;
      var intent := rt.finalizer.intent;
      var released := rt.(finalizer := Idle);
      PutKeepsQueue(s, reg, released);
      if !rt.phase.Terminal() && Allowed(rt.phase, intent.phase) {
        EndingKeepsQueue(s, reg, now);
      }
    }
  }

  /** The record as the intent leaves it. */
  function Ending(rt: Runtime, intent: Intent, now: real): Runtime {
    var ended := Advance(rt.(finalizer := Idle), intent.phase, now).(pending := None);
    if intent.phase.Succeeded? then ended.(result := intent.result) else ended
  }

  lemma EndingIs(rt: Runtime, intent: Intent, now: real)
    requires intent.phase.Terminal()
    ensures var r := Ending(rt, intent, now);
            && r.phase == intent.phase && r.mission == rt.mission && r.attempt == rt.attempt
            && r.generation == rt.generation && r.pending.None?
  {
  }

  /** A commit that takes place: the end, and the requeue of a failure that will be tried again. */
  lemma CommitIs(s: State, reg: Registration, now: real)
    requires reg in s.runtimes && s.runtimes[reg].finalizer.Cleaned?
    requires s.runtimes[reg].pending == Some(s.runtimes[reg].finalizer.intent) && s.runtimes[reg].finalizer.intent.phase.Terminal()
    requires !s.runtimes[reg].phase.Terminal() && Allowed(s.runtimes[reg].phase, s.runtimes[reg].finalizer.intent.phase)
    ensures var intent := s.runtimes[reg].finalizer.intent;
            var s' := Record(s, reg, Ending(s.runtimes[reg], intent, now));
            if intent.phase.Failed? && WillRetry(s', Ending(s.runtimes[reg], intent, now), intent)
            then Commit(s, reg, now) == (Requeue(s', reg, now), Retrying)
            else Commit(s, reg, now) == (s', Done)
  {
    hide Record, Requeue, AtQueueCapacity;
  }

  lemma EndingKeepsQueue(s: State, reg: Registration, now: real)
    requires Wired(s) && QueueAgrees(s) && reg in s.runtimes
    requires s.runtimes[reg].finalizer.Cleaned? && s.runtimes[reg].pending == Some(s.runtimes[reg].finalizer.intent)
    requires !s.runtimes[reg].phase.Terminal() && Allowed(s.runtimes[reg].phase, s.runtimes[reg].finalizer.intent.phase)
    requires s.runtimes[reg].finalizer.intent.phase.Terminal()
    requires !Attached(s, reg) ==> s.runtimes[reg].phase.Registered? && s.runtimes[reg].finalizer.intent.phase.Failed?
    ensures QueueAgrees(Commit(s, reg, now).0) <==> !StrayRetry(s, reg)
  {
    var rt := s.runtimes[reg];
    var final := Ending(rt, rt.finalizer.intent, now);
    EndingIs(rt, rt.finalizer.intent, now);
    CommitIs(s, reg, now);
    RecordKeepsQueue(s, reg, final);
    RetryDecision(s, reg, final);
    var s' := Record(s, reg, final);
    assert s'.runtimes[reg] == final && s'.maxQueued == s.maxQueued;
    hide Commit, Ending, QueueAgrees, Attached, Wired, Record, AtQueueCapacity, Requeue;
    RequeueKeepsQueue(s', reg, now);
    if rt.phase.Registered? {
      RoomIsSame(s, s');
    }
  }

  lemma RequeueKeepsQueue(s: State, reg: Registration, now: real)
    requires Wired(s) && QueueAgrees(s) && reg in s.runtimes
    ensures QueueAgrees(Requeue(s, reg, now)) <==> Attached(s, reg)
  {
    var rt := Advance(s.runtimes[reg], Queued, now);
    RecordKeepsQueue(s, reg, rt.(nextRetryAt := Some(now + rt.mission.retryDelay)));
    hide QueueAgrees, Attached, Wired, Record;
  }

  lemma RoomIsSame(s: State, t: State)
    requires s.maxQueued == t.maxQueued && s.queueIndex == t.queueIndex
    ensures AtQueueCapacity(s) == AtQueueCapacity(t)
  {
  }

  lemma InvIsWired(s: State)
    requires Inv(s)
    ensures Wired(s) && AllRuntimesOk(s)
  {
  }

  /** An unregistered record with an intent has never started, or has failed already. */
  lemma StrayIsUnstarted(s: State, reg: Registration)
    requires AllRuntimesOk(s) && QueueAgrees(s) && reg in s.runtimes && s.runtimes[reg].finalizer.Cleaned?
    ensures !Attached(s, reg) ==> s.runtimes[reg].phase.Registered? || s.runtimes[reg].phase.Failed?
    ensures s.runtimes[reg].pending == Some(s.runtimes[reg].finalizer.intent)
    ensures !s.runtimes[reg].phase.Stopping? ==> s.runtimes[reg].finalizer.intent.phase.Failed?
  {
  }

  /** Recording the failure of a mission outside the queue changes neither its registration nor the room in the queue. */
  lemma RetryDecision(s: State, reg: Registration, failed: Runtime)
    requires Wired(s) && reg in s.runtimes && failed.mission == s.runtimes[reg].mission
    ensures var s' := Record(s, reg, failed);
            && Wired(s')
            && (Attached(s', reg) <==> Attached(s, reg))
            && (!s.runtimes[reg].phase.Queued? && !failed.phase.Queued? ==> s'.queueIndex == s.queueIndex)
  {
  }

  lemma ExecuteKeepsQueue(s: State, reg: Registration, c: Command, now: real)
    requires Inv(s) && QueueAgrees(s) && reg in s.runtimes
    ensures QueueAgrees(Execute(s, reg, c, now).0) <==> !StrayRetryStep(s, On(reg, c, now))
  {
    InvIsWired(s);
    hide Inv, QueueAgrees, WorkerBegin, PauseBegin, PauseEnd, ResumeEnd, Complete, Fail, Finish, FinalizeBegin, Cleanup, Commit;
    hide StrayRetry, Wired, AllRuntimesOk;
    match c
    case DoWorkerBegin(generation, guardAllows) => WorkKeepsQueue(s, reg, generation, guardAllows, None, now);
    case DoPauseBegin(requester) => WorkKeepsQueue(s, reg, 0, true, requester, now);
    case DoPauseEnd => WorkKeepsQueue(s, reg, 0, true, None, now);
    case DoResumeEnd => WorkKeepsQueue(s, reg, 0, true, None, now);
    case DoComplete(result) => RequestKeepsQueue(s, reg, result, false, now);
    case DoFail(retryable) => RequestKeepsQueue(s, reg, map[], retryable, now);
    case DoStop(requester) => FinishKeepsQueue(s, reg, Stopped, requester, now);
    case DoCancel(requester) => FinishKeepsQueue(s, reg, Cancelled, requester, now);
    case DoFinalizeBegin(intent, retryCleanup) => CleanupKeepsQueue(s, reg, intent, retryCleanup, true);
    case DoCleanup(stopOk) => CleanupKeepsQueue(s, reg, Intent(0, 0, Failed, map[], false), false, stopOk);
    case DoCommit => CommitKeepsQueue(s, reg, now);
  }

  // ---------------------------------------------------------------- the registry

  lemma ReleaseKeepsQueue(s: State, id: MissionId)
    requires Inv(s) && QueueAgrees(s) && id in s.registry && !IsActive(s, id) && !IsQueued(s, id)
    ensures QueueAgrees(s.(registry := s.registry - {id}))
  {
    ReleaseShows(s, id);
    RegisteredRecord(s, id);
  }

  lemma {:induction false} DiscardKeepsQueue(s: State, ids: seq<MissionId>)
    requires Inv(s) && QueueAgrees(s)
    ensures QueueAgrees(Discard(s, ids))
    decreases |ids|
  {
    hide Inv, QueueAgrees;
    if ids != [] {
      var rt := Find(s, ids[0]);
      if rt.Some? && rt.value.phase.Terminal() {
        ReleaseKeepsInv(s, ids[0]);
        ReleaseKeepsQueue(s, ids[0]);
        DiscardKeepsQueue(s.(registry := s.registry - {ids[0]}), ids[1..]);
      } else {
        DiscardKeepsQueue(s, ids[1..]);
      }
    }
  }

  lemma RegisterKeepsQueue(s: State, m: Mission)
    requires Inv(s) && QueueAgrees(s)
    ensures QueueAgrees(Register(s, m).0)
  {
    if m.id !in s.registry {
      RegisterSets(s, m);
      var s' := Register(s, m).0;
      forall reg | reg in s'.runtimes && s'.runtimes[reg].phase.Queued? ensures Attached(s', reg) {
        assert reg in s.runtimes && Attached(s, reg);
      }
    }
  }

  /** Every section keeps the agreement of the queue index, except a retry of a record that left the registry. */
  lemma StepKeepsQueue(s: State, e: Step)
    requires Inv(s) && QueueAgrees(s)
    ensures QueueAgrees(Apply(s, e)) <==> !StrayRetryStep(s, e)
  {
    hide Inv, QueueAgrees, Register, Discard, AdmitFirst, AdmitSecond, Execute;
    match e
    case DoRegister(m) => RegisterKeepsQueue(s, m);
    case DoUnregister(id, seen) =>
      if Unregister(s, id, seen).1.Done? {
        ReleaseKeepsQueue(s, id);
      }
    case DoDiscard(ids) => DiscardKeepsQueue(s, ids);
    case DoAdmitFirst(id, requester, now) => AdmissionKeepsQueue(s, id, requester, now);
    case DoAdmitSecond(id, now) => AdmissionKeepsQueue(s, id, None, now);
    case DoExpire(id, generation, queuedAt, now) => ExpiryKeepsQueue(s, id, generation, queuedAt, now);
    case DoPublish => OtherFieldsKeepQueue(s, Publish(s));
    case On(reg, c, now) =>
      if reg in s.runtimes {
        ExecuteKeepsQueue(s, reg, c, now);
      }
  }

  lemma ExpiryKeepsQueue(s: State, id: MissionId, generation: nat, queuedAt: Option<real>, now: real)
    requires Inv(s) && QueueAgrees(s)
    ensures QueueAgrees(ExpireQueued(s, id, generation, queuedAt, now).0)
  {
    InvIsWired(s);
    hide Inv, QueueAgrees, Move;
    if ExpireQueued(s, id, generation, queuedAt, now).1.Done? {
      MoveKeepsQueue(s, s.registry[id], Failed, now);
    }
  }

  // ---------------------------------------------------------------- what the index is in any run

  /** The index a history leads to. */
  function IndexOf(h: seq<Change>): set<MissionId> {
    if h == [] then {}
    else
      var c := h[|h| - 1];
      QueueAfter(IndexOf(h[..|h| - 1]), c.mission, c.from, c.to)
  }

  ghost predicate Tracks(s: State) {
    s.queueIndex == IndexOf(s.history)
  }

  /** The change at `k` put the mission into the queue, and no later one of any record of it concerns the queue. */
  ghost predicate LastPut(h: seq<Change>, id: MissionId, k: nat) {
    && k < |h| && h[k].mission == id && h[k].to.Queued?
    && forall j :: k < j < |h| && h[j].mission == id ==> !h[j].from.Queued? && !h[j].to.Queued?
  }

  /** The index holds a mission exactly if the last change of any of its records into or out of the queue was into it. */
  lemma {:induction false} IndexOfMeans(h: seq<Change>, id: MissionId)
    ensures id in IndexOf(h) <==> exists k: nat :: LastPut(h, id, k)
    decreases |h|
  {
    if h != [] {
      var n := |h| - 1;
      IndexOfMeans(h[..n], id);
      if k: nat :| LastPut(h[..n], id, k) && (h[n].mission != id || (!h[n].from.Queued? && !h[n].to.Queued?)) {
        assert LastPut(h, id, k);
      }
      if h[n].mission == id && h[n].to.Queued? {
        assert LastPut(h, id, n);
      }
      if k: nat :| LastPut(h, id, k) && k < n {
        assert LastPut(h[..n], id, k);
      }
    }
  }

  lemma RecordTracks(s: State, reg: Registration, rt: Runtime)
    requires Tracks(s) && reg in s.runtimes
    ensures Tracks(Record(s, reg, rt))
  {
    var h := Record(s, reg, rt).history;
    assert h[..|h| - 1] == s.history;
  }

  lemma SameTracks(s: State, t: State)
    requires Tracks(s) && t.queueIndex == s.queueIndex && t.history == s.history
    ensures Tracks(t)
  {
  }

  lemma BeginStoppingTracks(s: State, reg: Registration, phase: Phase, result: Payload, retryable: bool, now: real)
    requires Tracks(s) && reg in s.runtimes
    ensures Tracks(BeginStopping(s, reg, phase, result, retryable, now).0)
  {
    var rt := s.runtimes[reg].(stopRequested := true);
    var stopping := Advance(rt, Stopping, now);
    SameTracks(s, Put(s, reg, rt));
    RecordTracks(s, reg, stopping);
    var t := stopping.(pending := Some(Intent(s.nextIntent, stopping.generation, phase, result, retryable)));
    RecordTracks(s, reg, t);
    SameTracks(Record(s, reg, t), Record(s, reg, t).(nextIntent := s.nextIntent + 1));
    hide Tracks, Record, Put, Advance;
  }

  lemma CommitTracks(s: State, reg: Registration, now: real)
    requires Tracks(s) && reg in s.runtimes
    ensures Tracks(Commit(s, reg, now).0)
  {
    hide Tracks, Record, Put, Advance, AtQueueCapacity;
    var rt := s.runtimes[reg];
    if rt.finalizer.Cleaned? {
      var intent := rt.finalizer.intent;
      var released := rt.(finalizer := Idle);
      PutTracks(s, reg, released);
      var ended := Advance(released, intent.phase, now).(pending := None);
      var final := if intent.phase.Succeeded? then ended.(result := intent.result) else ended;
      RecordTracks(s, reg, final);
      StillThere(s, reg, final);
      var s' := Record(s, reg, final);
      var again := Advance(s'.runtimes[reg], Queued, now);
      RecordTracks(s', reg, again.(nextRetryAt := Some(now + again.mission.retryDelay)));
    }
  }

  lemma StillThere(s: State, reg: Registration, rt: Runtime)
    requires reg in s.runtimes
    ensures reg in Record(s, reg, rt).runtimes
  {
  }

  lemma PutTracks(s: State, reg: Registration, rt: Runtime)
    requires Tracks(s)
    ensures Tracks(Put(s, reg, rt))
    ensures forall n :: Tracks(Put(s, reg, rt).(nextIntent := n))
    ensures forall log :: Tracks(Put(s, reg, rt).(stopReturns := log))
  {
  }

  lemma ExecuteTracks(s: State, reg: Registration, c: Command, now: real)
    requires Tracks(s) && reg in s.runtimes
    ensures Tracks(Execute(s, reg, c, now).0)
  {
    hide Tracks, Put, Record, BeginStopping, Advance, Denial, Commit;
    var rt := s.runtimes[reg];
    forall r: Runtime ensures
      && Tracks(Put(s, reg, r)) && Tracks(Record(s, reg, r))
      && (forall n :: Tracks(Put(s, reg, r).(nextIntent := n)))
      && (forall log :: Tracks(Put(s, reg, r).(stopReturns := log)))
    {
      PutTracks(s, reg, r);
      RecordTracks(s, reg, r);
    }
    forall phase, result, retryable ensures Tracks(BeginStopping(s, reg, phase, result, retryable, now).0) {
      BeginStoppingTracks(s, reg, phase, result, retryable, now);
    }
    CommitTracks(s, reg, now);
  }

  lemma AdmissionTracks(s: State, id: MissionId, requester: Option<MissionId>, now: real)
    requires Tracks(s)
    ensures Tracks(AdmitFirst(s, id, requester, now).0) && Tracks(AdmitSecond(s, id, now).0)
  {
    hide Tracks, Put, Record, Advance, Denial, Decide, AtQueueCapacity;
    if Find(s, id).Some? {
      var reg := s.registry[id];
      var cleared := s.runtimes[reg].(stopRequested := false, cleaned := false);
      PutTracks(s, reg, cleared);
      RecordTracks(s, reg, Advance(cleared, Starting, now));
      RecordTracks(s, reg, Advance(s.runtimes[reg], Queued, now));
    }
  }

  lemma {:induction false} DiscardTracks(s: State, ids: seq<MissionId>)
    requires Tracks(s)
    ensures Tracks(Discard(s, ids))
    decreases |ids|
  {
    if ids != [] {
      var rt := Find(s, ids[0]);
      DiscardTracks(if rt.Some? && rt.value.phase.Terminal() then s.(registry := s.registry - {ids[0]}) else s, ids[1..]);
    }
  }

  /** Every section keeps the index what the history makes it. */
  lemma StepTracks(s: State, e: Step)
    requires Tracks(s)
    ensures Tracks(Apply(s, e))
  {
    match e
    case DoDiscard(ids) => DiscardTracks(s, ids);
    case DoAdmitFirst(id, requester, now) => AdmissionTracks(s, id, requester, now);
    case DoAdmitSecond(id, now) => AdmissionTracks(s, id, None, now);
    case DoExpire(id, generation, queuedAt, now) =>
      if ExpireQueued(s, id, generation, queuedAt, now).1.Done? {
        RecordTracks(s, s.registry[id], Advance(s.runtimes[s.registry[id]], Failed, now));
      }
    case On(reg, c, now) =>
      if reg in s.runtimes {
        ExecuteTracks(s, reg, c, now);
      }
    case _ =>
  }
}
