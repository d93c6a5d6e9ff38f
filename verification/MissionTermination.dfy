// Two-phase termination: how a mission leaves its active phases, over one step and over a run.

module MissionTermination {
  import opened Prelude
  import opened MissionPhases
  import opened MissionState
  import opened MissionSafety
  import opened MissionQueueIndex

  // ---------------------------------------------------------------- whole runs

  lemma {:induction false} RunKeepsInv(maxActive: Option<nat>, maxQueued: Option<nat>, steps: seq<Step>)
    ensures Inv(Run(Initial(maxActive, maxQueued), steps))
    decreases |steps|
  {
    var start := Initial(maxActive, maxQueued);
    if steps == [] {
      assert ActiveIds(start) == {} && QueuedIds(start) == {};
    } else {
      RunKeepsInv(maxActive, maxQueued, steps[..|steps| - 1]);
      StepKeepsInv(Run(start, steps[..|steps| - 1]), steps[|steps| - 1]);
    }
  }

  lemma ReachableFacts(s: State)
    requires Inv(s)
    ensures MutuallyExclusive(s) && WithinCapacity(s)
  {
  }

  lemma ExclusionMeans(s: State)
    requires MutuallyExclusive(s)
    ensures forall a, b :: a in ActiveIds(s) && b in ActiveIds(s) && a != b ==>
              var x, y := Find(s, a).value.mission, Find(s, b).value.mission;
              x.resources * y.resources == {} && x.blocks * y.kind.ancestors == {} && y.blocks * x.kind.ancestors == {}
  {
    forall a, b | a in ActiveIds(s) && b in ActiveIds(s) && a != b
      ensures var x, y := Find(s, a).value.mission, Find(s, b).value.mission;
              x.resources * y.resources == {} && x.blocks * y.kind.ancestors == {} && y.blocks * x.kind.ancestors == {}
    {
      assert !Conflicting(Find(s, a).value.mission, Find(s, b).value.mission);
    }
  }

  /** No resource ever has two owners. */
  lemma ResourcesHaveOneOwner(s: State, resource: string)
    requires Inv(s)
    ensures |Holders(s, resource)| <= 1
  {
    var hs := Holders(s, resource);
    if hs != {} {
      var a :| a in hs;
      forall b | b in hs ensures b == a {
        HoldersConflict(s, resource, a, b);
      }
      assert hs == {a};
    }
  }

  lemma HoldersConflict(s: State, resource: string, a: MissionId, b: MissionId)
    requires a in Holders(s, resource) && b in Holders(s, resource)
    ensures a in ActiveIds(s) && b in ActiveIds(s)
    ensures Conflicting(Find(s, a).value.mission, Find(s, b).value.mission)
  {
    assert resource in Find(s, a).value.mission.resources * Find(s, b).value.mission.resources;
  }

  lemma {:induction false} DiscardKeepsRecords(s: State, ids: seq<MissionId>)
    ensures var s' := Discard(s, ids); s' == s.(registry := s'.registry)
    decreases |ids|
  {
    if ids != [] {
      var rt := Find(s, ids[0]);
      DiscardKeepsRecords(if rt.Some? && rt.value.phase.Terminal() then s.(registry := s.registry - {ids[0]}) else s, ids[1..]);
    }
  }

  // ---------------------------------------------------------------- what a step can touch

  /** From `s` to `s'` only the record `reg` changed; the logs grew by entries about it. */
  ghost predicate Local(s: State, s': State, reg: Registration) {
    && s'.registry == s.registry
    && s'.maxActive == s.maxActive && s'.maxQueued == s.maxQueued
    && s'.nextRegistration == s.nextRegistration
    && s'.runtimes.Keys == s.runtimes.Keys
    && (forall r :: r in s.runtimes && r != reg ==> s'.runtimes[r] == s.runtimes[r])
    && s.stopReturns <= s'.stopReturns
    && s.history <= s'.history
    && (forall k :: |s.history| <= k < |s'.history| ==> s'.history[k].registration == reg)
  }

  lemma PutIsLocal(s: State, reg: Registration, rt: Runtime)
    requires reg in s.runtimes
    ensures Local(s, s, reg) && Local(s, Put(s, reg, rt), reg)
  {
  }

  lemma RecordIsLocal(s: State, reg: Registration, rt: Runtime)
    requires reg in s.runtimes
    ensures Local(s, Record(s, reg, rt), reg)
  {
  }

  lemma BeginStoppingIsLocal(s: State, reg: Registration, phase: Phase, result: Payload, retryable: bool, now: real)
    requires reg in s.runtimes
    ensures Local(s, BeginStopping(s, reg, phase, result, retryable, now).0, reg)
  {
  }

  lemma CommitIsLocal(s: State, reg: Registration, now: real)
    requires reg in s.runtimes
    ensures Local(s, Commit(s, reg, now).0, reg)
  {
    hide Advance, AtQueueCapacity;
  }

  lemma WorkIsLocal(s: State, reg: Registration, generation: nat, guardAllows: bool, requester: Option<MissionId>, now: real)
    requires reg in s.runtimes
    ensures Local(s, WorkerBegin(s, reg, generation, guardAllows, now).0, reg)
    ensures Local(s, PauseBegin(s, reg, requester, now).0, reg)
    ensures Local(s, PauseEnd(s, reg, now).0, reg)
    ensures Local(s, ResumeEnd(s, reg, now).0, reg)
  {
    hide Local, BeginStopping, Record, Advance, Denial;
    BeginStoppingIsLocal(s, reg, Cancelled, map[], false, now);
    PutIsLocal(s, reg, s.runtimes[reg]);
    forall to ensures Local(s, Move(s, reg, to, now), reg) {
      RecordIsLocal(s, reg, Advance(s.runtimes[reg], to, now));
    }
  }

  lemma RequestIsLocal(s: State, reg: Registration, result: Payload, retryable: bool, now: real)
    requires reg in s.runtimes
    ensures Local(s, Complete(s, reg, result, now).0, reg)
    ensures Local(s, Fail(s, reg, retryable, now).0, reg)
  {
    BeginStoppingIsLocal(s, reg, Succeeded, result, false, now);
    BeginStoppingIsLocal(s, reg, Failed, map[], retryable, now);
    PutIsLocal(s, reg, s.runtimes[reg].(stopRequested := true));
    AskIsLocal(s, reg, retryable);
    hide Local, BeginStopping, Put;
  }

  lemma AskIsLocal(s: State, reg: Registration, retryable: bool)
    requires reg in s.runtimes
    ensures var intent := Intent(s.nextIntent, s.runtimes[reg].generation, Failed, map[], retryable);
            Local(s, Put(s, reg, s.runtimes[reg].(stopRequested := true, pending := Some(intent))).(nextIntent := s.nextIntent + 1), reg)
  {
  }

  lemma FinishIsLocal(s: State, reg: Registration, terminal: Phase, requester: Option<MissionId>, now: real)
    requires reg in s.runtimes && (terminal.Stopped? || terminal.Cancelled?)
    ensures Local(s, Finish(s, reg, terminal, requester, now).0, reg)
  {
    hide Local, BeginStopping, Advance, Denial, Record, Put;
    BeginStoppingIsLocal(s, reg, terminal, map[], false, now);
    PutIsLocal(s, reg, s.runtimes[reg].(stopRequested := true));
    RecordIsLocal(s, reg, Advance(s.runtimes[reg].(stopRequested := true), terminal, now));
  }

  lemma CleanupIsLocal(s: State, reg: Registration, intent: Intent, retryCleanup: bool, stopOk: bool)
    requires reg in s.runtimes
    ensures Local(s, FinalizeBegin(s, reg, intent, retryCleanup).0, reg)
    ensures Local(s, Cleanup(s, reg, stopOk).0, reg)
  {
  }

  lemma ExecuteIsLocal(s: State, reg: Registration, c: Command, now: real)
    requires reg in s.runtimes
    ensures Local(s, Execute(s, reg, c, now).0, reg)
  {
    hide Local, WorkerBegin, PauseBegin, PauseEnd, ResumeEnd, Complete, Fail, Finish, FinalizeBegin, Cleanup, Commit;
    match c
    case DoWorkerBegin(generation, guardAllows) => WorkIsLocal(s, reg, generation, guardAllows, None, now);
    case DoPauseBegin(requester) => WorkIsLocal(s, reg, 0, true, requester, now);
    case DoPauseEnd => WorkIsLocal(s, reg, 0, true, None, now);
    case DoResumeEnd => WorkIsLocal(s, reg, 0, true, None, now);
    case DoComplete(result) => RequestIsLocal(s, reg, result, false, now);
    case DoFail(retryable) => RequestIsLocal(s, reg, map[], retryable, now);
    case DoStop(requester) => FinishIsLocal(s, reg, Stopped, requester, now);
    case DoCancel(requester) => FinishIsLocal(s, reg, Cancelled, requester, now);
    case DoFinalizeBegin(intent, retryCleanup) => CleanupIsLocal(s, reg, intent, retryCleanup, true);
    case DoCleanup(stopOk) => CleanupIsLocal(s, reg, Intent(0, 0, Failed, map[], false), false, stopOk);
    case DoCommit => CommitIsLocal(s, reg, now);
  }

  lemma AdmissionIsLocal(s: State, id: MissionId, requester: Option<MissionId>, now: real)
    requires Find(s, id).Some?
    ensures Local(s, AdmitFirst(s, id, requester, now).0, s.registry[id])
    ensures Local(s, AdmitSecond(s, id, now).0, s.registry[id])
  {
    hide Local, Advance, Denial, Decide, Record, Put;
    var reg := s.registry[id];
    var rt := s.runtimes[reg].(stopRequested := false, cleaned := false);
    PutIsLocal(s, reg, rt);
    RecordIsLocal(s, reg, Advance(s.runtimes[reg], Queued, now));
    RecordIsLocal(s, reg, Advance(rt, Starting, now));
  }

  // ---------------------------------------------------------------- one record over one step

  /** What a STOPPING mission keeps until its intent is committed. */
  ghost predicate StillStopping(before: Runtime, after: Runtime) {
    && after.phase.Stopping?
    && after.pending == before.pending
    && after.generation == before.generation
    && after.mission == before.mission
  }

  /** The one way out of STOPPING: `mission.stop()` returned in this generation and the intent is committed. */
  ghost predicate CommitsIntent(s: State, s': State, reg: Registration)
    requires reg in s.runtimes
  {
    var before := s.runtimes[reg];
    && before.phase.Stopping?
    && before.pending.Some?
    && (reg, before.generation) in s.stopReturns
    && |s.history| < |s'.history|
    && s'.history[..|s.history|] == s.history
    && s'.history[|s.history|] == Change(reg, before.mission.id, Stopping, before.pending.value.phase, before.generation)
  }

  /** Nothing about `reg` was recorded. */
  ghost predicate Quiet(s: State, s': State, reg: Registration) {
    && s.history <= s'.history
    && (forall k :: |s.history| <= k < |s'.history| ==> s'.history[k].registration != reg)
  }

  /** What one step may do to an active mission. */
  ghost predicate KeepsOrCommits(s: State, s': State, reg: Registration)
    requires reg in s.runtimes
  {
    && reg in s'.runtimes
    && s.stopReturns <= s'.stopReturns
    && var before, after := s.runtimes[reg], s'.runtimes[reg];
    if after.phase.Active() then
      after.mission == before.mission && (before.phase.Stopping? ==> StillStopping(before, after) && Quiet(s, s', reg))
    else CommitsIntent(s, s', reg)
  }

  lemma StopOnRecord(s: State, reg: Registration)
    requires Inv(s) && reg in s.runtimes && s.runtimes[reg].finalizer.Cleaned?
    ensures (reg, s.runtimes[reg].generation) in s.stopReturns
  {
  }

  lemma CommitEnds(s: State, reg: Registration, now: real)
    requires Inv(s) && reg in s.runtimes && s.runtimes[reg].phase.Active()
    ensures KeepsOrCommits(s, Commit(s, reg, now).0, reg)
  {
    if s.runtimes[reg].finalizer.Cleaned? {
      StopOnRecord(s, reg);
      StoppingCommits(s, reg, now);
    } else {
      UnchangedKeeps(s, s, reg);
    }
  }

  lemma StoppingCommits(s: State, reg: Registration, now: real)
    requires Inv(s) && reg in s.runtimes && s.runtimes[reg].phase.Active() && s.runtimes[reg].finalizer.Cleaned?
    requires (reg, s.runtimes[reg].generation) in s.stopReturns
    ensures KeepsOrCommits(s, Commit(s, reg, now).0, reg)
  {
    hide Inv;
    RecordOk(s, reg);
    hide Attached, AtQueueCapacity;
  }

  lemma WorkKeepsIntent(s: State, reg: Registration, generation: nat, guardAllows: bool, requester: Option<MissionId>, now: real)
    requires Inv(s) && reg in s.runtimes && s.runtimes[reg].phase.Active()
    ensures KeepsOrCommits(s, WorkerBegin(s, reg, generation, guardAllows, now).0, reg)
    ensures KeepsOrCommits(s, PauseBegin(s, reg, requester, now).0, reg)
    ensures KeepsOrCommits(s, PauseEnd(s, reg, now).0, reg)
    ensures KeepsOrCommits(s, ResumeEnd(s, reg, now).0, reg)
  {
    hide Inv, Denial;
    RecordOk(s, reg);
  }

  lemma RequestKeepsIntent(s: State, reg: Registration, result: Payload, retryable: bool, now: real)
    requires Inv(s) && reg in s.runtimes && s.runtimes[reg].phase.Active()
    ensures KeepsOrCommits(s, Complete(s, reg, result, now).0, reg)
    ensures KeepsOrCommits(s, Fail(s, reg, retryable, now).0, reg)
  {
    hide Inv, Denial;
    RecordOk(s, reg);
  }

  lemma FinishKeepsIntent(s: State, reg: Registration, terminal: Phase, requester: Option<MissionId>, now: real)
    requires Inv(s) && reg in s.runtimes && s.runtimes[reg].phase.Active()
    requires terminal.Stopped? || terminal.Cancelled?
    ensures KeepsOrCommits(s, Finish(s, reg, terminal, requester, now).0, reg)
  {
    hide Inv, Denial;
    RecordOk(s, reg);
  }

  lemma CleanupKeepsIntent(s: State, reg: Registration, intent: Intent, retryCleanup: bool, stopOk: bool)
    requires Inv(s) && reg in s.runtimes && s.runtimes[reg].phase.Active()
    ensures KeepsOrCommits(s, FinalizeBegin(s, reg, intent, retryCleanup).0, reg)
    ensures KeepsOrCommits(s, Cleanup(s, reg, stopOk).0, reg)
  {
    hide Inv;
  }

  lemma ExecuteKeepsOrCommits(s: State, reg: Registration, c: Command, now: real)
    requires Inv(s) && reg in s.runtimes && s.runtimes[reg].phase.Active()
    ensures KeepsOrCommits(s, Execute(s, reg, c, now).0, reg)
  {
    hide Inv, KeepsOrCommits, WorkerBegin, PauseBegin, PauseEnd, ResumeEnd, Complete, Fail, Finish, FinalizeBegin, Cleanup, Commit;
    match c
    case DoWorkerBegin(generation, guardAllows) => WorkKeepsIntent(s, reg, generation, guardAllows, None, now);
    case DoPauseBegin(requester) => WorkKeepsIntent(s, reg, 0, true, requester, now);
    case DoPauseEnd => WorkKeepsIntent(s, reg, 0, true, None, now);
    case DoResumeEnd => WorkKeepsIntent(s, reg, 0, true, None, now);
    case DoComplete(result) => RequestKeepsIntent(s, reg, result, false, now);
    case DoFail(retryable) => RequestKeepsIntent(s, reg, map[], retryable, now);
    case DoStop(requester) => FinishKeepsIntent(s, reg, Stopped, requester, now);
    case DoCancel(requester) => FinishKeepsIntent(s, reg, Cancelled, requester, now);
    case DoFinalizeBegin(intent, retryCleanup) => CleanupKeepsIntent(s, reg, intent, retryCleanup, true);
    case DoCleanup(stopOk) => CleanupKeepsIntent(s, reg, Intent(0, 0, Failed, map[], false), false, stopOk);
    case DoCommit => CommitEnds(s, reg, now);
  }

  lemma AdmissionKeepsRecord(s: State, id: MissionId, requester: Option<MissionId>, now: real, reg: Registration)
    requires Inv(s) && reg in s.runtimes && s.runtimes[reg].phase.Active()
    ensures KeepsOrCommits(s, AdmitFirst(s, id, requester, now).0, reg)
    ensures KeepsOrCommits(s, AdmitSecond(s, id, now).0, reg)
  {
    hide Inv, Local, KeepsOrCommits, AdmitFirst, AdmitSecond;
    if Find(s, id).None? {
      UnknownAdmission(s, id, requester, now);
      UnchangedKeeps(s, s, reg);
    } else {
      AdmissionIsLocal(s, id, requester, now);
      if s.registry[id] != reg {
        LocalKeeps(s, AdmitFirst(s, id, requester, now).0, reg, s.registry[id]);
        LocalKeeps(s, AdmitSecond(s, id, now).0, reg, s.registry[id]);
      } else {
        OwnAdmissionKeeps(s, id, requester, now);
      }
    }
  }

  lemma UnknownAdmission(s: State, id: MissionId, requester: Option<MissionId>, now: real)
    requires Find(s, id).None?
    ensures AdmitFirst(s, id, requester, now).0 == s && AdmitSecond(s, id, now).0 == s
  {
  }

  /** Launching a mission that is already active starts nothing. */
  lemma OwnAdmissionKeeps(s: State, id: MissionId, requester: Option<MissionId>, now: real)
    requires Inv(s) && IsActive(s, id)
    ensures KeepsOrCommits(s, AdmitFirst(s, id, requester, now).0, s.registry[id])
    ensures KeepsOrCommits(s, AdmitSecond(s, id, now).0, s.registry[id])
  {
    hide Inv, Denial, Decide, AtQueueCapacity;
    RecordOk(s, s.registry[id]);
  }

  /** A step about another record leaves this one as it is. */
  lemma LocalKeeps(s: State, s': State, reg: Registration, other: Registration)
    requires Local(s, s', other) && reg in s.runtimes && reg != other && s.runtimes[reg].phase.Active()
    ensures KeepsOrCommits(s, s', reg)
  {
  }

  lemma StepKeepsOrCommits(s: State, e: Step, reg: Registration)
    requires Inv(s) && reg in s.runtimes && s.runtimes[reg].phase.Active()
    ensures KeepsOrCommits(s, Apply(s, e), reg)
  {
    match e
    case DoAdmitFirst(id, requester, now) => AdmissionKeepsRecord(s, id, requester, now, reg);
    case DoAdmitSecond(id, now) => AdmissionKeepsRecord(s, id, None, now, reg);
    case On(r, c, now) =>
      hide Inv, KeepsOrCommits, Execute, Local;
      if r in s.runtimes && r == reg {
        ExecuteKeepsOrCommits(s, reg, c, now);
      } else if r in s.runtimes {
        ExecuteIsLocal(s, r, c, now);
        LocalKeeps(s, Apply(s, e), reg, r);
      } else {
        UnchangedKeeps(s, s, reg);
      }
    case _ => ManagerStepKeeps(s, e, reg);
  }

  lemma UnchangedKeeps(s: State, s': State, reg: Registration)
    requires reg in s.runtimes && s.runtimes[reg].phase.Active()
    requires reg in s'.runtimes && s'.runtimes[reg] == s.runtimes[reg]
    requires s'.history == s.history && s'.stopReturns == s.stopReturns
    ensures KeepsOrCommits(s, s', reg)
  {
  }

  lemma ManagerStepKeeps(s: State, e: Step, reg: Registration)
    requires Inv(s) && reg in s.runtimes && s.runtimes[reg].phase.Active()
    requires e.DoRegister? || e.DoUnregister? || e.DoDiscard? || e.DoExpire? || e.DoPublish?
    ensures KeepsOrCommits(s, Apply(s, e), reg)
  {
    hide Inv, KeepsOrCommits, ExpireQueued, Discard, Register, Unregister;
    match e
    case DoRegister(m) =>
      RegistrationIsFresh(s);
      RegisterOnly(s, m);
      UnchangedKeeps(s, Register(s, m).0, reg);
    case DoUnregister(id, seen) =>
      RegistryOnly(s, id, seen);
      UnchangedKeeps(s, Unregister(s, id, seen).0, reg);
    case DoDiscard(ids) =>
      DiscardKeepsRecords(s, ids);
      UnchangedKeeps(s, Discard(s, ids), reg);
    case DoExpire(id, generation, queuedAt, now) => ExpiryKeeps(s, id, generation, queuedAt, now, reg);
    case DoPublish => UnchangedKeeps(s, Publish(s), reg);
  }

  lemma RegistryOnly(s: State, id: MissionId, seen: Registration)
    ensures var s' := Unregister(s, id, seen).0; s' == s.(registry := s'.registry)
  {
  }

  lemma RegisterOnly(s: State, m: Mission)
    requires s.nextRegistration !in s.runtimes
    ensures var s' := Register(s, m).0;
            && s'.history == s.history && s'.stopReturns == s.stopReturns
            && (forall reg :: reg in s.runtimes ==> reg in s'.runtimes && s'.runtimes[reg] == s.runtimes[reg])
  {
  }

  lemma ExpiryKeeps(s: State, id: MissionId, generation: nat, queuedAt: Option<real>, now: real, reg: Registration)
    requires reg in s.runtimes && s.runtimes[reg].phase.Active()
    ensures KeepsOrCommits(s, ExpireQueued(s, id, generation, queuedAt, now).0, reg)
  {
    hide KeepsOrCommits, Local, Advance, QueueTimedOut;
    if ExpireQueued(s, id, generation, queuedAt, now).1.Done? {
      RecordIsLocal(s, s.registry[id], Advance(s.runtimes[s.registry[id]], Failed, now));
      LocalKeeps(s, ExpireQueued(s, id, generation, queuedAt, now).0, reg, s.registry[id]);
    } else {
      UnchangedKeeps(s, s, reg);
    }
  }

  lemma RegistrationIsFresh(s: State)
    requires Inv(s)
    ensures s.nextRegistration !in s.runtimes
  {
  }

  /**
   * One step from any reachable state, seen from one record. An active mission stays active, and a
   * STOPPING one keeps its intent and its resources, until the step that commits the intent.
   */
  lemma StepIsTwoPhase(s: State, e: Step, reg: Registration)
    requires Inv(s) && reg in s.runtimes && s.runtimes[reg].phase.Active()
    ensures reg in Apply(s, e).runtimes
    ensures var before, after := s.runtimes[reg], Apply(s, e).runtimes[reg];
            if after.phase.Active() then
              && (before.phase.Stopping? ==> StillStopping(before, after))
              && (forall r :: r in before.mission.resources ==> before.mission.id in Holders(Apply(s, e), r))
            else CommitsIntent(s, Apply(s, e), reg)
  {
    hide Inv, Apply, CommitsIntent, Quiet;
    StepKeepsInv(s, e);
    StepKeepsOrCommits(s, e, reg);
    var s' := Apply(s, e);
    if s'.runtimes[reg].phase.Active() {
      RecordOk(s', reg);
    }
  }

  // ---------------------------------------------------------------- safety of whole runs

  lemma StepKeepsLimits(s: State, e: Step)
    ensures Apply(s, e).maxActive == s.maxActive && Apply(s, e).maxQueued == s.maxQueued
  {
    hide Execute, AdmitFirst, AdmitSecond;
    match e
    case DoDiscard(ids) => DiscardKeepsRecords(s, ids);
    case DoAdmitFirst(id, requester, now) => AdmissionGrows(s, id, requester, now);
    case DoAdmitSecond(id, now) => AdmissionGrows(s, id, None, now);
    case On(reg, c, now) =>
      if reg in s.runtimes {
        ExecuteIsLocal(s, reg, c, now);
      }
    case _ =>
  }

  lemma {:induction false} RunKeepsLimits(s: State, steps: seq<Step>)
    ensures Run(s, steps).maxActive == s.maxActive && Run(s, steps).maxQueued == s.maxQueued
    decreases |steps|
  {
    if steps != [] {
      RunKeepsLimits(s, steps[..|steps| - 1]);
      StepKeepsLimits(Run(s, steps[..|steps| - 1]), steps[|steps| - 1]);
    }
  }

  /** At no moment of the run is a failure of an unregistered record requeued. */
  ghost predicate NoStrayRetries(start: State, steps: seq<Step>)
    decreases |steps|
  {
    steps != [] ==>
      && NoStrayRetries(start, steps[..|steps| - 1])
      && !StrayRetryStep(Run(start, steps[..|steps| - 1]), steps[|steps| - 1])
  }

  /** At every moment of the run the queue index is the set of queued missions, and every queued record is registered. */
  ghost predicate AlwaysAgrees(start: State, steps: seq<Step>)
    decreases |steps|
  {
    && QueueAgrees(Run(start, steps))
    && (steps != [] ==> AlwaysAgrees(start, steps[..|steps| - 1]))
  }

  /** The queue index agrees all along a run if and only if no failure of an unregistered record is requeued in it. */
  lemma {:induction false} IndexAgreesIff(maxActive: Option<nat>, maxQueued: Option<nat>, steps: seq<Step>)
    ensures AlwaysAgrees(Initial(maxActive, maxQueued), steps) <==> NoStrayRetries(Initial(maxActive, maxQueued), steps)
    decreases |steps|
  {
    var start := Initial(maxActive, maxQueued);
    if steps == [] {
      assert QueuedIds(start) == {};
    } else {
      var n := |steps| - 1;
      IndexAgreesIff(maxActive, maxQueued, steps[..n]);
      var before := Run(start, steps[..n]);
      RunKeepsInv(maxActive, maxQueued, steps[..n]);
      hide Inv, QueueAgrees, StrayRetryStep, Apply;
      if QueueAgrees(before) {
        StepKeepsQueue(before, steps[n]);
      }
    }
  }

  /**
   * In every run, stray records or not, the queue index holds a mission exactly if the last change of any of
   * its records into or out of the queue was into it.
   */
  lemma {:induction false} IndexIsLastChange(maxActive: Option<nat>, maxQueued: Option<nat>, steps: seq<Step>, id: MissionId)
    ensures var s := Run(Initial(maxActive, maxQueued), steps);
            && Tracks(s)
            && (id in s.queueIndex <==> exists k: nat :: LastPut(s.history, id, k))
    decreases |steps|
  {
    if steps != [] {
      IndexIsLastChange(maxActive, maxQueued, steps[..|steps| - 1], id);
      StepTracks(Run(Initial(maxActive, maxQueued), steps[..|steps| - 1]), steps[|steps| - 1]);
    }
    IndexOfMeans(Run(Initial(maxActive, maxQueued), steps).history, id);
  }

  /**
   * In every reachable state: distinct active missions share no resource and block neither the
   * other's class; no more missions are active than the limit allows, and no more ids are in the queue
   * index. If no failure of an unregistered record was requeued, no more missions are queued, either.
   */
  lemma EveryRunIsSafe(maxActive: Option<nat>, maxQueued: Option<nat>, steps: seq<Step>)
    ensures var s := Run(Initial(maxActive, maxQueued), steps);
            && (forall a, b :: a in ActiveIds(s) && b in ActiveIds(s) && a != b ==>
                  var x, y := Find(s, a).value.mission, Find(s, b).value.mission;
                  x.resources * y.resources == {} && x.blocks * y.kind.ancestors == {} && y.blocks * x.kind.ancestors == {})
            && (maxActive.Some? ==> |ActiveIds(s)| <= maxActive.value)
            && (maxQueued.Some? ==> |s.queueIndex| <= maxQueued.value)
            && (maxQueued.Some? && NoStrayRetries(Initial(maxActive, maxQueued), steps) ==> |QueuedIds(s)| <= maxQueued.value)
  {
    var s := Run(Initial(maxActive, maxQueued), steps);
    RunKeepsInv(maxActive, maxQueued, steps);
    RunKeepsLimits(Initial(maxActive, maxQueued), steps);
    ReachableFacts(s);
    hide Inv, Run, NoStrayRetries;
    ExclusionMeans(s);
    IndexAgreesIff(maxActive, maxQueued, steps);
  }

  // ---------------------------------------------------------------- one record over a run

  lemma StepHistoryGrows(s: State, e: Step)
    ensures s.history <= Apply(s, e).history && s.stopReturns <= Apply(s, e).stopReturns
    ensures s.runtimes.Keys <= Apply(s, e).runtimes.Keys
  {
    hide Execute, AdmitFirst, AdmitSecond;
    match e
    case DoDiscard(ids) => DiscardKeepsRecords(s, ids);
    case DoAdmitFirst(id, requester, now) => AdmissionGrows(s, id, requester, now);
    case DoAdmitSecond(id, now) => AdmissionGrows(s, id, None, now);
    case On(reg, c, now) =>
      if reg in s.runtimes {
        ExecuteIsLocal(s, reg, c, now);
      }
    case _ =>
  }

  lemma AdmissionGrows(s: State, id: MissionId, requester: Option<MissionId>, now: real)
    ensures forall s' :: s' in {AdmitFirst(s, id, requester, now).0, AdmitSecond(s, id, now).0} ==>
              && s.history <= s'.history && s.stopReturns <= s'.stopReturns && s.runtimes.Keys <= s'.runtimes.Keys
              && s'.maxActive == s.maxActive && s'.maxQueued == s.maxQueued
  {
    if Find(s, id).Some? {
      AdmissionIsLocal(s, id, requester, now);
    }
  }

  /** The record's first recorded change after position `from`, if any, commits the intent it had. */
  ghost predicate FirstChangeCommits(before: Runtime, s': State, reg: Registration, from: nat) {
    && reg in s'.runtimes
    && before.pending.Some?
    && exists k :: from <= k < |s'.history| && FirstChangeAt(before, s', reg, from, k)
  }

  ghost predicate FirstChangeAt(before: Runtime, s': State, reg: Registration, from: nat, k: nat)
    requires from <= k < |s'.history| && before.pending.Some?
  {
    && s'.history[k] == Change(reg, before.mission.id, Stopping, before.pending.value.phase, before.generation)
    && (reg, before.generation) in s'.stopReturns
    && (forall j :: from <= j < k ==> s'.history[j].registration != reg)
  }

  lemma FirstChangeStays(before: Runtime, m: State, s': State, reg: Registration, from: nat)
    requires FirstChangeCommits(before, m, reg, from)
    requires m.history <= s'.history && m.stopReturns <= s'.stopReturns && reg in s'.runtimes
    ensures FirstChangeCommits(before, s', reg, from)
  {
    var k :| from <= k < |m.history| && FirstChangeAt(before, m, reg, from, k);
    assert FirstChangeAt(before, s', reg, from, k);
  }

  lemma FirstChangeComes(s: State, m: State, s': State, reg: Registration)
    requires reg in s.runtimes && reg in m.runtimes && reg in s'.runtimes
    requires StillStopping(s.runtimes[reg], m.runtimes[reg]) && Quiet(s, m, reg)
    requires CommitsIntent(m, s', reg) && m.stopReturns <= s'.stopReturns
    ensures FirstChangeCommits(s.runtimes[reg], s', reg, |s.history|)
  {
    assert FirstChangeAt(s.runtimes[reg], s', reg, |s.history|, |m.history|);
  }

  lemma QuietGoesOn(s: State, m: State, s': State, reg: Registration)
    requires Quiet(s, m, reg) && Quiet(m, s', reg)
    ensures Quiet(s, s', reg)
  {
    assert forall k :: |s.history| <= k < |m.history| ==> s'.history[k] == m.history[k];
  }

  /**
   * From a state in which a mission is STOPPING, whatever happens afterwards: either it is still
   * STOPPING with the same intent, or the first thing it did was move to that intent's phase, with
   * the return of its `stop()` on record.
   */
  lemma {:induction false} FirstIntentWins(s: State, steps: seq<Step>, reg: Registration)
    requires Inv(s) && reg in s.runtimes && s.runtimes[reg].phase.Stopping?
    ensures var s' := Run(s, steps);
            && Inv(s')
            && s.history <= s'.history
            && reg in s'.runtimes
            && (|| (StillStopping(s.runtimes[reg], s'.runtimes[reg]) && Quiet(s, s', reg))
                || FirstChangeCommits(s.runtimes[reg], s', reg, |s.history|))
    decreases |steps|
  {
    RecordOk(s, reg);
    hide Inv, Apply, RuntimeOk, CommitsIntent, Quiet, FirstChangeCommits;
    if steps == [] {
      QuietNow(s, reg);
    } else {
      var m := Run(s, steps[..|steps| - 1]);
      var e := steps[|steps| - 1];
      FirstIntentWins(s, steps[..|steps| - 1], reg);
      StepKeepsInv(m, e);
      StepHistoryGrows(m, e);
      if FirstChangeCommits(s.runtimes[reg], m, reg, |s.history|) {
        FirstChangeStays(s.runtimes[reg], m, Apply(m, e), reg, |s.history|);
      } else {
        StepKeepsOrCommits(m, e, reg);
        if Apply(m, e).runtimes[reg].phase.Active() {
          QuietGoesOn(s, m, Apply(m, e), reg);
        } else {
          FirstChangeComes(s, m, Apply(m, e), reg);
        }
      }
    }
  }

  lemma QuietNow(s: State, reg: Registration)
    ensures Quiet(s, s, reg)
  {
  }

  // ---------------------------------------------------------------- reporting an end

  /**
   * An end is reported exactly when it is final: the commit recorded one change, into the intent's phase. A
   * failure that is tried again is recorded as well, but the mission is back in the queue, and it is not reported.
   */
  lemma ReportedIffFinal(s: State, reg: Registration, now: real)
    requires Inv(s) && reg in s.runtimes
    ensures var (s', reply) := Commit(s, reg, now);
            && reg in s'.runtimes
            && (reply.Done? <==> |s'.history| == |s.history| + 1)
            && (reply.Retrying? <==> |s'.history| == |s.history| + 2)
            && (reply.Done? ==>
                  && s.runtimes[reg].pending.Some?
                  && s'.runtimes[reg].phase == s.runtimes[reg].pending.value.phase && s'.runtimes[reg].phase.Terminal()
                  && (s'.runtimes[reg].phase.Failed? ==> !WillRetry(s', s'.runtimes[reg], s.runtimes[reg].pending.value)))
            && (reply.Retrying? ==> s'.runtimes[reg].phase.Queued? && s'.runtimes[reg].nextRetryAt.Some?)
            && (!reply.Done? && !reply.Retrying? ==> s'.history == s.history)
  {
    RecordOk(s, reg);
    hide Inv;
    var rt := s.runtimes[reg];
    if rt.finalizer.Cleaned? && !rt.phase.Terminal() && Allowed(rt.phase, rt.finalizer.intent.phase) {
      EndingIs(rt, rt.finalizer.intent, now);
      CommitIs(s, reg, now);
      hide Commit, Ending, AtQueueCapacity;
    } else {
      hide Record, Requeue, AtQueueCapacity;
    }
  }

  // ---------------------------------------------------------------- histories of whole runs

  lemma InvLogs(s: State)
    requires Inv(s)
    ensures EndsAfterStop(s) && EndsThroughStopping(s) && StopsLogged(s) && HistoriesConnect(s)
  {
  }

  /**
   * In every run, a change from an active phase to an inactive one leads out of STOPPING, and
   * `mission.stop()` had returned normally exactly once in that generation.
   */
  lemma EveryEndFollowsStop(maxActive: Option<nat>, maxQueued: Option<nat>, steps: seq<Step>, k: nat)
    requires k < |Run(Initial(maxActive, maxQueued), steps).history|
    requires var c := Run(Initial(maxActive, maxQueued), steps).history[k]; c.from.Active() && !c.to.Active()
    ensures var s := Run(Initial(maxActive, maxQueued), steps);
            && s.history[k].from.Stopping?
            && (s.history[k].registration, s.history[k].generation) in s.stopReturns
            && NoDuplicates(s.stopReturns)
  {
    RunKeepsInv(maxActive, maxQueued, steps);
    InvLogs(Run(Initial(maxActive, maxQueued), steps));
    hide Inv, Run, StopsLogged, HistoriesConnect;
    StopsAreDistinct(maxActive, maxQueued, steps);
  }

  lemma StopsAreDistinct(maxActive: Option<nat>, maxQueued: Option<nat>, steps: seq<Step>)
    ensures NoDuplicates(Run(Initial(maxActive, maxQueued), steps).stopReturns)
  {
    RunKeepsInv(maxActive, maxQueued, steps);
    InvLogs(Run(Initial(maxActive, maxQueued), steps));
    hide Inv, Run;
  }

  /** In every run, the changes of one registration are a connected path through the phase table. */
  lemma EveryHistoryIsAPath(maxActive: Option<nat>, maxQueued: Option<nat>, steps: seq<Step>, reg: Registration)
    ensures var s := Run(Initial(maxActive, maxQueued), steps);
            && s.published <= |s.history|
            && (if reg in s.runtimes then IsPath(ChangesOf(s.history, reg), Phase.Registered, s.runtimes[reg].phase)
                else ChangesOf(s.history, reg) == [])
  {
    RunKeepsInv(maxActive, maxQueued, steps);
    InvLogs(Run(Initial(maxActive, maxQueued), steps));
    hide Inv, Run;
  }

  /** Each change of a path begins where the one before it ended. */
  lemma {:induction false} PathConnects(h: seq<Change>, start: Phase, end: Phase, k: nat)
    requires IsPath(h, start, end) && k < |h|
    ensures Allowed(h[k].from, h[k].to)
    ensures h[k].from == if k == 0 then start else h[k - 1].to
    ensures k == |h| - 1 ==> h[k].to == end
  {
    var n := |h| - 1;
    if k < n {
      PathConnects(h[..n], start, h[n].from, k);
    } else if n > 0 {
      PathConnects(h[..n], start, h[n].from, n - 1);
    }
  }
}
