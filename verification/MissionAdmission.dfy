// When a launch starts, waits, preempts or is refused (mission/scheduler.py).

module MissionAdmission {
  import opened Prelude
  import opened MissionPhases
  import opened MissionState
  import opened MissionSafety

  /** Some prerequisite is not met. */
  predicate Lacks(s: State, m: Mission) {
    exists r :: r in m.prerequisites && !PrerequisiteMet(s, r)
  }

  predicate HasConflict(s: State, m: Mission) {
    exists id :: id in Conflicts(s, m)
  }

  /** A mission in the way is as important as `m`, or more so. */
  predicate MustYield(s: State, m: Mission) {
    exists id :: id in Conflicts(s, m) && Find(s, id).Some? && Find(s, id).value.mission.priority <= m.priority
  }

  /** The conflict policy forbids the launch. */
  predicate ConflictForbids(s: State, m: Mission) {
    HasConflict(s, m) && (m.conflictPolicy.RejectConflict? || (m.conflictPolicy.PreemptLower? && MustYield(s, m)))
  }

  /** The caller may launch the mission. */
  predicate Permitted(s: State, requester: Option<MissionId>, m: Mission) {
    requester.None? || requester.value == m.id || MayCommand(s, requester.value, m)
  }

  /** Why a mission may have to wait, apart from capacity. */
  predicate PolicyWaits(s: State, m: Mission) {
    if Lacks(s, m) then m.prerequisitePolicy.QueueMissing? else HasConflict(s, m) && m.conflictPolicy.QueueConflict?
  }

  /** The mission waits: in the first pass a conflict counts before capacity, in the second one capacity does. */
  predicate FirstWaits(s: State, m: Mission) {
    PolicyWaits(s, m) || (!Lacks(s, m) && !HasConflict(s, m) && AtActiveCapacity(s))
  }

  predicate SecondWaits(s: State, m: Mission) {
    PolicyWaits(s, m) || (!Lacks(s, m) && AtActiveCapacity(s))
  }

  /** The mission is now in the queue, and nothing else happened. */
  ghost predicate NowQueued(s: State, t: State, id: MissionId, now: real)
    requires Find(s, id).Some?
  {
    var rt := Find(s, id).value;
    && id in s.registry && s.registry[id] in s.runtimes
    && t.runtimes.Keys == s.runtimes.Keys
    && t.runtimes[s.registry[id]].phase.Queued?
    && t.runtimes[s.registry[id]].queuedAt == Some(now)
    && t.runtimes[s.registry[id]].mission == rt.mission
    && t.runtimes[s.registry[id]].generation == rt.generation && t.runtimes[s.registry[id]].attempt == rt.attempt
    && t.runtimes[s.registry[id]].result == rt.result && t.runtimes[s.registry[id]].pending == rt.pending
    && (forall reg :: reg in s.runtimes && reg != s.registry[id] ==> t.runtimes[reg] == s.runtimes[reg])
    && t.registry == s.registry
    && t.queueIndex == s.queueIndex + {id}
    && t.history == s.history + [Change(s.registry[id], id, rt.phase, Queued, rt.generation)]
  }

  lemma LacksMeans(s: State, m: Mission)
    ensures MissingPrerequisitesOf(s, m) != {} <==> Lacks(s, m)
  {
    if Lacks(s, m) {
      var r :| r in m.prerequisites && !PrerequisiteMet(s, r);
      assert r in MissingPrerequisitesOf(s, m);
    }
    if MissingPrerequisitesOf(s, m) != {} {
      var r :| r in MissingPrerequisitesOf(s, m);
    }
  }

  lemma YieldMeans(s: State, m: Mission)
    ensures Conflicts(s, m) != {} <==> HasConflict(s, m)
    ensures AllLower(s, m, Conflicts(s, m)) <==> !MustYield(s, m)
  {
    assert forall id :: id in Conflicts(s, m) ==> Find(s, id).Some?;
    hide Conflicts;
    if Conflicts(s, m) != {} {
      var id :| id in Conflicts(s, m);
    }
  }

  /** What either pass decides. */
  lemma DecisionMeans(s: State, m: Mission, capacityFirst: bool)
    ensures var d := Decide(s, m, capacityFirst);
            var looks := !Lacks(s, m) && !(capacityFirst && AtActiveCapacity(s));
            && (d == Start <==> looks && !HasConflict(s, m) && !AtActiveCapacity(s))
            && (d == Wait <==> if capacityFirst then SecondWaits(s, m) else FirstWaits(s, m))
            && (d == Deny(MissingPrerequisites) <==> Lacks(s, m) && m.prerequisitePolicy.RejectMissing?)
            && (d == Deny(Conflict) <==> looks && ConflictForbids(s, m))
            && (d.Deny? ==> d.error == MissingPrerequisites || d.error == Conflict)
            && (d.PreemptFirst? ==> d.ids == Conflicts(s, m))
            && (d.PreemptFirst? <==> looks && HasConflict(s, m) && m.conflictPolicy.PreemptLower? && !MustYield(s, m))
  {
    LacksMeans(s, m);
    YieldMeans(s, m);
    hide Conflicts, MissingPrerequisitesOf, AllLower, AtActiveCapacity, Lacks, HasConflict, MustYield;
  }

  /** A mission that has ended, or never started, may always be queued. */
  lemma MayBeQueued(p: Phase)
    ensures Allowed(p, Queued) <==> !p.Active() && !p.Queued?
  {
  }

  lemma EnqueueMeans(s: State, id: MissionId, now: real)
    requires Find(s, id).Some? && Find(s, id).value.mission.id == id
    ensures var (t, reply) := Enqueue(s, s.registry[id], now); var rt := Find(s, id).value;
            && (reply == Unchanged <==> rt.phase.Queued?)
            && (reply == Refused(QueueCapacity) <==> !rt.phase.Queued? && AtQueueCapacity(s))
            && (reply == Refused(BadTransition) <==> rt.phase.Active() && !AtQueueCapacity(s))
            && (reply == Done <==> !rt.phase.Queued? && !rt.phase.Active() && !AtQueueCapacity(s))
            && (if reply == Done then NowQueued(s, t, id, now) else t == s)
  {
    MayBeQueued(Find(s, id).value.phase);
    hide AtQueueCapacity;
  }

  /**
   * The first section of a launch: for each answer, exactly when it is given. Nothing changes unless the
   * mission enters the queue.
   */
  lemma FirstAnswers(s: State, id: MissionId, requester: Option<MissionId>, now: real)
    requires Find(s, id).Some? && Find(s, id).value.mission.id == id
    ensures var rt := Find(s, id).value; var m := rt.mission;
            var (t, reply) := AdmitFirst(s, id, requester, now);
            var asked := Permitted(s, requester, m) && !rt.phase.Active();
            && (reply == Refused(NotFound) <==> !Permitted(s, requester, m) && Find(s, requester.value).None?)
            && (reply == Refused(NotPermitted) <==> !Permitted(s, requester, m) && Find(s, requester.value).Some?)
            && (reply == Unchanged <==>
                  Permitted(s, requester, m) && (rt.phase.Active() || (rt.phase.Queued? && FirstWaits(s, m))))
            && (reply == Refused(MissingPrerequisites) <==> asked && Lacks(s, m) && m.prerequisitePolicy.RejectMissing?)
            && (reply == Refused(Conflict) <==> asked && !Lacks(s, m) && ConflictForbids(s, m))
            && (reply == Refused(QueueCapacity) <==> asked && FirstWaits(s, m) && !rt.phase.Queued? && AtQueueCapacity(s))
            && (reply == Preempt(Conflicts(s, m)) <==>
                  asked && !Lacks(s, m) && HasConflict(s, m) && m.conflictPolicy.PreemptLower? && !MustYield(s, m))
            && (reply == Proceed <==> asked && !Lacks(s, m) && !HasConflict(s, m) && !AtActiveCapacity(s))
            && (reply == Done <==> asked && FirstWaits(s, m) && !rt.phase.Queued? && !AtQueueCapacity(s))
            && (if reply == Done then NowQueued(s, t, id, now) else t == s)
  {
    DecisionMeans(s, Find(s, id).value.mission, false);
    EnqueueMeans(s, id, now);
    hide Conflicts, Decide, AtActiveCapacity, AtQueueCapacity, Enqueue, Lacks, HasConflict, MustYield, ConflictForbids;
    hide SecondWaits, FirstWaits, NowQueued;
  }

  /** A new generation, the next attempt, and nothing left of the one before. */
  ghost predicate FreshAttempt(before: Runtime, after: Runtime) {
    && after.phase.Starting? && after.mission == before.mission
    && after.generation == before.generation + 1 && after.attempt == before.attempt + 1
    && after.result == map[] && !after.cleaned && !after.stopRequested && after.pending.None?
    && after.queuedAt.None? && after.nextRetryAt.None? && after.activeElapsed == 0.0 && after.activeSince.None?
    && after.finalizer == before.finalizer && after.cleanupError == before.cleanupError
  }

  /** The mission is now starting a new attempt, and nothing else happened. */
  ghost predicate NowStarting(s: State, t: State, id: MissionId)
    requires Find(s, id).Some?
  {
    var rt := Find(s, id).value;
    && id in s.registry && s.registry[id] in s.runtimes
    && t.runtimes.Keys == s.runtimes.Keys
    && FreshAttempt(rt, t.runtimes[s.registry[id]])
    && t.history == s.history + [Change(s.registry[id], id, rt.phase, Starting, rt.generation + 1)]
    && (forall reg :: reg in s.runtimes && reg != s.registry[id] ==> t.runtimes[reg] == s.runtimes[reg])
    && t.registry == s.registry
    && t.queueIndex == (if rt.phase.Queued? then s.queueIndex - {id} else s.queueIndex)
  }

  lemma StartMeans(s: State, id: MissionId, now: real)
    requires Inv(s) && Find(s, id).Some?
    ensures var (t, reply) := StartAttempt(s, s.registry[id], now);
            var rt := Find(s, id).value;
            && (reply == Refused(StaleIntent) <==> rt.pending.Some?)
            && (reply == Refused(BadTransition) <==> rt.pending.None? && rt.phase.Active())
            && (reply == Done <==> rt.pending.None? && !rt.phase.Active())
            && (reply == Done ==> NowStarting(s, t, id))
            && (reply == Refused(StaleIntent) ==> t == s)
            && (reply != Done ==> SamePhases(s, t))
  {
    RegisteredRecord(s, id);
    RecordOk(s, s.registry[id]);
    hide Inv, Attached;
    var reg, rt := s.registry[id], Find(s, id).value;
    MayStart(rt.phase);
    if rt.pending.None? && !rt.phase.Active() {
      AttemptIs(rt, now);
      RecordStarts(s, id, Advance(rt.(stopRequested := false, cleaned := false), Starting, now));
    } else {
      PutSamePhases(s, reg, rt.(stopRequested := false, cleaned := false));
    }
    hide Advance, FreshAttempt, RuntimeOk, Record, Put, NowStarting, SamePhases;
  }

  lemma RecordStarts(s: State, id: MissionId, next: Runtime)
    requires Find(s, id).Some? && FreshAttempt(Find(s, id).value, next) && next.mission.id == id
    ensures NowStarting(s, Record(s, s.registry[id], next), id)
  {
    hide FreshAttempt;
    assert next.phase.Starting? && next.generation == Find(s, id).value.generation + 1 by { FreshSets(Find(s, id).value, next); }
  }

  lemma FreshSets(before: Runtime, after: Runtime)
    requires FreshAttempt(before, after)
    ensures after.phase.Starting? && after.generation == before.generation + 1 && after.mission == before.mission
  {
  }

  lemma PutSamePhases(s: State, reg: Registration, rt: Runtime)
    requires reg in s.runtimes && rt.phase == s.runtimes[reg].phase
    ensures SamePhases(s, Put(s, reg, rt)) && SamePhases(s, s)
  {
  }

  lemma AttemptIs(rt: Runtime, now: real)
    requires RuntimeOk(rt) && rt.pending.None? && !rt.phase.Active()
    ensures FreshAttempt(rt, Advance(rt.(stopRequested := false, cleaned := false), Starting, now))
  {
  }

  /** No mission changed its phase. */
  ghost predicate SamePhases(s: State, t: State) {
    && t.history == s.history && t.registry == s.registry && t.queueIndex == s.queueIndex
    && forall reg :: reg in s.runtimes ==> reg in t.runtimes && t.runtimes[reg].phase == s.runtimes[reg].phase
  }

  lemma MayStart(p: Phase)
    ensures Allowed(p, Starting) <==> !p.Active()
  {
  }

  /**
   * The second section of a launch, after the missions in the way were stopped. Capacity now comes before
   * conflicts, and nobody's permission is asked again.
   */
  lemma SecondAnswers(s: State, id: MissionId, now: real)
    requires Inv(s) && Find(s, id).Some?
    ensures var rt := Find(s, id).value; var m := rt.mission;
            var (t, reply) := AdmitSecond(s, id, now);
            var free := !Lacks(s, m) && !HasConflict(s, m) && !AtActiveCapacity(s);
            && (reply == Unchanged <==> rt.phase.Queued? && SecondWaits(s, m))
            && (reply == Refused(MissingPrerequisites) <==> Lacks(s, m) && m.prerequisitePolicy.RejectMissing?)
            && (reply == Refused(Conflict) <==> !Lacks(s, m) && !AtActiveCapacity(s) && ConflictForbids(s, m))
            && (reply == Refused(QueueCapacity) <==> SecondWaits(s, m) && !rt.phase.Queued? && AtQueueCapacity(s))
            && (reply == Preempt(Conflicts(s, m)) <==>
                  !Lacks(s, m) && !AtActiveCapacity(s) && HasConflict(s, m) && m.conflictPolicy.PreemptLower? && !MustYield(s, m))
            && (reply == Refused(StaleIntent) <==> free && rt.pending.Some?)
            && (reply == Refused(BadTransition) <==>
                  rt.phase.Active() && ((free && rt.pending.None?) || (SecondWaits(s, m) && !AtQueueCapacity(s))))
            && (reply == Done <==>
                  && !rt.phase.Active()
                  && ((free && rt.pending.None?) || (SecondWaits(s, m) && !rt.phase.Queued? && !AtQueueCapacity(s))))
            && (reply == Done ==> if free then NowStarting(s, t, id) else NowQueued(s, t, id, now))
            && (reply != Done ==> SamePhases(s, t))
  {
    RegisteredRecord(s, id);
    DecisionMeans(s, Find(s, id).value.mission, true);
    EnqueueMeans(s, id, now);
    StartMeans(s, id, now);
    PutSamePhases(s, s.registry[id], Find(s, id).value);
    hide Inv, Conflicts, Decide, AtActiveCapacity, AtQueueCapacity, Enqueue, StartAttempt;
    hide Lacks, HasConflict, MustYield, ConflictForbids, SecondWaits, FirstWaits, NowQueued, NowStarting, SamePhases, Find;
  }

  /** Over both sections: who is queued afterwards and was not before. */
  lemma EntersQueueIff(s: State, id: MissionId, requester: Option<MissionId>, now: real)
    requires Inv(s) && Find(s, id).Some?
    ensures var rt := Find(s, id).value; var m := rt.mission;
            var room := !rt.phase.Queued? && !rt.phase.Active() && !AtQueueCapacity(s);
            && (IsQueued(AdmitFirst(s, id, requester, now).0, id) && !IsQueued(s, id) <==>
                  room && Permitted(s, requester, m) && FirstWaits(s, m))
            && (IsQueued(AdmitSecond(s, id, now).0, id) && !IsQueued(s, id) <==> room && SecondWaits(s, m))
  {
    hide Inv, AdmitFirst, AdmitSecond, AtActiveCapacity, AtQueueCapacity, Lacks, HasConflict, MustYield, Permitted, Conflicts;
    hide NowQueued, NowStarting, SamePhases, FirstWaits, SecondWaits, ConflictForbids;
    FoundRecord(s, id);
    FirstAnswers(s, id, requester, now);
    SecondAnswers(s, id, now);
    var t, u := AdmitFirst(s, id, requester, now).0, AdmitSecond(s, id, now).0;
    WhoIsQueued(s, t, id, now);
    WhoIsQueued(s, u, id, now);
    WaitsForSomething(s, Find(s, id).value.mission);
  }

  lemma WaitsForSomething(s: State, m: Mission)
    ensures FirstWaits(s, m) || SecondWaits(s, m) ==> Lacks(s, m) || HasConflict(s, m) || AtActiveCapacity(s)
  {
  }

  lemma WhoIsQueued(s: State, t: State, id: MissionId, now: real)
    requires Find(s, id).Some?
    ensures NowQueued(s, t, id, now) ==> IsQueued(t, id)
    ensures NowStarting(s, t, id) || (SamePhases(s, t) && !IsQueued(s, id)) ==> !IsQueued(t, id)
  {
  }

  lemma FoundRecord(s: State, id: MissionId)
    requires Inv(s) && Find(s, id).Some?
    ensures Find(s, id).value.mission.id == id
  {
  }
}
