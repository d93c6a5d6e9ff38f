// The engine object: its indexes, and each lock-protected section as a method that uses them
// (mission/engine.py, mission/scheduler.py, mission/lifecycle.py).

module MissionEngines {
  import opened Prelude
  import opened MissionPhases
  import opened MissionState
  import opened MissionSafety
  import opened MissionIndexes
  import opened MissionQueueIndex
  import opened MissionPreemption
  import opened MissionPromotion

  class MissionEngine {
    const maxActive: Option<nat>
    const maxQueued: Option<nat>
    var runtimes: map<Registration, Runtime>
    var registry: map<MissionId, Registration>
    var nextRegistration: Registration
    var nextIntent: nat
    var activeIds: set<MissionId>
    var queuedIds: set<MissionId>
    var resourceOwners: map<string, set<MissionId>>
    var succeededTypeCounts: map<MissionType, nat>
    var pendingTransitions: seq<Change>
    var transitions: seq<Change>
    ghost var stopReturns: seq<(Registration, nat)>

    /** The engine without the indexes that scans stand for. What was published, then what waits, is the whole history. */
    ghost function View(): State
      reads this
    {
      State(maxActive, maxQueued, runtimes, registry, queuedIds, nextRegistration, nextIntent,
            transitions + pendingTransitions, |transitions|, stopReturns)
    }

    ghost function Ix(): Indexes
      reads this
    {
      Indexes(activeIds, queuedIds, resourceOwners, succeededTypeCounts)
    }

    /** Every index but the queue's equals the scan it stands for; the queue index is part of the view. */
    ghost predicate Valid()
      reads this
    {
      Agrees(Ix(), View())
    }

    ghost predicate Sound()
      reads this
    {
      Valid() && Inv(View())
    }

    constructor (maxActive: Option<nat>, maxQueued: Option<nat>)
      ensures Sound()
      ensures View() == Initial(maxActive, maxQueued)
    {
      this.maxActive, this.maxQueued := maxActive, maxQueued;
      runtimes, registry, nextRegistration, nextIntent := map[], map[], 0, 0;
      activeIds, queuedIds, resourceOwners, succeededTypeCounts := {}, {}, map[], map[];
      pendingTransitions, transitions, stopReturns := [], [], [];
      new;
      assert View() == Initial(maxActive, maxQueued);
      assert ActiveIds(View()) == {};
      assert forall r :: Holders(View(), r) == {};
      assert forall t :: SucceededIds(View(), t) == {};
    }

    // -------------------------------------------------------------- index maintenance

    method ReleaseResources(rs: set<string>, id: MissionId)
      modifies `resourceOwners
      ensures resourceOwners == Without(old(resourceOwners), rs, id)
    {
      ghost var owners := resourceOwners;
      var todo := rs;
      assert Without(owners, {}, id) == owners;
      assert rs - todo == {};
      while todo != {}
        invariant todo <= rs
        invariant resourceOwners == Without(owners, rs - todo, id)
        decreases todo
      {
        var r :| r in todo;
        assert rs - (todo - {r}) == (rs - todo) + {r};
        if r in resourceOwners {
          var left := resourceOwners[r] - {id};
          resourceOwners := if left == {} then resourceOwners - {r} else resourceOwners[r := left];
        }
        todo := todo - {r};
      }
      assert rs - todo == rs;
    }

    method ClaimResources(rs: set<string>, id: MissionId)
      modifies `resourceOwners
      ensures resourceOwners == With(old(resourceOwners), rs, id)
    {
      ghost var owners := resourceOwners;
      var todo := rs;
      assert With(owners, {}, id) == owners;
      assert rs - todo == {};
      while todo != {}
        invariant todo <= rs
        invariant resourceOwners == With(owners, rs - todo, id)
        decreases todo
      {
        var r :| r in todo;
        assert rs - (todo - {r}) == (rs - todo) + {r};
        resourceOwners := resourceOwners[r := if r in resourceOwners then resourceOwners[r] + {id} else {id}];
        todo := todo - {r};
      }
      assert rs - todo == rs;
    }

    method UpdatePhaseIndexes(m: Mission, from: Phase, to: Phase)
      modifies `activeIds, `queuedIds, `resourceOwners, `succeededTypeCounts
      ensures Ix() == Reindex(old(Ix()), m, from, to)
    {
      if from.Active() && !to.Active() {
        activeIds := activeIds - {m.id};
        ReleaseResources(m.resources, m.id);
      } else if to.Active() && !from.Active() {
        activeIds := activeIds + {m.id};
        ClaimResources(m.resources, m.id);
      }
      if from.Queued? {
        queuedIds := queuedIds - {m.id};
      }
      if to.Queued? {
        queuedIds := queuedIds + {m.id};
      }
      if from.Succeeded? {
        succeededTypeCounts := Decrement(succeededTypeCounts, m.kind);
      }
      if to.Succeeded? {
        succeededTypeCounts := Increment(succeededTypeCounts, m.kind);
      }
    }

    /** Replaces a record without changing its phase. */
    method Store(reg: Registration, rt: Runtime)
      requires reg in runtimes && rt.mission == runtimes[reg].mission && rt.phase == runtimes[reg].phase
      requires Wired(View())
      modifies `runtimes
      ensures View() == Put(old(View()), reg, rt) && Wired(View())
      ensures old(Valid()) ==> Valid()
    {
      ghost var before := View();
      runtimes := runtimes[reg := rt];
      if old(Valid()) {
        PutAgrees(Ix(), before, reg, rt);
      }
    }

    /** The fields a phase change sets besides the phase. */
    static method Advanced(rt: Runtime, to: Phase, now: real) returns (next: Runtime)
      ensures next == Advance(rt, to, now)
      ensures next.phase == to && next.mission == rt.mission && (!to.Starting? ==> next.attempt == rt.attempt)
    {
      next := rt.(phase := to);
      if to.Queued? {
        next := next.(queuedAt := Some(now));
      }
      if to.Starting? {
        next := next.(generation := rt.generation + 1, attempt := rt.attempt + 1, result := map[], queuedAt := None,
                      nextRetryAt := None, activeElapsed := 0.0, activeSince := None);
      }
      if to.Running? {
        next := next.(activeSince := Some(now));
      } else if rt.phase.Running? {
        next := next.(activeElapsed := Elapsed(next, now), activeSince := None);
      }
    }

    /**
     * The single place where phases change. `rt` is the record with whatever else the caller
     * changes under the same lock.
     */
    method Transition(reg: Registration, rt: Runtime, to: Phase, now: real) returns (ok: bool)
      requires reg in runtimes && rt.mission == runtimes[reg].mission && rt.phase == runtimes[reg].phase
      requires Wired(View())
      modifies `runtimes, `activeIds, `queuedIds, `resourceOwners, `succeededTypeCounts, `pendingTransitions
      ensures ok == Allowed(rt.phase, to)
      ensures View() == if ok then Record(old(View()), reg, Advance(rt, to, now)) else old(View())
      ensures Wired(View())
      ensures old(Valid()) && (ok ==> Followed(old(View()), reg, to)) ==> Valid()
    {
      if to !in Successors(rt.phase) {
        return false;
      }
      var next := Advanced(rt, to, now);
      RecordPhase(reg, next, to);
      ok := true;
    }

    method RecordPhase(reg: Registration, next: Runtime, to: Phase)
      requires reg in runtimes && next.mission == runtimes[reg].mission && next.phase == to
      requires Wired(View()) && Allowed(runtimes[reg].phase, to)
      modifies `runtimes, `activeIds, `queuedIds, `resourceOwners, `succeededTypeCounts, `pendingTransitions
      ensures View() == Record(old(View()), reg, next) && Wired(View())
      ensures Ix() == Reindex(old(Ix()), next.mission, old(runtimes)[reg].phase, to)
      ensures old(Valid()) && Followed(old(View()), reg, to) ==> Valid()
    {
      ghost var before, ix := View(), Ix();
      var previous := runtimes[reg].phase;
      runtimes := runtimes[reg := next];
      UpdatePhaseIndexes(next.mission, previous, to);
      var change := Change(reg, next.mission.id, previous, to, next.generation);
      assert transitions + (pendingTransitions + [change]) == (transitions + pendingTransitions) + [change];
      pendingTransitions := pendingTransitions + [change];
      FindEverywhere(before, reg, next);
      hide Agrees, ScansAgree;
      if old(Valid()) && Followed(before, reg, to) {
        RecordAgrees(ix, before, reg, next);
      }
    }

    // -------------------------------------------------------------- admission

    /** The shortcut search: only owners of the wanted resources, unless somebody blocks by class. */
    method FindConflicts(m: Mission) returns (conflicts: set<MissionId>)
      requires Valid() && Wired(View())
      ensures conflicts == Conflicts(View(), m)
    {
      var owners := FindOwners(m.resources);
      var byClass := m.blocks != {} || exists id :: id in activeIds && runtimes[registry[id]].mission.blocks != {};
      var candidates := if byClass then activeIds else owners;
      CandidatesSuffice(View(), m, owners, byClass);
      conflicts := FilterConflicts(m, candidates);
      assert conflicts == Conflicts(View(), m);
    }

    method FindOwners(resources: set<string>) returns (owners: set<MissionId>)
      requires Valid()
      ensures forall id :: id in owners <==> exists r :: r in resources && id in Holders(View(), r)
    {
      ghost var s := View();
      owners := {};
      var todo := resources;
      while todo != {}
        invariant todo <= resources
        invariant forall id :: id in owners <==> exists r :: r in resources - todo && id in Holders(s, r)
        decreases todo
      {
        var r :| r in todo;
        var held := if r in resourceOwners then resourceOwners[r] else {};
        assert held == Holders(s, r);
        hide Holders;
        assert resources - (todo - {r}) == (resources - todo) + {r};
        owners := owners + held;
        todo := todo - {r};
      }
      assert resources - todo == resources;
    }

    method FilterConflicts(m: Mission, candidates: set<MissionId>) returns (conflicts: set<MissionId>)
      requires Valid() && Wired(View()) && candidates <= activeIds
      ensures conflicts == Conflicts(View(), m) * candidates
    {
      ghost var s := View();
      conflicts := {};
      var left := candidates;
      while left != {}
        invariant left <= candidates
        invariant conflicts == Conflicts(s, m) * (candidates - left)
        decreases left
      {
        var id :| id in left;
        assert id in ActiveIds(s) && Find(s, id) == Some(runtimes[registry[id]]);
        var other := runtimes[registry[id]];
        if id != m.id && other.phase.Active() && Conflicting(m, other.mission) {
          assert id in Conflicts(s, m);
          conflicts := conflicts + {id};
        } else {
          assert id !in Conflicts(s, m);
        }
        left := left - {id};
      }
      assert candidates - left == candidates;
    }

    /** The prerequisites no succeeded class satisfies, from the class counters alone. */
    method FindMissingPrerequisites(m: Mission) returns (missing: set<string>)
      requires Valid()
      ensures missing == MissingPrerequisitesOf(View(), m)
    {
      missing := {};
      var todo := m.prerequisites;
      while todo != {}
        invariant todo <= m.prerequisites
        invariant missing == MissingPrerequisitesOf(View(), m) - todo
        decreases todo
      {
        var r :| r in todo;
        CountersAnswer(succeededTypeCounts, View(), r);
        if !exists t :: t in succeededTypeCounts.Keys && r in t.ancestors {
          missing := missing + {r};
        }
        todo := todo - {r};
      }
    }

    method AtCapacity() returns (full: bool)
      requires Valid()
      ensures full == AtActiveCapacity(View())
    {
      full := maxActive.Some? && |activeIds| >= maxActive.value;
    }

    method DecideLocked(m: Mission, capacityFirst: bool) returns (d: Decision)
      requires Valid() && Wired(View())
      ensures d == Decide(View(), m, capacityFirst)
    {
      var missing := FindMissingPrerequisites(m);
      if missing != {} {
        return if m.prerequisitePolicy.QueueMissing? then Wait else Deny(MissingPrerequisites);
      }
      var full := AtCapacity();
      if capacityFirst && full {
        return Wait;
      }
      var conflicts := FindConflicts(m);
      if conflicts != {} {
        match m.conflictPolicy
        case QueueConflict => return Wait;
        case RejectConflict => return Deny(Conflict);
        case PreemptLower =>
          var lower := set id | id in conflicts && m.priority < runtimes[registry[id]].mission.priority;
          assert lower == conflicts <==> AllLower(View(), m, conflicts);
          return if lower != conflicts then Deny(Conflict) else PreemptFirst(lower);
      }
      return if full then Wait else Start;
    }

    /** Who may command whom: nobody, itself, or a running mission of no lower priority. */
    method AuthorizeLocked(requester: Option<MissionId>, target: Mission) returns (denial: Option<Error>)
      requires Wired(View())
      ensures denial == Denial(View(), requester, target)
      ensures denial.None? <==> requester.None? || requester.value == target.id || MayCommand(View(), requester.value, target)
      ensures denial.None? <==>
                || requester.None? || requester.value == target.id
                || (requester.value in registry && runtimes[registry[requester.value]].phase.Running?
                    && runtimes[registry[requester.value]].mission.priority <= target.priority)
      ensures denial == Some(NotFound) <==> requester.Some? && requester.value != target.id && requester.value !in registry
      ensures denial.Some? && denial != Some(NotFound) ==> denial == Some(NotPermitted)
    {
      if requester.None? || requester.value == target.id {
        return None;
      }
      if requester.value !in registry {
        return Some(NotFound);
      }
      var r := runtimes[registry[requester.value]];
      if !r.phase.Running? {
        return Some(NotPermitted);
      }
      return if r.mission.priority > target.priority then Some(NotPermitted) else None;
    }

    method QueueLocked(reg: Registration, now: real) returns (reply: Reply)
      requires Sound() && reg in runtimes && Attached(View(), reg)
      modifies this
      ensures (View(), reply) == Enqueue(old(View()), reg, now)
      ensures Sound()
    {
      ghost var s := View();
      EnqueueKeepsInv(s, reg, now);
      hide Inv, Agrees;
      var rt := runtimes[reg];
      if rt.phase.Queued? {
        return Unchanged;
      }
      var full := QueueFull();
      if full {
        return Refused(QueueCapacity);
      }
      var ok := Transition(reg, rt, Queued, now);
      return if ok then Done else Refused(BadTransition);
    }

    /** First admission pass of a launch. */
    method AdmitFirst(id: MissionId, requester: Option<MissionId>, now: real) returns (reply: Reply)
      requires Sound()
      modifies this
      ensures (View(), reply) == MissionState.AdmitFirst(old(View()), id, requester, now)
      ensures Sound()
    {
      if id !in registry {
        return Refused(NotFound);
      }
      RegisteredRecord(View(), id);
      var reg := registry[id];
      var rt := runtimes[reg];
      var denial := AuthorizeLocked(requester, rt.mission);
      if denial.Some? {
        return Refused(denial.value);
      }
      if rt.phase.Active() {
        return Unchanged;
      }
      var decision := DecideLocked(rt.mission, false);
      match decision
      case Start => return Proceed;
      case Wait => reply := QueueLocked(reg, now);
      case PreemptFirst(ids) => return Preempt(ids);
      case Deny(e) => return Refused(e);
    }

    /** Second admission pass: checks capacity first, and starts the mission. */
    method AdmitSecond(id: MissionId, now: real) returns (reply: Reply)
      requires Sound()
      modifies this
      ensures (View(), reply) == MissionState.AdmitSecond(old(View()), id, now)
      ensures Sound()
    {
      ghost var s := View();
      AdmissionKeepsInv(s, id, None, now);
      if id !in registry {
        return Refused(NotFound);
      }
      RegisteredRecord(s, id);
      hide Inv, Decide, StartAttempt, Enqueue;
      var reg := registry[id];
      var rt := runtimes[reg];
      var decision := DecideLocked(rt.mission, true);
      match decision
      case Wait => reply := QueueLocked(reg, now);
      case PreemptFirst(ids) => return Preempt(ids);
      case Deny(e) => return Refused(e);
      case Start => reply := StartLocked(reg, now);
    }

    method StartLocked(reg: Registration, now: real) returns (reply: Reply)
      requires Valid() && Wired(View()) && reg in runtimes && Attached(View(), reg)
      modifies this
      ensures (View(), reply) == StartAttempt(old(View()), reg, now)
      ensures Valid()
    {
      hide Agrees, Advance;
      var rt := runtimes[reg];
      if rt.pending.Some? {
        return Refused(StaleIntent);
      }
      var cleared := rt.(stopRequested := false, cleaned := false);
      var ok := Transition(reg, cleared, Starting, now);
      if !ok {
        Store(reg, cleared);
        return Refused(BadTransition);
      }
      return Done;
    }

    /** Moves to STOPPING and records the terminal intent. */
    method BeginStoppingLocked(reg: Registration, phase: Phase, result: Payload, retryable: bool, now: real) returns (reply: Reply)
      requires Sound() && reg in runtimes && phase.Terminal()
      modifies this
      ensures (View(), reply) == BeginStopping(old(View()), reg, phase, result, retryable, now)
      ensures Sound()
    {
      hide Inv, Valid, Sound, Wired, Followed, RuntimeOk;
      ghost var s := View();
      SoundView();
      BeginStoppingKeepsInv(s, reg, phase, result, retryable, now);
      RecordOk(s, reg);
      var rt := runtimes[reg].(stopRequested := true);
      if Stopping !in Successors(rt.phase) {
        Store(reg, rt);
        SoundAgain();
        return Refused(BadTransition);
      }
      StoppableRecord(s, reg);
      var stopping := Advanced(rt, Stopping, now);
      var intent := Intent(nextIntent, stopping.generation, phase, result, retryable);
      RecordPhase(reg, stopping.(pending := Some(intent)), Stopping);
      CountIntent();
      SoundAgain();
      return Requested(intent);
    }

    lemma SoundView()
      requires Sound()
      ensures Valid() && Inv(View()) && Wired(View())
    {
    }

    lemma SoundAgain()
      requires Valid() && Inv(View())
      ensures Sound()
    {
    }

    method CountIntent()
      requires Valid() && Wired(View())
      modifies `nextIntent
      ensures View() == old(View()).(nextIntent := old(nextIntent) + 1)
      ensures Valid() && Wired(View())
    {
      NumbersUnseen(Ix(), View(), nextIntent + 1, |transitions|, stopReturns);
      nextIntent := nextIntent + 1;
    }

    // -------------------------------------------------------------- the running mission

    method WorkerBegin(reg: Registration, generation: nat, guardAllows: bool, now: real) returns (reply: Reply)
      requires Sound() && reg in runtimes
      modifies this
      ensures (View(), reply) == MissionState.WorkerBegin(old(View()), reg, generation, guardAllows, now)
      ensures Sound()
    {
      hide Inv, Valid, Sound, Wired, Followed, BeginStopping;
      var rt := runtimes[reg];
      if rt.generation != generation || !rt.phase.Starting? {
        return Unchanged;
      }
      if !guardAllows {
        reply := BeginStoppingLocked(reg, Cancelled, map[], false, now);
        return;
      }
      reply := ActivePhaseChange(reg, Running, now);
      assert reply.Done?;
    }

    method PauseBegin(reg: Registration, requester: Option<MissionId>, now: real) returns (reply: Reply)
      requires Sound() && reg in runtimes
      modifies this
      ensures (View(), reply) == MissionState.PauseBegin(old(View()), reg, requester, now)
      ensures Sound()
    {
      hide Inv, Valid, Sound, Wired, Followed, Denial;
      SoundView();
      var rt := runtimes[reg];
      var denial := AuthorizeLocked(requester, rt.mission);
      if denial.Some? {
        return Refused(denial.value);
      }
      if rt.phase.Paused? {
        return Unchanged;
      }
      if Pausing !in Successors(rt.phase) {
        return Refused(BadTransition);
      }
      reply := ActivePhaseChange(reg, Pausing, now);
    }

    method PauseEnd(reg: Registration, now: real) returns (reply: Reply)
      requires Sound() && reg in runtimes
      modifies this
      ensures (View(), reply) == MissionState.PauseEnd(old(View()), reg, now)
      ensures Sound()
    {
      hide Inv, Valid, Sound, Wired, Followed;
      if !runtimes[reg].phase.Pausing? {
        return Unchanged;
      }
      reply := ActivePhaseChange(reg, Paused, now);
    }

    method ResumeEnd(reg: Registration, now: real) returns (reply: Reply)
      requires Sound() && reg in runtimes
      modifies this
      ensures (View(), reply) == MissionState.ResumeEnd(old(View()), reg, now)
      ensures Sound()
    {
      hide Inv, Valid, Sound, Wired, Followed;
      if !runtimes[reg].phase.Paused? {
        return Unchanged;
      }
      reply := ActivePhaseChange(reg, Running, now);
    }

    /** Moves an active mission to another active phase. */
    method ActivePhaseChange(reg: Registration, to: Phase, now: real) returns (reply: Reply)
      requires Sound() && reg in runtimes && runtimes[reg].phase.Active()
      requires Allowed(runtimes[reg].phase, to) && (to.Running? || to.Pausing? || to.Paused?)
      modifies this
      ensures View() == Move(old(View()), reg, to, now) && reply == Done
      ensures Sound()
    {
      hide Inv, Valid, Sound, Wired, Followed, Advance, Record;
      ghost var s := View();
      SoundView();
      ActiveMoveKeepsInv(s, reg, to, now);
      ActiveRecord(s, reg, to);
      var ok := Transition(reg, runtimes[reg], to, now);
      SoundAgain();
      return Done;
    }

    // -------------------------------------------------------------- requesting an end

    method Complete(reg: Registration, result: Payload, now: real) returns (reply: Reply)
      requires Sound() && reg in runtimes
      modifies this
      ensures (View(), reply) == MissionState.Complete(old(View()), reg, result, now)
      ensures Sound()
    {
      hide Inv, Valid, Sound, Wired, Followed, BeginStopping;
      var rt := runtimes[reg];
      if rt.phase.Terminal() {
        return Unchanged;
      }
      if rt.phase.Stopping? {
        if rt.pending.None? {
          return Refused(BadTransition);
        }
        if !rt.pending.value.phase.Succeeded? {
          return Refused(OtherIntent);
        }
        RequestStop(reg);
        return Requested(rt.pending.value);
      }
      if !rt.phase.Running? {
        return Refused(BadTransition);
      }
      reply := BeginStoppingLocked(reg, Succeeded, result, false, now);
    }

    method Fail(reg: Registration, retryable: bool, now: real) returns (reply: Reply)
      requires Sound() && reg in runtimes
      modifies this
      ensures (View(), reply) == MissionState.Fail(old(View()), reg, retryable, now)
      ensures Sound()
    {
      hide Inv, Valid, Sound, Wired, Followed, BeginStopping;
      var rt := runtimes[reg];
      if rt.phase.Terminal() {
        return Unchanged;
      }
      if rt.phase.Stopping? && rt.pending.Some? && !rt.pending.value.phase.Failed? {
        return Refused(OtherIntent);
      }
      if rt.phase.Active() && !rt.phase.Stopping? {
        reply := BeginStoppingLocked(reg, Failed, map[], retryable, now);
        return;
      }
      if rt.pending.Some? {
        RequestStop(reg);
        return Requested(rt.pending.value);
      }
      reply := FailUnstarted(reg, retryable, now);
    }

    /** A failure reported before the mission ever started is recorded without leaving its phase. */
    method FailUnstarted(reg: Registration, retryable: bool, now: real) returns (reply: Reply)
      requires Sound() && reg in runtimes && runtimes[reg].pending.None?
      requires !runtimes[reg].phase.Terminal() && !(runtimes[reg].phase.Active() && !runtimes[reg].phase.Stopping?)
      modifies this
      ensures (View(), reply) == MissionState.Fail(old(View()), reg, retryable, now)
      ensures Sound()
    {
      hide Inv, Valid, Sound, Wired, Followed, BeginStopping;
      ghost var s := View();
      SoundView();
      RequestKeepsInv(s, reg, map[], retryable, now);
      var rt := runtimes[reg];
      var intent := Intent(nextIntent, rt.generation, Failed, map[], retryable);
      Store(reg, rt.(stopRequested := true, pending := Some(intent)));
      CountIntent();
      SoundAgain();
      return Requested(intent);
    }

    /** Sets the mission's stop event again. */
    method RequestStop(reg: Registration)
      requires Sound() && reg in runtimes && runtimes[reg].pending.Some?
      modifies `runtimes
      ensures View() == Put(old(View()), reg, old(runtimes)[reg].(stopRequested := true))
      ensures Sound()
    {
      hide Inv, Valid, Sound, Wired, RuntimeOk;
      SoundView();
      RecordOk(View(), reg);
      StopEventKeepsInv(View(), reg);
      Store(reg, runtimes[reg].(stopRequested := true));
      SoundAgain();
    }

    method Finish(reg: Registration, terminal: Phase, requester: Option<MissionId>, now: real) returns (reply: Reply)
      requires Sound() && reg in runtimes && (terminal.Stopped? || terminal.Cancelled?)
      modifies this
      ensures (View(), reply) == MissionState.Finish(old(View()), reg, terminal, requester, now)
      ensures Sound()
    {
      hide Inv, Valid, Sound, Wired, Followed, BeginStopping, Denial, Advance;
      ghost var s := View();
      SoundView();
      FinishKeepsInv(s, reg, terminal, requester, now);
      var rt := runtimes[reg];
      var denial := AuthorizeLocked(requester, rt.mission);
      if denial.Some? {
        return Refused(denial.value);
      }
      if rt.phase.Terminal() {
        return Unchanged;
      }
      if rt.pending.Some? && rt.pending.value.phase != terminal {
        return Refused(OtherIntent);
      }
      if rt.phase.Registered? || rt.phase.Queued? {
        UnstartedRecord(s, reg, terminal);
        var ok := Transition(reg, rt.(stopRequested := true), terminal, now);
        SoundAgain();
        return if rt.pending.Some? then Requested(rt.pending.value) else Done;
      }
      if rt.pending.Some? {
        RequestStop(reg);
        return Requested(rt.pending.value);
      }
      reply := BeginStoppingLocked(reg, terminal, map[], false, now);
    }

    // -------------------------------------------------------------- ending

    /** Offered exactly while a failed cleanup holds the mission in STOPPING; it finalizes that attempt's intent. */
    method RetryCleanup(reg: Registration) returns (reply: Reply)
      requires Sound() && reg in runtimes
      ensures reply == MissionState.RetryCleanup(View(), reg)
      ensures var rt := runtimes[reg];
              if rt.phase.Stopping? && rt.cleanupError
              then reply.Requested? && rt.pending == Some(reply.intent) && reply.intent.generation == rt.generation
                   && reply.intent.phase.Terminal()
                   && MissionState.FinalizeBegin(View(), reg, reply.intent, false).1 != Done
                   && (rt.finalizer.Idle? ==> MissionState.FinalizeBegin(View(), reg, reply.intent, true).1 == Done)
              else reply == Refused(NotWaitingForCleanup)
    {
      RecordOk(View(), reg);
      var rt := runtimes[reg];
      if !rt.phase.Stopping? {
        return Refused(NotWaitingForCleanup);
      }
      if !rt.cleanupError {
        return Refused(NotWaitingForCleanup);
      }
      return if rt.pending.None? then Refused(NotWaitingForCleanup) else Requested(rt.pending.value);
    }

    /** Replaces a record without changing its phase, when the invariant allows it. */
    method StoreSoundly(reg: Registration, rt: Runtime)
      requires Sound() && reg in runtimes && rt.mission == runtimes[reg].mission && rt.phase == runtimes[reg].phase
      requires Inv(Put(View(), reg, rt))
      modifies `runtimes
      ensures View() == Put(old(View()), reg, rt)
      ensures Sound()
    {
      hide Inv, Valid, Sound, Wired, Put;
      SoundView();
      Store(reg, rt);
      SoundAgain();
    }

    /** Takes the terminal lock on behalf of `intent`. */
    method FinalizeBegin(reg: Registration, intent: Intent, retryCleanup: bool) returns (reply: Reply)
      requires Sound() && reg in runtimes
      modifies this
      ensures (View(), reply) == MissionState.FinalizeBegin(old(View()), reg, intent, retryCleanup)
      ensures Sound()
    {
      hide Inv, Valid, Sound, Wired;
      SoundView();
      ExecuteKeepsInv(View(), reg, DoFinalizeBegin(intent, retryCleanup), 0.0);
      var rt := runtimes[reg];
      if !rt.finalizer.Idle? {
        return Unchanged;
      }
      if rt.pending != Some(intent) {
        return if rt.pending.None? || rt.generation != intent.generation then Unchanged else Refused(BadTransition);
      }
      if rt.cleanupError && !retryCleanup {
        return Refused(CleanupFailed);
      }
      StoreSoundly(reg, rt.(finalizer := Cleaning(intent)));
      return Done;
    }

    /** One attempt at `mission.stop()`, which runs at most once to success in a generation. */
    method Cleanup(reg: Registration, stopOk: bool) returns (reply: Reply)
      requires Sound() && reg in runtimes
      modifies this
      ensures (View(), reply) == MissionState.Cleanup(old(View()), reg, stopOk)
      ensures Sound()
    {
      hide Inv, Valid, Sound, Wired;
      ghost var s := View();
      SoundView();
      CleanupKeepsInv(s, reg, stopOk);
      var rt := runtimes[reg];
      if !rt.finalizer.Cleaning? {
        return Unchanged;
      }
      var intent := rt.finalizer.intent;
      if rt.cleaned {
        StoreSoundly(reg, rt.(cleanupError := false, finalizer := Cleaned(intent)));
        return Done;
      }
      if !stopOk {
        StoreSoundly(reg, rt.(cleanupError := true, finalizer := Idle));
        return Refused(CleanupFailed);
      }
      Store(reg, rt.(cleaned := true, cleanupError := false, finalizer := Cleaned(intent)));
      LogStop(reg, rt.generation);
      SoundAgain();
      return Done;
    }

    ghost method LogStop(reg: Registration, generation: nat)
      requires Valid() && Wired(View())
      modifies `stopReturns
      ensures View() == old(View()).(stopReturns := old(stopReturns) + [(reg, generation)])
      ensures Valid() && Wired(View())
    {
      NumbersUnseen(Ix(), View(), nextIntent, |transitions|, stopReturns + [(reg, generation)]);
      stopReturns := stopReturns + [(reg, generation)];
    }

    /** Commits the intent, and requeues a retryable failure, registered or not. */
    method Commit(reg: Registration, now: real) returns (reply: Reply)
      requires Sound() && reg in runtimes
      modifies this
      ensures (View(), reply) == MissionState.Commit(old(View()), reg, now)
      ensures Sound()
    {
      hide Inv, Valid, Sound, Wired, Advance, AtQueueCapacity, RuntimeOk, Agrees, Attached, Followed;
      ghost var s := View();
      SoundView();
      CommitKeepsInv(s, reg, now);
      var rt := runtimes[reg];
      if !rt.finalizer.Cleaned? {
        return Unchanged;
      }
      CommittableRecord(s, reg);
      var intent := rt.finalizer.intent;
      var released := rt.(finalizer := Idle);
      if (intent.phase.Succeeded? || intent.phase.Failed?) && rt.phase.Terminal() {
        Store(reg, released);
        SoundAgain();
        return Unchanged;
      }
      if rt.pending != Some(intent) || intent.phase !in Successors(rt.phase) {
        Store(reg, released);
        SoundAgain();
        return Refused(BadTransition);
      }
      var ended := Advanced(released, intent.phase, now);
      ended := ended.(pending := None);
      if intent.phase.Succeeded? {
        ended := ended.(result := intent.result);
      }
      RecordPhase(reg, ended, intent.phase);
      var full := QueueFull();
      if intent.phase.Failed? && intent.retryable && ended.attempt < ended.mission.attempts && !full {
        RequeueLocked(reg, now);
        SoundAgain();
        return Retrying;
      }
      SoundAgain();
      return Done;
    }

    method QueueFull() returns (full: bool)
      requires Valid()
      ensures full == AtQueueCapacity(View())
    {
      full := maxQueued.Some? && |queuedIds| >= maxQueued.value;
    }

    method RequeueLocked(reg: Registration, now: real)
      requires Valid() && Wired(View()) && reg in runtimes && runtimes[reg].phase.Failed?
      modifies this
      ensures View() == Requeue(old(View()), reg, now)
      ensures Valid() && Wired(View())
    {
      hide Agrees, Advance, Wired;
      var waiting := Advanced(runtimes[reg], Queued, now);
      waiting := waiting.(nextRetryAt := Some(now + waiting.mission.retryDelay));
      RecordPhase(reg, waiting, Queued);
    }

    // -------------------------------------------------------------- registration

    method Register(m: Mission) returns (reply: Reply)
      requires Sound()
      modifies this
      ensures (View(), reply) == MissionState.Register(old(View()), m)
      ensures Sound()
    {
      hide Inv, Agrees, Attached;
      ghost var s := View();
      SoundView();
      RegisterKeepsInv(s, m);
      if m.id in registry {
        return Refused(AlreadyRegistered);
      }
      RegisterAgrees(Ix(), s, m);
      runtimes := runtimes[nextRegistration := NewRuntime(m)];
      registry := registry[m.id := nextRegistration];
      nextRegistration := nextRegistration + 1;
      return Done;
    }

    /** Takes a mission out of the registry and out of every index. */
    method Release(id: MissionId)
      requires Sound() && id in registry
      requires !IsActive(View(), id) && !IsQueued(View(), id)
      modifies this
      ensures View() == old(View()).(registry := old(registry) - {id})
      ensures Sound()
    {
      hide Inv, Agrees;
      ghost var s := View();
      SoundView();
      RegisteredRecord(s, id);
      ReleaseKeepsInv(s, id);
      ReleaseAgrees(Ix(), s, id);
      var rt := runtimes[registry[id]];
      registry := registry - {id};
      UpdatePhaseIndexes(rt.mission, rt.phase, Phase.Registered);
    }

    /** `seen` is the record the caller found before it waited for the worker to finish. */
    method Unregister(id: MissionId, seen: Registration) returns (reply: Reply)
      requires Sound()
      modifies this
      ensures (View(), reply) == MissionState.Unregister(old(View()), id, seen)
      ensures Sound()
    {
      hide Inv, Agrees, Sound, Valid;
      SoundView();
      if id !in registry {
        return Unchanged;
      }
      if registry[id] != seen {
        return Refused(RegistrationChanged);
      }
      RegisteredRecord(View(), id);
      var rt := runtimes[registry[id]];
      if rt.phase.Active() || rt.phase.Queued? {
        return Refused(ActiveOrQueued);
      }
      Release(id);
      return Done;
    }

    /** Releases the terminal missions of a forgotten execution. */
    method DiscardMissions(ids: seq<MissionId>)
      requires Sound()
      modifies this
      ensures View() == Discard(old(View()), ids)
      ensures Sound()
    {
      hide Inv, Agrees, Sound, Valid;
      ghost var s := View();
      for i := 0 to |ids|
        invariant Sound()
        invariant Discard(View(), ids[i..]) == Discard(s, ids)
      {
        SoundView();
        assert ids[i..][0] == ids[i] && ids[i..][1..] == ids[i + 1..];
        if ids[i] in registry && registry[ids[i]] in runtimes && runtimes[registry[ids[i]]].phase.Terminal() {
          Release(ids[i]);
        }
      }
    }

    // -------------------------------------------------------------- publication

    /** Drains the pending transitions to the bus, oldest first. */
    method PublishTransitions()
      requires Sound()
      modifies `pendingTransitions, `transitions
      ensures transitions == old(transitions + pendingTransitions) && pendingTransitions == []
      ensures View() == old(View()).(published := |old(View()).history|)
      ensures Sound()
    {
      hide Inv, Agrees, Wired;
      ghost var s, ix := View(), Ix();
      SoundView();
      while pendingTransitions != []
        invariant transitions + pendingTransitions == s.history
        invariant View() == s.(published := |transitions|)
      {
        var current := pendingTransitions[0];
        pendingTransitions := pendingTransitions[1..];
        assert transitions + ([current] + pendingTransitions) == (transitions + [current]) + pendingTransitions;
        transitions := transitions + [current];
      }
      assert transitions + [] == transitions;
      NumbersUnseen(ix, s, nextIntent, |transitions|, stopReturns);
      OtherFields(s, nextIntent, |transitions|);
    }

    // -------------------------------------------------------------- the queue

    /** Fails a queue entry that waited too long, if it is still the entry that was listed. */
    method ExpireQueued(id: MissionId, generation: nat, queuedAt: Option<real>, now: real) returns (reply: Reply)
      requires Sound()
      modifies this
      ensures (View(), reply) == MissionState.ExpireQueued(old(View()), id, generation, queuedAt, now)
      ensures Sound()
    {
      hide Inv, Sound, Valid, Wired, QueueTimedOut, Advance, Record, Followed;
      ghost var s := View();
      SoundView();
      ExpiryKeepsInv(s, id, generation, queuedAt, now);
      if id !in registry {
        return Unchanged;
      }
      RegisteredRecord(s, id);
      var reg := registry[id];
      var rt := runtimes[reg];
      if !rt.phase.Queued? || rt.generation != generation || rt.queuedAt != queuedAt {
        return Unchanged;
      }
      if !QueueTimedOut(rt, now) {
        return Proceed;
      }
      UnstartedRecord(s, reg, Failed);
      var ok := Transition(reg, rt, Failed, now);
      SoundAgain();
      return Done;
    }

    /** Lists the queue index in (priority, queue time) order; None stands for the exception at an unregistered id. */
    method SortQueue() returns (listed: Option<seq<MissionId>>)
      requires Valid() && Wired(View())
      ensures listed.Some? <==> Listable(View())
      ensures listed.Some? ==> QueueOrder(View(), listed.value)
    {
      ghost var s := View();
      if id :| id in queuedIds && id !in registry {
        assert Find(s, id).None?;
        return None;
      }
      var order: seq<MissionId> := [];
      var todo := queuedIds;
      assert forall id :: id in todo ==> Find(s, id) == Some(runtimes[registry[id]]);
      while todo != {}
        invariant todo <= queuedIds
        invariant forall id :: id in queuedIds ==> Find(s, id) == Some(runtimes[registry[id]])
        invariant forall id :: id in order <==> id in queuedIds && id !in todo
        invariant Sorted(s, order)
        invariant forall a, b :: a in order && b in todo ==> Precedes(Find(s, a).value, Find(s, b).value)
        decreases todo
      {
        FirstInQueue(s, todo);
        var id :| id in todo && forall other :: other in todo ==> Precedes(runtimes[registry[id]], runtimes[registry[other]]);
        SortedMore(s, order, id);
        order := order + [id];
        todo := todo - {id};
      }
      return Some(order);
    }

    /** Stops an active mission: the request, and the end of its intent. False stands for an exception. */
    method StopMission(id: MissionId, outcome: StopOutcome, now: real) returns (ok: bool)
      requires Sound() && IsActive(View(), id)
      modifies this
      ensures (View(), ok) == StopOne(old(View()), id, outcome, now)
      ensures Sound()
    {
      hide Inv, Sound, Valid, Wired, RuntimeOk, StopsOnly;
      hide MissionState.Finish, MissionState.FinalizeBegin, MissionState.Cleanup, MissionState.Commit;
      ghost var s := View();
      SoundView();
      ActiveRecordOk(s, id);
      RequestDoes(s, id, now);
      var reg := registry[id];
      var asked := Finish(reg, Stopped, None, now);
      if !asked.Requested? {
        return !asked.Refused?;
      }
      if outcome.Hangs? {
        return false;
      }
      StopsOnlyFinds(s, View(), id);
      ok := FinalizePending(id, reg, asked.intent, outcome.Returns?, now);
    }

    /** Runs a STOPPED intent to its end under the terminal lock. */
    method FinalizePending(id: MissionId, reg: Registration, intent: Intent, stopOk: bool, now: real) returns (ok: bool)
      requires Sound() && IsActive(View(), id) && registry[id] == reg
      requires reg in runtimes && runtimes[reg].phase.Stopping? && runtimes[reg].pending == Some(intent) && intent.phase.Stopped?
      modifies this
      ensures (View(), ok) == Finalized(old(View()), reg, intent, stopOk, now)
      ensures Sound()
    {
      hide Inv, Sound, Valid, Wired, RuntimeOk, StopsOnly;
      hide MissionState.FinalizeBegin, MissionState.Cleanup, MissionState.Commit;
      ghost var s := View();
      SoundView();
      LockDoes(s, id);
      var begun := FinalizeBegin(reg, intent, false);
      if begun.Refused? {
        return false;
      }
      ghost var u := View();
      StopsOnlyFinds(s, u, id);
      CleanupDoes(u, id, stopOk);
      var cleaned := Cleanup(reg, stopOk);
      if cleaned.Refused? {
        return false;
      }
      StopsOnlyFinds(u, View(), id);
      SoundView();
      var committed := Commit(reg, now);
      return !committed.Refused?;
    }

    /** Stops the missions in the way, one after the other. */
    method StopConflicts(victims: seq<MissionId>, outcome: MissionId -> StopOutcome, now: real) returns (ok: bool)
      requires Sound() && NoDuplicates(victims) && forall v :: v in victims ==> IsActive(View(), v)
      modifies this
      ensures (View(), ok) == StopAll(old(View()), victims, outcome, now)
      ensures Sound()
    {
      hide Inv, Sound, Valid, Wired, StopOne, Yields;
      ghost var s := View();
      SoundView();
      ok := true;
      for i := 0 to |victims|
        invariant Sound()
        invariant (View(), ok) == StopAll(s, victims[..i], outcome, now)
      {
        assert victims[..i + 1][..i] == victims[..i] && victims[..i + 1][i] == victims[i];
        if ok {
          NextVictim(s, victims, i, outcome, now);
          ok := StopMission(victims[i], outcome(victims[i]), now);
        }
      }
      assert victims[..|victims|] == victims;
    }

    /** One pass over the queue; false when it raised, which ends the thread that runs the passes. */
    method PromoteQueued(now: real, w: World) returns (completed: bool, ghost order: seq<MissionId>)
      requires Sound() && Iterates(w)
      modifies this
      ensures Listable(old(View())) ==> QueueOrder(old(View()), order)
      ensures (View(), completed) == Pass(old(View()), order, now, w)
      ensures Sound()
    {
      hide Inv, Sound, Valid, Wired, PromoteEntry, Sorted, Iterates, Listable;
      ghost var s := View();
      SoundView();
      var listing := SortQueue();
      if listing.None? {
        return false, [];
      }
      var listed := listing.value;
      order := listed;
      OrderFinds(s, listed);
      var entries := runtimes;
      var missions := registry;
      completed := true;
      for i := 0 to |listed|
        invariant Sound()
        invariant forall id :: id in listed ==> Find(s, id).Some?
        invariant (View(), completed) == Promote(s, listed[..i], now, w)
      {
        assert listed[..i + 1][..i] == listed[..i] && listed[..i + 1][i] == listed[i];
        if completed {
          assert Find(s, listed[i]).Some?;
          completed := PromoteListed(listed[i], entries[missions[listed[i]]], now, w);
        }
      }
      assert listed[..|listed|] == listed;
    }

    method PromoteListed(id: MissionId, seen: Runtime, now: real, w: World) returns (going: bool)
      requires Sound() && Iterates(w)
      modifies this
      ensures (View(), going) == PromoteEntry(old(View()), id, seen, now, w)
      ensures Sound()
    {
      hide Inv, Sound, Valid, Wired, Iterates;
      hide MissionState.AdmitFirst, MissionState.AdmitSecond;
      var expiry := ExpireQueued(id, seen.generation, seen.queuedAt, now);
      if !expiry.Proceed? {
        return true;
      }
      var rt := runtimes[registry[id]];
      if rt.nextRetryAt.Some? && now < rt.nextRetryAt.value {
        return true;
      }
      going := LaunchQueued(id, now, w);
    }

    method LaunchQueued(id: MissionId, now: real, w: World) returns (ok: bool)
      requires Sound() && Iterates(w) && IsQueued(View(), id)
      modifies this
      ensures (View(), ok) == Launch(old(View()), id, now, w)
      ensures Sound()
    {
      hide Inv, Sound, Valid, Wired, Iterates;
      hide MissionState.AdmitFirst, MissionState.AdmitSecond, MayPreempt, Admissible, StopAll;
      ghost var s := View();
      FirstDecides(s, id, now);
      var first := AdmitFirst(id, None, now);
      match first
      case Preempt(ids) =>
        VictimsAre(s, Find(s, id).value.mission, w);
        var stopped := StopConflicts(w.iterate(ids), w.outcome, now);
        if !stopped {
          return false;
        }
        var second := AdmitSecond(id, now);
        return second.Done?;
      case Proceed =>
        var second := AdmitSecond(id, now);
        return second.Done?;
      case _ => return true;
    }
  }

  lemma OrderFinds(s: State, order: seq<MissionId>)
    requires QueueOrder(s, order)
    ensures forall id :: id in order ==> Find(s, id).Some?
  {
  }

  lemma SortedMore(s: State, order: seq<MissionId>, id: MissionId)
    requires Sorted(s, order) && id !in order && Find(s, id).Some?
    requires forall a :: a in order ==> Precedes(Find(s, a).value, Find(s, id).value)
    ensures Sorted(s, order + [id])
  {
  }

  /** A mission whose turn to be stopped has not come is still active. */
  lemma NextVictim(s: State, victims: seq<MissionId>, i: nat, outcome: MissionId -> StopOutcome, now: real)
    requires Inv(s) && NoDuplicates(victims) && (forall v :: v in victims ==> IsActive(s, v)) && i < |victims|
    ensures IsActive(StopAll(s, victims[..i], outcome, now).0, victims[i])
  {
    hide Inv, StopAll, Yields;
    assert victims[i] !in victims[..i];
    StopAllDoes(s, victims[..i], outcome, now);
    assert victims[i] !in Members(victims[..i]);
    assert victims[i] in victims && IsActive(s, victims[i]);
    assert Find(StopAll(s, victims[..i], outcome, now).0, victims[i]) == Find(s, victims[i]);
  }

  /** When nobody blocks by class, every conflict is with an owner of a wanted resource. */
  lemma CandidatesSuffice(s: State, m: Mission, owners: set<MissionId>, byClass: bool)
    requires Wired(s)
    requires forall id :: id in owners <==> exists r :: r in m.resources && id in Holders(s, r)
    requires byClass <==> (m.blocks != {} || exists id :: id in ActiveIds(s) && s.runtimes[s.registry[id]].mission.blocks != {})
    ensures Conflicts(s, m) <= if byClass then ActiveIds(s) else owners
    ensures forall id :: id in owners ==> id in ActiveIds(s)
  {
    if !byClass {
      forall id | id in Conflicts(s, m) ensures id in owners {
        var other := Find(s, id).value.mission;
        assert id in ActiveIds(s);
        assert m.blocks == {} && other.blocks == {};
        assert m.blocks * other.kind.ancestors == {} && other.blocks * m.kind.ancestors == {};
        var r :| r in m.resources * other.resources;
        assert id in Holders(s, r);
      }
    }
  }

  /** A class is counted exactly when some registered mission of it has succeeded. */
  lemma CountersAnswer(counts: map<MissionType, nat>, s: State, requirement: string)
    requires CountsAgree(counts, s)
    ensures PrerequisiteMet(s, requirement) <==> exists t :: t in counts.Keys && requirement in t.ancestors
  {
    if PrerequisiteMet(s, requirement) {
      var id :| id in s.registry && IsSucceeded(s, id) && requirement in Find(s, id).value.mission.kind.ancestors;
      var t := Find(s, id).value.mission.kind;
      assert id in SucceededIds(s, t);
      assert t in counts.Keys;
    }
    if t :| t in counts.Keys && requirement in t.ancestors {
      assert SucceededIds(s, t) != {};
      var id :| id in SucceededIds(s, t);
      assert IsSucceeded(s, id);
    }
  }

  lemma FirstInQueue(s: State, todo: set<MissionId>)
    requires todo != {} && forall id :: id in todo ==> id in s.registry && s.registry[id] in s.runtimes
    ensures exists id :: id in todo && forall other :: other in todo ==>
              Precedes(s.runtimes[s.registry[id]], s.runtimes[s.registry[other]])
  {
    var x :| x in todo;
    var rest := todo - {x};
    if rest != {} {
      FirstInQueue(s, rest);
      var y :| y in rest && forall other :: other in rest ==> Precedes(s.runtimes[s.registry[y]], s.runtimes[s.registry[other]]);
      var first := if Precedes(s.runtimes[s.registry[x]], s.runtimes[s.registry[y]]) then x else y;
      forall other | other in todo ensures Precedes(s.runtimes[s.registry[first]], s.runtimes[s.registry[other]]) {
        if other != x {
          assert Precedes(s.runtimes[s.registry[y]], s.runtimes[s.registry[other]]);
        }
      }
      assert first in todo;
    } else {
      assert todo == {x};
      assert Precedes(s.runtimes[s.registry[x]], s.runtimes[s.registry[x]]);
    }
  }
}
