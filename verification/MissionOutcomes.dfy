// Which end a request asks for, and that the mission then ends that way (mission/lifecycle.py).

module MissionOutcomes {
  import opened Prelude
  import opened MissionPhases
  import opened MissionState
  import opened MissionSafety
  import opened MissionQueueIndex
  import opened MissionTermination

  // ---------------------------------------------------------------- what a request records

  /** The mission has begun to stop, and will end as `phase` with `result`; all else about it is as before. */
  ghost predicate Asks(before: Runtime, after: Runtime, phase: Phase, result: Payload, retryable: bool) {
    && after.phase.Stopping? && after.stopRequested
    && after.mission == before.mission && after.generation == before.generation && after.attempt == before.attempt
    && after.result == before.result
    && after.cleaned == before.cleaned && after.cleanupError == before.cleanupError && after.finalizer == before.finalizer
    && after.pending.Some?
    && after.pending.value.phase == phase
    && after.pending.value.result == result
    && after.pending.value.retryable == retryable
    && after.pending.value.generation == before.generation
  }

  /** Only this record changed, and went from its phase to STOPPING. */
  ghost predicate OnlyStopping(s: State, t: State, reg: Registration)
    requires reg in s.runtimes
  {
    && Local(s, t, reg)
    && t.history == s.history + [Change(reg, s.runtimes[reg].mission.id, s.runtimes[reg].phase, Stopping, s.runtimes[reg].generation)]
  }

  lemma BeginStoppingAsks(s: State, reg: Registration, phase: Phase, result: Payload, retryable: bool, now: real)
    requires reg in s.runtimes && s.runtimes[reg].phase.Active() && !s.runtimes[reg].phase.Stopping? && s.runtimes[reg].pending.None?
    ensures var (t, reply) := BeginStopping(s, reg, phase, result, retryable, now);
            && reg in t.runtimes
            && Asks(s.runtimes[reg], t.runtimes[reg], phase, result, retryable)
            && reply == Requested(t.runtimes[reg].pending.value)
            && OnlyStopping(s, t, reg)
            && t.runtimes[reg].pending.value.serial == s.nextIntent && t.nextIntent == s.nextIntent + 1
  {
    BeginStoppingIsLocal(s, reg, phase, result, retryable, now);
    hide Local, QueueAfter;
    var rt := s.runtimes[reg];
    StoppingIs(rt, now);
    hide Advance;
  }

  lemma StoppingIs(rt: Runtime, now: real)
    requires rt.phase.Active() && !rt.phase.Stopping?
    ensures var after := Advance(rt.(stopRequested := true), Stopping, now);
            && Allowed(rt.phase, Stopping)
            && after == rt.(
                 phase := Stopping, stopRequested := true, activeElapsed := after.activeElapsed, activeSince := after.activeSince)
  {
  }

  /** A started mission has no intent before it stops. */
  lemma NoIntentYet(s: State, reg: Registration)
    requires Inv(s) && reg in s.runtimes && s.runtimes[reg].phase.Active() && !s.runtimes[reg].phase.Stopping?
    ensures s.runtimes[reg].pending.None? && !s.runtimes[reg].cleaned && !s.runtimes[reg].cleanupError && s.runtimes[reg].finalizer.Idle?
  {
    RecordOk(s, reg);
  }

  /** Completing a running mission asks for SUCCEEDED with the given result; otherwise it adds nothing new. */
  lemma CompleteAsks(s: State, reg: Registration, result: Payload, now: real)
    requires Inv(s) && reg in s.runtimes
    ensures var (t, reply) := Complete(s, reg, result, now); var rt := s.runtimes[reg];
            && reg in t.runtimes
            && (if rt.phase.Running? then
                  && Asks(rt, t.runtimes[reg], Succeeded, result, false) && OnlyStopping(s, t, reg)
                  && reply == Requested(t.runtimes[reg].pending.value)
                else t == s)
            && (reply == Unchanged <==> rt.phase.Terminal())
            && (reply == Refused(OtherIntent) <==> rt.phase.Stopping? && rt.pending.Some? && !rt.pending.value.phase.Succeeded?)
            && (reply == Refused(BadTransition) <==> !rt.phase.Terminal() && !rt.phase.Stopping? && !rt.phase.Running?)
            && (rt.phase.Stopping? && rt.pending.Some? && rt.pending.value.phase.Succeeded? <==>
                  !rt.phase.Running? && reply.Requested? && Some(reply.intent) == rt.pending)
  {
    RecordOk(s, reg);
    var rt := s.runtimes[reg];
    if rt.phase.Running? {
      NoIntentYet(s, reg);
      BeginStoppingAsks(s, reg, Succeeded, result, false, now);
    } else {
      SameStopRequest(s, reg);
    }
    hide Inv, Asks, OnlyStopping, BeginStopping, Put;
  }

  lemma SameStopRequest(s: State, reg: Registration)
    requires Inv(s) && reg in s.runtimes
    ensures s.runtimes[reg].pending.Some? ==> Put(s, reg, s.runtimes[reg].(stopRequested := true)) == s
  {
    RecordOk(s, reg);
    hide Inv;
    var rt := s.runtimes[reg];
    assert rt.pending.Some? ==> rt.(stopRequested := true) == rt;
    assert Put(s, reg, rt) == s;
  }

  /** Failing a started mission asks for FAILED, to be tried again as the report says. */
  lemma FailAsks(s: State, reg: Registration, retryable: bool, now: real)
    requires Inv(s) && reg in s.runtimes
    ensures var (t, reply) := Fail(s, reg, retryable, now); var rt := s.runtimes[reg];
            && reg in t.runtimes
            && (rt.phase.Active() && !rt.phase.Stopping? ==>
                  && Asks(rt, t.runtimes[reg], Failed, map[], retryable) && OnlyStopping(s, t, reg)
                  && reply == Requested(t.runtimes[reg].pending.value))
            && (!rt.phase.Active() && !rt.phase.Terminal() && rt.pending.None? ==>
                  && t.history == s.history && t.queueIndex == s.queueIndex && t.registry == s.registry
                  && var intent := Intent(s.nextIntent, rt.generation, Failed, map[], retryable);
                     t.runtimes == s.runtimes[reg := rt.(stopRequested := true, pending := Some(intent))] && reply == Requested(intent))
            && (rt.phase.Terminal() || rt.phase.Stopping? || rt.pending.Some? ==> t == s)
            && (reply == Unchanged <==> rt.phase.Terminal())
            && (reply == Refused(OtherIntent) <==> rt.phase.Stopping? && !rt.pending.value.phase.Failed?)
            && (!rt.phase.Terminal() && rt.pending.Some? && rt.pending.value.phase.Failed? ==> reply == Requested(rt.pending.value))
  {
    RecordOk(s, reg);
    var rt := s.runtimes[reg];
    SameStopRequest(s, reg);
    if rt.phase.Active() && !rt.phase.Stopping? {
      NoIntentYet(s, reg);
      BeginStoppingAsks(s, reg, Failed, map[], retryable, now);
      hide Put, RuntimeOk;
    }
    hide Inv, Asks, OnlyStopping, BeginStopping;
  }

  /** The mission ended without ever being started. */
  ghost predicate EndsAtOnce(s: State, t: State, reg: Registration, terminal: Phase)
    requires reg in s.runtimes
  {
    && Local(s, t, reg) && reg in t.runtimes
    && t.runtimes[reg].phase == terminal && t.runtimes[reg].pending == s.runtimes[reg].pending
    && t.runtimes[reg].mission == s.runtimes[reg].mission && t.runtimes[reg].generation == s.runtimes[reg].generation
    && t.history == s.history + [Change(reg, s.runtimes[reg].mission.id, s.runtimes[reg].phase, terminal, s.runtimes[reg].generation)]
    && t.queueIndex == (if s.runtimes[reg].phase.Queued? then s.queueIndex - {s.runtimes[reg].mission.id} else s.queueIndex)
  }

  lemma EndingAtOnce(s: State, reg: Registration, terminal: Phase, now: real)
    requires reg in s.runtimes && (terminal.Stopped? || terminal.Cancelled?)
    ensures EndsAtOnce(s, Record(s, reg, Advance(s.runtimes[reg].(stopRequested := true), terminal, now)), reg, terminal)
  {
  }

  /** Stopping or cancelling ends an unstarted mission at once, and asks a started one for exactly that end. */
  lemma FinishAsks(s: State, reg: Registration, terminal: Phase, requester: Option<MissionId>, now: real)
    requires Inv(s) && reg in s.runtimes && (terminal.Stopped? || terminal.Cancelled?)
    ensures var (t, reply) := Finish(s, reg, terminal, requester, now); var rt := s.runtimes[reg];
            var allowed := Denial(s, requester, rt.mission).None?;
            && reg in t.runtimes
            && (allowed && rt.phase.Active() && !rt.phase.Stopping? ==>
                  && Asks(rt, t.runtimes[reg], terminal, map[], false) && OnlyStopping(s, t, reg)
                  && reply == Requested(t.runtimes[reg].pending.value))
            && (allowed && (rt.phase.Registered? || rt.phase.Queued?) && rt.pending.None? ==>
                  EndsAtOnce(s, t, reg, terminal) && reply == Done)
            && (!allowed || rt.phase.Terminal() || rt.phase.Stopping? || rt.pending.Some? ==> t == s)
            && (reply == Unchanged <==> allowed && rt.phase.Terminal())
            && (reply == Refused(OtherIntent) <==>
                  allowed && !rt.phase.Terminal() && rt.pending.Some? && rt.pending.value.phase != terminal)
            && (allowed && rt.phase.Stopping? && rt.pending.value.phase == terminal ==> reply == Requested(rt.pending.value))
            && (!allowed <==> reply == Refused(NotFound) || reply == Refused(NotPermitted))
  {
    hide Inv, RuntimeOk, Denial, Attached, Asks, OnlyStopping, BeginStopping, EndsAtOnce, Record, Put, Advance, Local;
    RecordOk(s, reg);
    var rt := s.runtimes[reg];
    DenialIs(s, requester, rt.mission);
    SameStopRequest(s, reg);
    UnstartedIntent(rt);
    if rt.phase.Active() && !rt.phase.Stopping? {
      NoIntentYet(s, reg);
      BeginStoppingAsks(s, reg, terminal, map[], false, now);
    } else if (rt.phase.Registered? || rt.phase.Queued?) && rt.pending.None? {
      EndingAtOnce(s, reg, terminal, now);
      EndsThere(s, Record(s, reg, Advance(rt.(stopRequested := true), terminal, now)), reg, terminal);
    }
  }

  lemma EndsThere(s: State, t: State, reg: Registration, terminal: Phase)
    requires reg in s.runtimes && EndsAtOnce(s, t, reg, terminal)
    ensures reg in t.runtimes
  {
  }

  lemma UnstartedIntent(rt: Runtime)
    requires RuntimeOk(rt)
    ensures rt.phase.Stopping? ==> rt.pending.Some?
    ensures rt.pending.Some? && !rt.phase.Stopping? ==> rt.pending.value.phase.Failed?
  {
  }

  lemma DenialIs(s: State, requester: Option<MissionId>, m: Mission)
    ensures Denial(s, requester, m).Some? ==>
              Denial(s, requester, m) == Some(NotFound) || Denial(s, requester, m) == Some(NotPermitted)
  {
  }

  /** The worker of this attempt activates it, or asks for CANCELLED when its guard rejects; any other does nothing. */
  lemma WorkerAsks(s: State, reg: Registration, generation: nat, guardAllows: bool, now: real)
    requires Inv(s) && reg in s.runtimes
    ensures var (t, reply) := WorkerBegin(s, reg, generation, guardAllows, now); var rt := s.runtimes[reg];
            var mine := rt.phase.Starting? && rt.generation == generation;
            && reg in t.runtimes
            && (!mine ==> t == s && reply == Unchanged)
            && (mine && !guardAllows ==>
                  Asks(rt, t.runtimes[reg], Cancelled, map[], false) && OnlyStopping(s, t, reg)
                  && reply == Requested(t.runtimes[reg].pending.value))
            && (mine && guardAllows ==>
                  && reply == Done && t.runtimes[reg] == rt.(phase := Running, activeSince := Some(now))
                  && t.history == s.history + [Change(reg, rt.mission.id, Starting, Running, rt.generation)])
  {
    if s.runtimes[reg].phase.Starting? {
      NoIntentYet(s, reg);
      BeginStoppingAsks(s, reg, Cancelled, map[], false, now);
    }
    hide Inv, Asks, OnlyStopping, BeginStopping;
  }

  // ---------------------------------------------------------------- from the request to the end

  /** The request is finalized: the lock is taken, `stop()` returns, and the intent is committed. */
  function Settled(s: State, reg: Registration, intent: Intent, now: real): State
    requires reg in s.runtimes
  {
    Commit(Cleanup(FinalizeBegin(s, reg, intent, false).0, reg, true).0, reg, now).0
  }

  /** The attempt ended as `phase` with `result`, or goes back to the queue for another one after a delay. */
  ghost predicate EndsAs(s: State, t: State, reg: Registration, intent: Intent, now: real)
    requires reg in s.runtimes
  {
    && reg in t.runtimes
    && var before, after := s.runtimes[reg], t.runtimes[reg];
       && after.pending.None? && after.finalizer.Idle? && after.cleaned
       && after.mission == before.mission && after.generation == before.generation && after.attempt == before.attempt
       && (reg, before.generation) in t.stopReturns
       && if intent.phase.Failed? && intent.retryable && before.attempt < before.mission.attempts && !AtQueueCapacity(s) then
            && after.phase.Queued? && after.queuedAt == Some(now)
            && after.nextRetryAt == Some(now + before.mission.retryDelay)
            && t.history == s.history + [Change(reg, before.mission.id, Stopping, Failed, before.generation),
                                         Change(reg, before.mission.id, Failed, Queued, before.generation)]
          else
            && after.phase == intent.phase
            && after.result == (if intent.phase.Succeeded? then intent.result else before.result)
            && t.history == s.history + [Change(reg, before.mission.id, Stopping, intent.phase, before.generation)]
  }

  lemma CleanupOf(s: State, reg: Registration)
    requires Inv(s) && reg in s.runtimes
    requires var rt := s.runtimes[reg]; rt.phase.Stopping? && rt.pending.Some? && rt.finalizer.Idle? && !rt.cleanupError
    ensures var intent := s.runtimes[reg].pending.value;
            var t := Cleanup(FinalizeBegin(s, reg, intent, false).0, reg, true).0;
            && Inv(t)
            && reg in t.runtimes && t.runtimes[reg] == s.runtimes[reg].(cleaned := true, finalizer := Cleaned(intent))
            && t.queueIndex == s.queueIndex && t.history == s.history && t.registry == s.registry && t.maxQueued == s.maxQueued
            && (reg, s.runtimes[reg].generation) in t.stopReturns
  {
    var intent := s.runtimes[reg].pending.value;
    var locked := FinalizeBegin(s, reg, intent, false).0;
    hide Inv, FinalizeBegin, Cleanup;
    LockKeepsInv(s, reg, intent);
    LockIs(s, reg);
    CleanupKeepsInv(locked, reg, true);
    CleanupIs(locked, reg);
    StopOnRecord(Cleanup(locked, reg, true).0, reg);
  }

  lemma LockKeepsInv(s: State, reg: Registration, intent: Intent)
    requires Inv(s) && reg in s.runtimes
    ensures Inv(FinalizeBegin(s, reg, intent, false).0)
  {
    hide Inv, WorkerBegin, PauseBegin, PauseEnd, ResumeEnd, Complete, Fail, Finish, FinalizeBegin, Cleanup, Commit;
    ExecuteKeepsInv(s, reg, DoFinalizeBegin(intent, false), 0.0);
  }

  lemma LockIs(s: State, reg: Registration)
    requires reg in s.runtimes
    requires var rt := s.runtimes[reg]; rt.pending.Some? && rt.finalizer.Idle? && !rt.cleanupError
    ensures var intent := s.runtimes[reg].pending.value;
            var t := FinalizeBegin(s, reg, intent, false).0;
            && reg in t.runtimes && t.runtimes[reg] == s.runtimes[reg].(finalizer := Cleaning(intent))
            && t.queueIndex == s.queueIndex && t.history == s.history && t.registry == s.registry && t.maxQueued == s.maxQueued
  {
  }

  lemma CleanupIs(s: State, reg: Registration)
    requires reg in s.runtimes && s.runtimes[reg].finalizer.Cleaning?
    ensures var rt := s.runtimes[reg]; var t := Cleanup(s, reg, true).0;
            && reg in t.runtimes
            && t.runtimes[reg] == rt.(cleaned := true, cleanupError := false, finalizer := Cleaned(rt.finalizer.intent))
            && t.queueIndex == s.queueIndex && t.history == s.history && t.registry == s.registry && t.maxQueued == s.maxQueued
  {
  }

  /** Whatever a STOPPING mission's intent says is what comes of it, once `stop()` returns. */
  lemma SettledEndsAs(s: State, reg: Registration, now: real)
    requires Inv(s) && reg in s.runtimes
    requires var rt := s.runtimes[reg]; rt.phase.Stopping? && rt.pending.Some? && rt.finalizer.Idle? && !rt.cleanupError
    ensures EndsAs(s, Settled(s, reg, s.runtimes[reg].pending.value, now), reg, s.runtimes[reg].pending.value, now)
  {
    RecordOk(s, reg);
    CleanupOf(s, reg);
    var intent := s.runtimes[reg].pending.value;
    hide Inv, FinalizeBegin, Cleanup, Attached;
    var t := Cleanup(FinalizeBegin(s, reg, intent, false).0, reg, true).0;
    assert intent.phase.Terminal();
    hide RuntimeOk, Commit, EndsAs;
    CommitEndsAs(t, reg, now);
    RoomIsSame(s, t);
    EndsFromEarlier(s, t, Commit(t, reg, now).0, reg, intent, now);
  }

  lemma EndsFromEarlier(s: State, m: State, t: State, reg: Registration, intent: Intent, now: real)
    requires reg in s.runtimes && reg in m.runtimes && EndsAs(m, t, reg, intent, now)
    requires m.history == s.history && AtQueueCapacity(m) == AtQueueCapacity(s)
    requires m.runtimes[reg] == s.runtimes[reg].(cleaned := m.runtimes[reg].cleaned, finalizer := m.runtimes[reg].finalizer)
    ensures EndsAs(s, t, reg, intent, now)
  {
    hide AtQueueCapacity;
  }

  lemma CommitEndsAs(s: State, reg: Registration, now: real)
    requires reg in s.runtimes && (reg, s.runtimes[reg].generation) in s.stopReturns
    requires var rt := s.runtimes[reg];
             rt.phase.Stopping? && rt.finalizer.Cleaned? && rt.cleaned && rt.pending == Some(rt.finalizer.intent)
             && rt.finalizer.intent.phase.Terminal()
    ensures EndsAs(s, Commit(s, reg, now).0, reg, s.runtimes[reg].finalizer.intent, now)
  {
    var rt := s.runtimes[reg];
    var intent := rt.finalizer.intent;
    var final := Ending(rt, intent, now);
    EndingIs(rt, intent, now);
    assert final.result == (if intent.phase.Succeeded? then intent.result else rt.result) && final.finalizer.Idle? && final.cleaned;
    CommitIs(s, reg, now);
    var s' := Record(s, reg, final);
    RoomIsSame(s, s');
    hide Commit, Ending, AtQueueCapacity;
  }

  /** Completing, and then `stop()` returning, makes the mission SUCCEEDED with that result. */
  lemma CompleteSucceeds(s: State, reg: Registration, result: Payload, now: real, later: real)
    requires Inv(s) && reg in s.runtimes && s.runtimes[reg].phase.Running?
    ensures var asked := Complete(s, reg, result, now);
            && reg in asked.0.runtimes && asked.1.Requested?
            && var t := Settled(asked.0, reg, asked.1.intent, later);
               reg in t.runtimes && t.runtimes[reg].phase.Succeeded? && t.runtimes[reg].result == result
  {
    CompleteAsks(s, reg, result, now);
    NoIntentYet(s, reg);
    RequestKeepsInv(s, reg, result, false, now);
    hide Inv, Complete, Settled;
    SettledEndsAs(Complete(s, reg, result, now).0, reg, later);
  }

  /** Failing, and then `stop()` returning, ends the attempt: FAILED, or back in the queue if it may be tried again. */
  lemma FailFails(s: State, reg: Registration, retryable: bool, now: real, later: real)
    requires Inv(s) && reg in s.runtimes && s.runtimes[reg].phase.Active() && !s.runtimes[reg].phase.Stopping?
    ensures var asked := Fail(s, reg, retryable, now); var rt := s.runtimes[reg];
            && reg in asked.0.runtimes && asked.1.Requested?
            && var t := Settled(asked.0, reg, asked.1.intent, later);
               && reg in t.runtimes
               && if retryable && rt.attempt < rt.mission.attempts && !AtQueueCapacity(s)
                  then t.runtimes[reg].phase.Queued? && t.runtimes[reg].nextRetryAt == Some(later + rt.mission.retryDelay)
                  else t.runtimes[reg].phase.Failed?
  {
    hide Inv, Fail, Settled, AtQueueCapacity;
    FailAsks(s, reg, retryable, now);
    NoIntentYet(s, reg);
    RequestKeepsInv(s, reg, map[], retryable, now);
    IndexWaits(s, reg, retryable, now);
    hide OnlyStopping;
    SettledEndsAs(Fail(s, reg, retryable, now).0, reg, later);
  }

  lemma IndexWaits(s: State, reg: Registration, retryable: bool, now: real)
    requires reg in s.runtimes && s.runtimes[reg].phase.Active() && !s.runtimes[reg].phase.Stopping? && s.runtimes[reg].pending.None?
    ensures AtQueueCapacity(Fail(s, reg, retryable, now).0) == AtQueueCapacity(s)
  {
    RoomIsSame(s, Fail(s, reg, retryable, now).0);
  }

  /** Stopping or cancelling a started mission, and then `stop()` returning, ends it so. */
  lemma FinishEnds(s: State, reg: Registration, terminal: Phase, requester: Option<MissionId>, now: real, later: real)
    requires Inv(s) && reg in s.runtimes && (terminal.Stopped? || terminal.Cancelled?)
    requires Denial(s, requester, s.runtimes[reg].mission).None?
    requires s.runtimes[reg].phase.Active() && !s.runtimes[reg].phase.Stopping?
    ensures var asked := Finish(s, reg, terminal, requester, now);
            && reg in asked.0.runtimes && asked.1.Requested?
            && var t := Settled(asked.0, reg, asked.1.intent, later);
               reg in t.runtimes && t.runtimes[reg].phase == terminal
  {
    FinishAsks(s, reg, terminal, requester, now);
    NoIntentYet(s, reg);
    FinishKeepsInv(s, reg, terminal, requester, now);
    hide Inv, Finish, Settled, Denial;
    SettledEndsAs(Finish(s, reg, terminal, requester, now).0, reg, later);
  }

  /** An attempt whose guard rejects ends as CANCELLED. */
  lemma RejectionCancels(s: State, reg: Registration, now: real, later: real)
    requires Inv(s) && reg in s.runtimes && s.runtimes[reg].phase.Starting?
    ensures var asked := WorkerBegin(s, reg, s.runtimes[reg].generation, false, now);
            && reg in asked.0.runtimes && asked.1.Requested?
            && var t := Settled(asked.0, reg, asked.1.intent, later);
               reg in t.runtimes && t.runtimes[reg].phase.Cancelled?
  {
    WorkerAsks(s, reg, s.runtimes[reg].generation, false, now);
    NoIntentYet(s, reg);
    WorkKeepsInv(s, reg, s.runtimes[reg].generation, false, None, now);
    hide Inv, WorkerBegin, Settled;
    SettledEndsAs(WorkerBegin(s, reg, s.runtimes[reg].generation, false, now).0, reg, later);
  }

  // ---------------------------------------------------------------- the running time

  /** The clock of an attempt starts at zero, runs exactly while it is RUNNING, and never jumps. */
  lemma ClockRunsWhileRunning(rt: Runtime, to: Phase, now: real, later: real)
    requires RuntimeOk(rt) && Allowed(rt.phase, to)
    ensures Elapsed(Advance(rt, to, now), later) ==
            if to.Starting? then 0.0
            else Elapsed(rt, now) + (if to.Running? then later - now else 0.0)
  {
  }
}
