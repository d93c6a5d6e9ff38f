// What the remaining lock sections answer, and what they change (mission/engine.py, mission/lifecycle.py, mission/scheduler.py).

module MissionSections {
  import opened Prelude
  import opened MissionPhases
  import opened MissionState
  import opened MissionSafety
  import opened MissionQueueIndex
  import opened MissionTermination

  // ---------------------------------------------------------------- the phase table

  /** The phase table by where a change leads: from which phases each phase can be entered. */
  lemma EnteredFrom(p: Phase)
    ensures !Allowed(p, Phase.Registered)
    ensures Allowed(p, Queued) <==> !p.Active() && !p.Queued?
    ensures Allowed(p, Starting) <==> !p.Active()
    ensures Allowed(p, Running) <==> p.Starting? || p.Paused?
    ensures Allowed(p, Pausing) <==> p.Running?
    ensures Allowed(p, Paused) <==> p.Pausing?
    ensures Allowed(p, Stopping) <==> p.Active() && !p.Stopping?
    ensures Allowed(p, Stopped) <==> p.Registered? || p.Queued? || p.Stopping?
    ensures Allowed(p, Succeeded) <==> p.Running? || p.Stopping?
    ensures Allowed(p, Failed) <==> !p.Terminal()
    ensures Allowed(p, Cancelled) <==> !p.Succeeded? && !p.Cancelled?
  {
  }

  // ---------------------------------------------------------------- limits and conflicts

  /** In a reachable state there is no room exactly when a limit has been reached. */
  lemma CapacityIsExact(s: State)
    requires Inv(s)
    ensures AtActiveCapacity(s) <==> s.maxActive == Some(|ActiveIds(s)|)
    ensures AtQueueCapacity(s) <==> s.maxQueued == Some(|s.queueIndex|)
  {
  }

  /** Two missions that want the same thing, or one of which does not stand the other. */
  predicate Clash(a: Mission, b: Mission) {
    || (exists r :: r in a.resources && r in b.resources)
    || (exists c :: c in a.blocks && c in b.kind.ancestors)
    || (exists c :: c in b.blocks && c in a.kind.ancestors)
  }

  /** In the way of a mission are exactly the other active missions it clashes with. */
  lemma ConflictsAreClashes(s: State, m: Mission, id: MissionId)
    ensures id in Conflicts(s, m) <==> id != m.id && IsActive(s, id) && Clash(m, Find(s, id).value.mission)
  {
    if IsActive(s, id) {
      var other := Find(s, id).value.mission;
      Intersect(m.resources, other.resources);
      Intersect(m.blocks, other.kind.ancestors);
      Intersect(other.blocks, m.kind.ancestors);
    }
  }

  lemma Intersect(a: set<string>, b: set<string>)
    ensures a * b != {} <==> exists x :: x in a && x in b
  {
    if x :| x in a && x in b {
      assert x in a * b;
    }
    if a * b != {} {
      var x :| x in a * b;
    }
  }

  // ---------------------------------------------------------------- the registry

  /** A mission that waits for its first launch. */
  ghost predicate Untouched(rt: Runtime, m: Mission) {
    && rt.mission == m && rt.phase == Phase.Registered && rt.generation == 0 && rt.attempt == 0
    && rt.result == map[] && !rt.cleaned && !rt.cleanupError && !rt.stopRequested
    && rt.pending.None? && rt.finalizer.Idle? && rt.queuedAt.None? && rt.nextRetryAt.None?
    && rt.activeElapsed == 0.0 && rt.activeSince.None?
  }

  /** Registering is refused exactly for an id that is taken; otherwise the id stands for an untouched new record. */
  lemma RegisterAnswers(s: State, m: Mission)
    requires Inv(s)
    ensures var (t, reply) := Register(s, m);
            && (reply == Refused(AlreadyRegistered) <==> Find(s, m.id).Some?)
            && (reply == Done <==> Find(s, m.id).None?)
            && (reply != Done ==> t == s)
            && (reply == Done ==>
                  && Find(t, m.id).Some? && Untouched(Find(t, m.id).value, m)
                  && (forall id :: id != m.id ==> Find(t, id) == Find(s, id))
                  && (forall reg :: reg in s.runtimes ==> reg in t.runtimes && t.runtimes[reg] == s.runtimes[reg])
                  && t.registry[m.id] !in s.runtimes
                  && t.queueIndex == s.queueIndex && t.history == s.history && t.stopReturns == s.stopReturns)
  {
    RegistrationIsFresh(s);
    if m.id in s.registry {
      RegisteredRecord(s, m.id);
    } else {
      RegisteredElsewhere(s, m);
    }
    hide Inv, Untouched;
  }

  lemma RegisteredElsewhere(s: State, m: Mission)
    requires Inv(s) && m.id !in s.registry
    ensures var t := Register(s, m).0;
            && Find(t, m.id) == Some(NewRuntime(m)) && Untouched(NewRuntime(m), m)
            && forall id :: id != m.id ==> Find(t, id) == Find(s, id)
  {
    InvIsWired(s);
    RegisterSets(s, m);
    hide Inv, AllRuntimesOk;
  }

  /**
   * Unregistering finds nothing, or the registration of another time, or a mission that is active or queued, or
   * removes the mission; only the registry changes.
   */
  lemma UnregisterAnswers(s: State, id: MissionId, seen: Registration)
    requires Inv(s)
    ensures var (t, reply) := Unregister(s, id, seen);
            var same := Find(s, id).Some? && s.registry[id] == seen;
            && (reply == Unchanged <==> Find(s, id).None?)
            && (reply == Refused(RegistrationChanged) <==> Find(s, id).Some? && !same)
            && (reply == Refused(ActiveOrQueued) <==> same && (IsActive(s, id) || IsQueued(s, id)))
            && (reply == Done <==> same && !IsActive(s, id) && !IsQueued(s, id))
            && (reply != Done ==> t == s)
            && (reply == Done ==> Find(t, id).None? && t == s.(registry := t.registry))
            && (forall other :: other != id ==> Find(t, other) == Find(s, other))
  {
    if id in s.registry {
      RegisteredRecord(s, id);
    }
  }

  /** Of the given missions, exactly those that have ended are released; nothing else changes. */
  lemma {:induction false} DiscardReleases(s: State, ids: seq<MissionId>)
    ensures var t := Discard(s, ids);
            && t == s.(registry := t.registry)
            && (forall id :: Find(t, id) ==
                  if id in ids && Find(s, id).Some? && Find(s, id).value.phase.Terminal() then None else Find(s, id))
    decreases |ids|
  {
    if ids != [] {
      assert ids == [ids[0]] + ids[1..];
      var rt := Find(s, ids[0]);
      var u := if rt.Some? && rt.value.phase.Terminal() then s.(registry := s.registry - {ids[0]}) else s;
      assert forall id :: Find(u, id) == if id == ids[0] && rt.Some? && rt.value.phase.Terminal() then None else Find(s, id);
      DiscardReleases(u, ids[1..]);
      hide Find;
    }
  }

  // ---------------------------------------------------------------- pausing and resuming

  /** The record moved from one phase to another, and kept its attempt; nothing else changed. */
  ghost predicate Moves(s: State, t: State, reg: Registration, to: Phase)
    requires reg in s.runtimes
  {
    var rt := s.runtimes[reg];
    && Local(s, t, reg) && reg in t.runtimes && t.queueIndex == s.queueIndex
    && t.runtimes[reg] == rt.(phase := to, activeElapsed := t.runtimes[reg].activeElapsed, activeSince := t.runtimes[reg].activeSince)
    && t.history == s.history + [Change(reg, rt.mission.id, rt.phase, to, rt.generation)]
  }

  lemma MoveMoves(s: State, reg: Registration, to: Phase, now: real)
    requires reg in s.runtimes && s.runtimes[reg].phase.Active() && (to.Running? || to.Pausing? || to.Paused?)
    ensures Moves(s, Move(s, reg, to, now), reg, to)
  {
  }

  /** Pausing needs permission and a running mission; a paused one stays as it is. */
  lemma PauseAnswers(s: State, reg: Registration, requester: Option<MissionId>, now: real)
    requires reg in s.runtimes
    ensures var (t, reply) := PauseBegin(s, reg, requester, now); var rt := s.runtimes[reg];
            var denial := Denial(s, requester, rt.mission);
            && (reply == Done <==> denial.None? && rt.phase.Running?)
            && (reply == Unchanged <==> denial.None? && rt.phase.Paused?)
            && (reply == Refused(BadTransition) <==> denial.None? && !rt.phase.Running? && !rt.phase.Paused?)
            && (denial.Some? ==> reply == Refused(denial.value))
            && (if reply == Done then Moves(s, t, reg, Pausing) else t == s)
  {
    DenialIsNotTransition(s, requester, s.runtimes[reg].mission);
    if s.runtimes[reg].phase.Running? {
      MoveMoves(s, reg, Pausing, now);
    }
    hide Denial, Move, Moves;
  }

  lemma DenialIsNotTransition(s: State, requester: Option<MissionId>, m: Mission)
    ensures Denial(s, requester, m) != Some(BadTransition)
  {
  }

  /** Once the callback has returned, PAUSING becomes PAUSED and PAUSED becomes RUNNING, unless the mission moved on. */
  lemma CallbackAnswers(s: State, reg: Registration, now: real)
    requires reg in s.runtimes
    ensures var (t, reply) := PauseEnd(s, reg, now); var rt := s.runtimes[reg];
            && (reply == Done <==> rt.phase.Pausing?) && (reply == Unchanged <==> !rt.phase.Pausing?)
            && (if reply == Done then Moves(s, t, reg, Paused) else t == s)
    ensures var (t, reply) := ResumeEnd(s, reg, now); var rt := s.runtimes[reg];
            && (reply == Done <==> rt.phase.Paused?) && (reply == Unchanged <==> !rt.phase.Paused?)
            && (if reply == Done then Moves(s, t, reg, Running) && t.runtimes[reg].activeSince == Some(now) else t == s)
  {
    if s.runtimes[reg].phase.Pausing? {
      MoveMoves(s, reg, Paused, now);
    }
    if s.runtimes[reg].phase.Paused? {
      MoveMoves(s, reg, Running, now);
      RunsSince(s, reg, now);
    }
    hide Move, Moves;
  }

  lemma RunsSince(s: State, reg: Registration, now: real)
    requires reg in s.runtimes
    ensures reg in Move(s, reg, Running, now).runtimes && Move(s, reg, Running, now).runtimes[reg].activeSince == Some(now)
  {
  }

  // ---------------------------------------------------------------- finalizing

  /** The terminal lock is taken exactly when it is free, the intent is the pending one, and no failed cleanup bars the way. */
  lemma FinalizeAnswers(s: State, reg: Registration, intent: Intent, retryCleanup: bool)
    requires reg in s.runtimes
    ensures var (t, reply) := FinalizeBegin(s, reg, intent, retryCleanup); var rt := s.runtimes[reg];
            var mine := rt.finalizer.Idle? && rt.pending == Some(intent);
            && (reply == Done <==> mine && (retryCleanup || !rt.cleanupError))
            && (reply == Refused(CleanupFailed) <==> mine && rt.cleanupError && !retryCleanup)
            && (reply == Refused(BadTransition) <==>
                  rt.finalizer.Idle? && rt.pending.Some? && rt.pending != Some(intent) && intent.generation == rt.generation)
            && (reply == Unchanged <==>
                  !rt.finalizer.Idle? || rt.pending.None? || (rt.pending != Some(intent) && intent.generation != rt.generation))
            && (if reply == Done
                then t == s.(runtimes := s.runtimes[reg := rt.(finalizer := Cleaning(intent))])
                else t == s)
  {
  }

  /** `stop()` runs unless it has returned in this generation before, and its return is recorded once. */
  lemma CleanupAnswers(s: State, reg: Registration, stopOk: bool)
    requires reg in s.runtimes
    ensures var (t, reply) := Cleanup(s, reg, stopOk); var rt := s.runtimes[reg];
            && (reply == Unchanged <==> !rt.finalizer.Cleaning?)
            && (reply == Done <==> rt.finalizer.Cleaning? && (rt.cleaned || stopOk))
            && (reply == Refused(CleanupFailed) <==> rt.finalizer.Cleaning? && !rt.cleaned && !stopOk)
            && reg in t.runtimes
            && (reply == Done ==>
                  t.runtimes[reg] == rt.(cleaned := true, cleanupError := false, finalizer := Cleaned(rt.finalizer.intent)))
            && (reply == Refused(CleanupFailed) ==> t.runtimes[reg] == rt.(cleanupError := true, finalizer := Idle))
            && t.stopReturns == (if reply == Done && !rt.cleaned then s.stopReturns + [(reg, rt.generation)] else s.stopReturns)
            && (reply == Unchanged ==> t == s)
            && t == s.(runtimes := t.runtimes, stopReturns := t.stopReturns)
            && (forall r :: r in s.runtimes && r != reg ==> r in t.runtimes && t.runtimes[r] == s.runtimes[r])
  {
  }

  /**
   * A commit takes place exactly for the holder of the terminal lock whose cleanup is done, unless the mission has
   * failed already; it then ends as the intent says, and a failure that may be repeated goes back to the queue.
   */
  lemma CommitAnswers(s: State, reg: Registration, now: real)
    requires Inv(s) && reg in s.runtimes
    ensures var (t, reply) := Commit(s, reg, now); var rt := s.runtimes[reg];
            var commits := rt.finalizer.Cleaned? && !rt.phase.Terminal();
            && reg in t.runtimes
            && (reply == Unchanged <==> !commits)
            && (reply == Retrying <==>
                  && commits && rt.pending.value.phase.Failed? && rt.pending.value.retryable
                  && rt.attempt < rt.mission.attempts && !FullAfter(s, rt))
            && (reply == Done <==> commits && reply != Retrying)
            && (reply == Done ==> t.runtimes[reg].phase == rt.pending.value.phase && t.runtimes[reg].pending.None?)
            && (reply == Retrying ==>
                  && t.runtimes[reg].phase.Queued? && t.runtimes[reg].pending.None?
                  && t.runtimes[reg].queuedAt == Some(now)
                  && t.runtimes[reg].nextRetryAt == Some(now + rt.mission.retryDelay))
            && (reply == Unchanged ==> t == s.(runtimes := s.runtimes[reg := rt.(finalizer := t.runtimes[reg].finalizer)]))
            && (rt.finalizer.Cleaned? ==> t.runtimes[reg].finalizer.Idle?)
  {
    RecordOk(s, reg);
    hide Inv, Attached, Commit, FullAfter;
    var rt := s.runtimes[reg];
    if rt.finalizer.Cleaned? && !rt.phase.Terminal() {
      MayCommit(rt);
      hide RuntimeOk;
      Committed(s, reg, now);
    } else {
      NothingCommitted(s, reg, now);
    }
  }

  lemma MayCommit(rt: Runtime)
    requires RuntimeOk(rt) && rt.finalizer.Cleaned? && !rt.phase.Terminal()
    ensures rt.pending == Some(rt.finalizer.intent) && rt.finalizer.intent.phase.Terminal()
    ensures Allowed(rt.phase, rt.finalizer.intent.phase)
  {
  }

  lemma Committed(s: State, reg: Registration, now: real)
    requires reg in s.runtimes
    requires var rt := s.runtimes[reg];
             && rt.finalizer.Cleaned? && !rt.phase.Terminal() && rt.pending == Some(rt.finalizer.intent)
             && rt.finalizer.intent.phase.Terminal() && Allowed(rt.phase, rt.finalizer.intent.phase)
    ensures var (t, reply) := Commit(s, reg, now); var rt := s.runtimes[reg]; var intent := rt.finalizer.intent;
            && reg in t.runtimes && t.runtimes[reg].pending.None? && t.runtimes[reg].finalizer.Idle?
            && (reply == Done || reply == Retrying)
            && (reply == Retrying <==>
                  intent.phase.Failed? && intent.retryable && rt.attempt < rt.mission.attempts && !FullAfter(s, rt))
            && (reply == Done ==> t.runtimes[reg].phase == intent.phase)
            && (reply == Retrying ==>
                  && t.runtimes[reg].phase.Queued?
                  && t.runtimes[reg].queuedAt == Some(now) && t.runtimes[reg].nextRetryAt == Some(now + rt.mission.retryDelay))
  {
    var rt := s.runtimes[reg];
    var final := Ending(rt, rt.finalizer.intent, now);
    hide Commit, Ending, FullAfter, AtQueueCapacity;
    CommitIs(s, reg, now);
    EndingIs(rt, rt.finalizer.intent, now);
    IdleAfter(rt, rt.finalizer.intent, now);
    FullIs(s, reg, final);
    hide Record, Requeue;
    RequeueIs(Record(s, reg, final), reg, now);
  }

  lemma RequeueIs(s: State, reg: Registration, now: real)
    requires reg in s.runtimes
    ensures var t := Requeue(s, reg, now);
            && reg in t.runtimes && t.runtimes[reg].phase.Queued? && t.runtimes[reg].queuedAt == Some(now)
            && t.runtimes[reg].nextRetryAt == Some(now + s.runtimes[reg].mission.retryDelay)
            && t.runtimes[reg].pending == s.runtimes[reg].pending && t.runtimes[reg].finalizer == s.runtimes[reg].finalizer
  {
  }

  lemma IdleAfter(rt: Runtime, intent: Intent, now: real)
    ensures Ending(rt, intent, now).finalizer.Idle?
  {
  }

  lemma NothingCommitted(s: State, reg: Registration, now: real)
    requires reg in s.runtimes && RuntimeOk(s.runtimes[reg])
    requires !(s.runtimes[reg].finalizer.Cleaned? && !s.runtimes[reg].phase.Terminal())
    ensures var (t, reply) := Commit(s, reg, now); var rt := s.runtimes[reg];
            && reply == Unchanged && reg in t.runtimes
            && t == s.(runtimes := s.runtimes[reg := rt.(finalizer := t.runtimes[reg].finalizer)])
            && (rt.finalizer.Cleaned? ==> t.runtimes[reg].finalizer.Idle?)
  {
    assert s.runtimes[reg := s.runtimes[reg]] == s.runtimes;
  }

  /** There is no room in the queue once the failed mission itself has left it. */
  predicate FullAfter(s: State, rt: Runtime) {
    s.maxQueued.Some? && |if rt.phase.Queued? then s.queueIndex - {rt.mission.id} else s.queueIndex| >= s.maxQueued.value
  }

  lemma FullIs(s: State, reg: Registration, failed: Runtime)
    requires reg in s.runtimes && failed.mission == s.runtimes[reg].mission && failed.phase.Terminal()
    ensures AtQueueCapacity(Record(s, reg, failed)) == FullAfter(s, s.runtimes[reg])
    ensures reg in Record(s, reg, failed).runtimes && Record(s, reg, failed).runtimes[reg] == failed
  {
    var q := if s.runtimes[reg].phase.Queued? then s.queueIndex - {failed.mission.id} else s.queueIndex;
    assert Record(s, reg, failed).queueIndex == q + {} == q;
  }

  // ---------------------------------------------------------------- the time limit of the queue

  /** A queue entry fails exactly if it is still the one that was listed, and has been queued for its limit. */
  lemma ExpireAnswers(s: State, id: MissionId, generation: nat, queuedAt: Option<real>, now: real)
    requires Inv(s)
    ensures var (t, reply) := ExpireQueued(s, id, generation, queuedAt, now);
            var same := IsQueued(s, id) && Find(s, id).value.generation == generation && Find(s, id).value.queuedAt == queuedAt;
            var late := same && Find(s, id).value.mission.queueTimeout.Some?
                        && Find(s, id).value.queuedAt.value + Find(s, id).value.mission.queueTimeout.value <= now;
            && (reply == Unchanged <==> !same)
            && (reply == Done <==> late)
            && (reply == Proceed <==> same && !late)
            && (if reply == Done then
                  && Find(t, id) == Some(Find(s, id).value.(phase := Failed))
                  && (forall other :: other != id ==> Find(t, other) == Find(s, other))
                  && t.queueIndex == s.queueIndex - {id}
                  && t.history == s.history + [Change(s.registry[id], id, Queued, Failed, generation)]
                else t == s)
  {
    if IsQueued(s, id) {
      var reg := s.registry[id];
      RecordOk(s, reg);
      RegisteredRecord(s, id);
      QueuedHasTime(s.runtimes[reg]);
      var failed := Advance(s.runtimes[reg], Failed, now);
      InvIsWired(s);
      hide Inv, AllRuntimesOk, RuntimeOk;
      FailedIs(s.runtimes[reg], now);
      FindEverywhere(s, reg, failed);
      hide Wired, Advance;
      assert forall other :: Find(Record(s, reg, failed), other) == Find(Put(s, reg, failed), other);
    }
  }

  lemma QueuedHasTime(rt: Runtime)
    requires RuntimeOk(rt) && rt.phase.Queued?
    ensures rt.queuedAt.Some? && rt.activeSince.None?
  {
  }

  lemma FailedIs(rt: Runtime, now: real)
    requires rt.phase.Queued?
    ensures Advance(rt, Failed, now) == rt.(phase := Failed)
  {
  }
}
