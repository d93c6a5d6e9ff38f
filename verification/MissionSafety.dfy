// What every run of the mission engine keeps: mutual exclusion, capacity, two-phase
// termination, and a phase history that follows the table.

module MissionSafety {
  import opened Prelude
  import opened MissionPhases
  import opened MissionState

  // ---------------------------------------------------------------- the invariant

  /** Every registered mission has a record of its own. */
  ghost predicate Wired(s: State) {
    && (forall id :: id in s.registry ==> s.registry[id] in s.runtimes && s.runtimes[s.registry[id]].mission.id == id)
    && (forall reg :: reg in s.runtimes ==> reg < s.nextRegistration)
  }

  ghost predicate Attached(s: State, reg: Registration)
    requires reg in s.runtimes
  {
    var id := s.runtimes[reg].mission.id;
    id in s.registry && s.registry[id] == reg
  }

  /** What one record keeps. A started mission holds a terminal intent exactly while it is STOPPING. */
  ghost predicate RuntimeOk(rt: Runtime) {
    && (rt.pending.Some? ==>
          && rt.stopRequested
          && rt.pending.value.generation == rt.generation
          && rt.pending.value.phase.Terminal())
    && (rt.phase.Stopping? ==> rt.pending.Some?)
    && (rt.pending.Some? && !rt.phase.Stopping? ==>
          && rt.pending.value.phase.Failed?
          && (rt.phase.Registered? || rt.phase.Queued? || rt.phase.Failed?))
    && (rt.phase.Active() && !rt.phase.Stopping? ==> !rt.cleaned)
    && (rt.cleanupError ==> rt.pending.Some? && !rt.cleaned)
    && (!rt.finalizer.Idle? ==> rt.pending == Some(rt.finalizer.intent))
    && (rt.finalizer.Cleaned? ==> rt.cleaned)
    && (rt.phase.Queued? ==> rt.queuedAt.Some?)
    && (rt.phase.Running? <==> rt.activeSince.Some?)
  }

  ghost predicate AllRuntimesOk(s: State) {
    forall reg :: reg in s.runtimes ==>
      && RuntimeOk(s.runtimes[reg])
      && (s.runtimes[reg].phase.Active() ==> Attached(s, reg))
  }

  ghost predicate MutuallyExclusive(s: State) {
    forall a, b :: a in ActiveIds(s) && b in ActiveIds(s) && a != b ==>
      !Conflicting(Find(s, a).value.mission, Find(s, b).value.mission)
  }

  ghost predicate WithinCapacity(s: State) {
    && (s.maxActive.Some? ==> |ActiveIds(s)| <= s.maxActive.value)
    && (s.maxQueued.Some? ==> |s.queueIndex| <= s.maxQueued.value)
  }

  /** `cleaned` says exactly that `mission.stop()` returned normally in the current generation. */
  ghost predicate StopsLogged(s: State) {
    && NoDuplicates(s.stopReturns)
    && (forall reg, g :: (reg, g) in s.stopReturns ==> reg in s.runtimes && g <= s.runtimes[reg].generation)
    && (forall reg :: reg in s.runtimes ==>
          (s.runtimes[reg].cleaned <==> (reg, s.runtimes[reg].generation) in s.stopReturns))
  }

  /** Leaving STOPPING needed a normal return of `mission.stop()` in that generation. */
  ghost predicate EndsAfterStop(s: State) {
    forall k :: 0 <= k < |s.history| && s.history[k].from.Stopping? ==>
      (s.history[k].registration, s.history[k].generation) in s.stopReturns
  }

  /** No change leads from an active phase to an inactive one except out of STOPPING. */
  ghost predicate EndsThroughStopping(s: State) {
    forall k :: 0 <= k < |s.history| && s.history[k].from.Active() && !s.history[k].to.Active() ==>
      s.history[k].from.Stopping?
  }

  /** The changes of one record, oldest first. */
  function ChangesOf(h: seq<Change>, reg: Registration): seq<Change> {
    if h == [] then []
    else
      var rest := ChangesOf(h[..|h| - 1], reg);
      if h[|h| - 1].registration == reg then rest + [h[|h| - 1]] else rest
  }

  /** `h` is a connected path from `start` to `end` through the phase table. */
  ghost predicate IsPath(h: seq<Change>, start: Phase, end: Phase) {
    if h == [] then start == end
    else
      var last := h[|h| - 1];
      last.to == end && Allowed(last.from, last.to) && IsPath(h[..|h| - 1], start, last.from)
  }

  ghost predicate HistoriesConnect(s: State) {
    && (forall reg :: reg in s.runtimes ==> IsPath(ChangesOf(s.history, reg), Phase.Registered, s.runtimes[reg].phase))
    && (forall reg :: reg !in s.runtimes ==> ChangesOf(s.history, reg) == [])
    && s.published <= |s.history|
  }

  ghost predicate Inv(s: State) {
    && Wired(s)
    && AllRuntimesOk(s)
    && MutuallyExclusive(s)
    && WithinCapacity(s)
    && StopsLogged(s)
    && EndsAfterStop(s)
    && EndsThroughStopping(s)
    && HistoriesConnect(s)
  }

  // ---------------------------------------------------------------- how one record's change shows

  lemma FindPut(s: State, reg: Registration, rt: Runtime, id: MissionId)
    requires Wired(s) && reg in s.runtimes && rt.mission == s.runtimes[reg].mission
    ensures Wired(Put(s, reg, rt))
    ensures Find(Put(s, reg, rt), id) ==
            if id == rt.mission.id && Attached(s, reg) then Some(rt) else Find(s, id)
  {
  }

  /** The mission a record stands for, if it is registered. */
  ghost function Own(s: State, reg: Registration): set<MissionId>
    requires reg in s.runtimes
  {
    if Attached(s, reg) then {s.runtimes[reg].mission.id} else {}
  }

  /** The active and queued sets after one record changes phase. */
  lemma ActiveAfterPut(s: State, reg: Registration, rt: Runtime)
    requires Wired(s) && reg in s.runtimes && rt.mission == s.runtimes[reg].mission
    ensures ActiveIds(Put(s, reg, rt)) == ActiveIds(s) - Own(s, reg) + (if rt.phase.Active() then Own(s, reg) else {})
    ensures s.runtimes[reg].phase.Active() ==> Own(s, reg) <= ActiveIds(s)
  {
    var s' := Put(s, reg, rt);
    forall id ensures Find(s', id) == if id in Own(s, reg) then Some(rt) else Find(s, id) {
      FindPut(s, reg, rt, id);
    }
  }

  lemma QueuedAfterPut(s: State, reg: Registration, rt: Runtime)
    requires Wired(s) && reg in s.runtimes && rt.mission == s.runtimes[reg].mission
    ensures QueuedIds(Put(s, reg, rt)) == QueuedIds(s) - Own(s, reg) + (if rt.phase.Queued? then Own(s, reg) else {})
    ensures s.runtimes[reg].phase.Queued? ==> Own(s, reg) <= QueuedIds(s)
  {
    var s' := Put(s, reg, rt);
    forall id ensures Find(s', id) == if id in Own(s, reg) then Some(rt) else Find(s, id) {
      FindPut(s, reg, rt, id);
    }
  }

  lemma ChangesOfAppend(h: seq<Change>, c: Change, reg: Registration)
    ensures ChangesOf(h + [c], reg) == if c.registration == reg then ChangesOf(h, reg) + [c] else ChangesOf(h, reg)
  {
    assert (h + [c])[..|h|] == h;
  }

  lemma FindEverywhere(s: State, reg: Registration, rt: Runtime)
    requires Wired(s) && reg in s.runtimes && rt.mission == s.runtimes[reg].mission
    ensures Wired(Put(s, reg, rt))
    ensures forall id :: Find(Put(s, reg, rt), id) ==
                         if id == rt.mission.id && Attached(s, reg) then Some(rt) else Find(s, id)
  {
    forall id ensures Find(Put(s, reg, rt), id) ==
                      if id == rt.mission.id && Attached(s, reg) then Some(rt) else Find(s, id)
    {
      FindPut(s, reg, rt, id);
    }
  }

  /** Replacing a record adds no conflict, unless the mission becomes active beside one. */
  lemma PutKeepsExclusion(s: State, reg: Registration, rt: Runtime)
    requires Wired(s) && MutuallyExclusive(s)
    requires reg in s.runtimes && rt.mission == s.runtimes[reg].mission
    requires rt.phase.Active() && !s.runtimes[reg].phase.Active() ==> Attached(s, reg) && Conflicts(s, rt.mission) == {}
    ensures MutuallyExclusive(Put(s, reg, rt))
  {
    var s' := Put(s, reg, rt);
    var id := rt.mission.id;
    ActiveAfterPut(s, reg, rt);
    FindEverywhere(s, reg, rt);
    forall a, b | a in ActiveIds(s') && b in ActiveIds(s') && a != b
      ensures !Conflicting(Find(s', a).value.mission, Find(s', b).value.mission)
    {
      var ma, mb := Find(s', a).value.mission, Find(s', b).value.mission;
      if a in ActiveIds(s) && b in ActiveIds(s) {
        assert ma == Find(s, a).value.mission && mb == Find(s, b).value.mission;
      } else if a == id {
        assert b in ActiveIds(s) && b !in Conflicts(s, rt.mission);
      } else {
        assert a in ActiveIds(s) && a !in Conflicts(s, rt.mission);
      }
    }
  }

  /** One record's change adds at most its mission to the active set, and only on activation. */
  lemma ActiveGrowth(s: State, reg: Registration, rt: Runtime)
    requires Wired(s) && reg in s.runtimes && rt.mission == s.runtimes[reg].mission
    ensures |ActiveIds(Put(s, reg, rt))| <= |ActiveIds(s)| + 1
    ensures (rt.phase.Active() && !s.runtimes[reg].phase.Active()) || |ActiveIds(Put(s, reg, rt))| <= |ActiveIds(s)|
  {
    ActiveAfterPut(s, reg, rt);
    hide ActiveIds;
    OneMore(ActiveIds(Put(s, reg, rt)), ActiveIds(s), rt.mission.id);
    if !rt.phase.Active() || s.runtimes[reg].phase.Active() {
      SubsetSize(ActiveIds(Put(s, reg, rt)), ActiveIds(s));
    }
  }

  /** Replacing a record keeps the limits, unless the mission becomes active beside a full set. */
  lemma PutKeepsCapacity(s: State, reg: Registration, rt: Runtime)
    requires Wired(s) && WithinCapacity(s)
    requires reg in s.runtimes && rt.mission == s.runtimes[reg].mission
    requires rt.phase.Active() && !s.runtimes[reg].phase.Active() ==> !AtActiveCapacity(s)
    ensures WithinCapacity(Put(s, reg, rt))
  {
    ActiveGrowth(s, reg, rt);
  }

  /** The queue index grows by one at most, and only when a record enters the queue. */
  lemma RecordKeepsCapacity(s: State, reg: Registration, rt: Runtime)
    requires reg in s.runtimes && WithinCapacity(Put(s, reg, rt))
    requires rt.phase.Queued? ==> !AtQueueCapacity(s)
    ensures WithinCapacity(Record(s, reg, rt))
  {
    var s' := Record(s, reg, rt);
    SameRecords(Put(s, reg, rt), s'.(queueIndex := s.queueIndex));
    assert ActiveIds(s') == ActiveIds(s'.(queueIndex := s.queueIndex));
    hide ActiveIds;
    OneMore(s'.queueIndex, s.queueIndex, rt.mission.id);
    if !rt.phase.Queued? {
      SubsetSize(s'.queueIndex, s.queueIndex);
    }
  }

  /** The sets and limits see only the runtimes and the registry. */
  lemma SameRecords(s: State, t: State)
    requires s.runtimes == t.runtimes && s.registry == t.registry
    requires s.maxActive == t.maxActive && s.maxQueued == t.maxQueued
    ensures forall id :: Find(s, id) == Find(t, id)
    ensures ActiveIds(s) == ActiveIds(t) && QueuedIds(s) == QueuedIds(t)
    ensures MutuallyExclusive(s) <==> MutuallyExclusive(t)
    ensures s.queueIndex == t.queueIndex ==> (WithinCapacity(s) <==> WithinCapacity(t))
  {
    assert forall id :: Find(s, id) == Find(t, id);
    assert ActiveIds(s) == ActiveIds(t);
    assert QueuedIds(s) == QueuedIds(t);
  }

  /** A record may be replaced when its phase, attempt and cleanup flag stay. */
  lemma PutKeepsInv(s: State, reg: Registration, rt: Runtime)
    requires Inv(s) && reg in s.runtimes && RuntimeOk(rt)
    requires var old' := s.runtimes[reg];
             rt.mission == old'.mission && rt.phase == old'.phase && rt.generation == old'.generation && rt.cleaned == old'.cleaned
    ensures Inv(Put(s, reg, rt))
  {
    PutKeepsExclusion(s, reg, rt);
    PutKeepsCapacity(s, reg, rt);
  }

  /** What a recorded change must say about `mission.stop()`. */
  ghost predicate MayLog(before: Runtime, after: Runtime) {
    && (if after.phase.Starting? then after.generation == before.generation + 1 && !after.cleaned
        else after.generation == before.generation && after.cleaned == before.cleaned)
    && (before.phase.Active() && !after.phase.Active() ==> before.phase.Stopping?)
    && (before.phase.Stopping? ==> !after.phase.Starting? && before.cleaned)
  }

  /** When a record may enter the phase of `rt`: the table, and what admission checked. */
  ghost predicate MayRecord(s: State, reg: Registration, rt: Runtime)
    requires reg in s.runtimes
  {
    var old' := s.runtimes[reg];
    && rt.mission == old'.mission
    && RuntimeOk(rt)
    && Allowed(old'.phase, rt.phase)
    && MayLog(old', rt)
    && (rt.phase.Active() && !old'.phase.Active() ==>
          Attached(s, reg) && Conflicts(s, rt.mission) == {} && !AtActiveCapacity(s))
    && (rt.phase.Queued? ==> !AtQueueCapacity(s))
  }

  lemma RecordKeepsSafety(s: State, reg: Registration, rt: Runtime)
    requires Inv(s) && reg in s.runtimes && MayRecord(s, reg, rt)
    ensures var s' := Record(s, reg, rt);
            Wired(s') && AllRuntimesOk(s') && MutuallyExclusive(s') && WithinCapacity(s')
  {
    PutKeepsExclusion(s, reg, rt);
    PutKeepsCapacity(s, reg, rt);
    RecordKeepsCapacity(s, reg, rt);
    SameRecords(Put(s, reg, rt), Record(s, reg, rt));
    hide WithinCapacity;
  }

  lemma RecordKeepsHistories(s: State, reg: Registration, rt: Runtime)
    requires HistoriesConnect(s) && reg in s.runtimes
    requires Allowed(s.runtimes[reg].phase, rt.phase)
    ensures HistoriesConnect(Record(s, reg, rt))
  {
    var s' := Record(s, reg, rt);
    var c := Change(reg, rt.mission.id, s.runtimes[reg].phase, rt.phase, rt.generation);
    forall r ensures ChangesOf(s'.history, r) == if r == reg then ChangesOf(s.history, r) + [c] else ChangesOf(s.history, r) {
      ChangesOfAppend(s.history, c, r);
    }
    var mine := ChangesOf(s.history, reg);
    assert (mine + [c])[..|mine|] == mine;
  }

  lemma RecordKeepsStops(s: State, reg: Registration, rt: Runtime)
    requires StopsLogged(s) && reg in s.runtimes && MayLog(s.runtimes[reg], rt)
    ensures StopsLogged(Record(s, reg, rt))
  {
  }

  lemma RecordKeepsEnds(s: State, reg: Registration, rt: Runtime)
    requires StopsLogged(s) && EndsAfterStop(s) && EndsThroughStopping(s)
    requires reg in s.runtimes && MayLog(s.runtimes[reg], rt)
    ensures EndsAfterStop(Record(s, reg, rt)) && EndsThroughStopping(Record(s, reg, rt))
  {
    var s' := Record(s, reg, rt);
    assert forall k :: 0 <= k < |s.history| ==> s'.history[k] == s.history[k];
  }

  lemma RecordKeepsInv(s: State, reg: Registration, rt: Runtime)
    requires Inv(s) && reg in s.runtimes && MayRecord(s, reg, rt)
    ensures Inv(Record(s, reg, rt))
  {
    RecordKeepsSafety(s, reg, rt);
    RecordKeepsHistories(s, reg, rt);
    RecordKeepsStops(s, reg, rt);
    RecordKeepsEnds(s, reg, rt);
  }

  // ---------------------------------------------------------------- every step keeps the invariant

  lemma RecordOk(s: State, reg: Registration)
    requires Inv(s) && reg in s.runtimes
    ensures RuntimeOk(s.runtimes[reg])
    ensures s.runtimes[reg].phase.Active() ==> Attached(s, reg)
    ensures s.published <= |s.history|
  {
  }

  lemma RegisteredRecord(s: State, id: MissionId)
    requires Inv(s) && id in s.registry
    ensures s.registry[id] in s.runtimes && Attached(s, s.registry[id])
  {
  }

  /** Exclusion and capacity depend on nothing but the active missions and the queue index. */
  lemma SameActivity(s: State, t: State)
    requires MutuallyExclusive(s) && WithinCapacity(s)
    requires ActiveIds(s) == ActiveIds(t) && s.queueIndex == t.queueIndex
    requires s.maxActive == t.maxActive && s.maxQueued == t.maxQueued
    requires forall id :: id in ActiveIds(s) ==> Find(s, id) == Find(t, id)
    ensures MutuallyExclusive(t) && WithinCapacity(t)
  {
    forall a, b | a in ActiveIds(t) && b in ActiveIds(t) && a != b
      ensures !Conflicting(Find(t, a).value.mission, Find(t, b).value.mission)
    {
      assert Find(s, a) == Find(t, a) && Find(s, b) == Find(t, b);
    }
  }

  /** A record outside the active and queued phases may leave the registry. */
  lemma ReleaseKeepsInv(s: State, id: MissionId)
    requires Inv(s) && id in s.registry && !IsActive(s, id) && !IsQueued(s, id)
    ensures Inv(s.(registry := s.registry - {id}))
  {
    ReleaseShows(s, id);
    SameActivity(s, s.(registry := s.registry - {id}));
    ReleaseKeepsRecords(s, id);
  }

  lemma ReleaseShows(s: State, id: MissionId)
    requires id in s.registry && !IsActive(s, id) && !IsQueued(s, id)
    ensures var s' := s.(registry := s.registry - {id});
            && ActiveIds(s') == ActiveIds(s)
            && QueuedIds(s') == QueuedIds(s)
            && (forall other :: other != id ==> Find(s', other) == Find(s, other))
  {
    assert forall other :: other != id ==> Find(s.(registry := s.registry - {id}), other) == Find(s, other);
  }

  lemma ReleaseKeepsRecords(s: State, id: MissionId)
    requires Wired(s) && AllRuntimesOk(s) && id in s.registry && !IsActive(s, id)
    ensures Wired(s.(registry := s.registry - {id})) && AllRuntimesOk(s.(registry := s.registry - {id}))
  {
  }

  lemma {:induction false} DiscardKeepsInv(s: State, ids: seq<MissionId>)
    requires Inv(s)
    ensures Inv(Discard(s, ids))
    decreases |ids|
  {
    if ids != [] {
      var rt := Find(s, ids[0]);
      if rt.Some? && rt.value.phase.Terminal() {
        ReleaseKeepsInv(s, ids[0]);
        DiscardKeepsInv(s.(registry := s.registry - {ids[0]}), ids[1..]);
      } else {
        DiscardKeepsInv(s, ids[1..]);
      }
    }
  }

  lemma RegisterKeepsInv(s: State, m: Mission)
    requires Inv(s)
    ensures Inv(Register(s, m).0)
  {
    if m.id !in s.registry {
      RegisterSets(s, m);
      RegisterShows(s, m);
      RegisterKeepsLogs(s, m);
      SameActivity(s, Register(s, m).0);
    }
  }

  lemma RegisterShows(s: State, m: Mission)
    requires Wired(s) && AllRuntimesOk(s) && m.id !in s.registry
    ensures Wired(Register(s, m).0) && AllRuntimesOk(Register(s, m).0)
  {
    var s' := Register(s, m).0;
    forall reg | reg in s.runtimes && s.runtimes[reg].phase.Active() ensures Attached(s', reg) {
      assert Attached(s, reg);
    }
  }

  lemma RegisterSets(s: State, m: Mission)
    requires Wired(s) && m.id !in s.registry
    ensures Wired(Register(s, m).0)
    ensures ActiveIds(Register(s, m).0) == ActiveIds(s)
    ensures QueuedIds(Register(s, m).0) == QueuedIds(s)
    ensures forall id :: id != m.id ==> Find(Register(s, m).0, id) == Find(s, id)
  {
    var s' := Register(s, m).0;
    assert forall id :: id != m.id ==> Find(s', id) == Find(s, id);
    assert Find(s', m.id) == Some(NewRuntime(m)) && Find(s, m.id).None?;
  }

  lemma RegisterKeepsLogs(s: State, m: Mission)
    requires Wired(s) && StopsLogged(s) && HistoriesConnect(s) && m.id !in s.registry
    ensures StopsLogged(Register(s, m).0) && HistoriesConnect(Register(s, m).0)
  {
    assert s.nextRegistration !in s.runtimes;
  }

  lemma MoveKeepsInv(s: State, reg: Registration, to: Phase, now: real)
    requires Inv(s) && reg in s.runtimes && MayRecord(s, reg, Advance(s.runtimes[reg], to, now))
    ensures Inv(Move(s, reg, to, now))
  {
    hide Inv;
    RecordKeepsInv(s, reg, Advance(s.runtimes[reg], to, now));
  }

  lemma ActiveMoveKeepsInv(s: State, reg: Registration, to: Phase, now: real)
    requires Inv(s) && reg in s.runtimes && s.runtimes[reg].phase.Active()
    requires Allowed(s.runtimes[reg].phase, to) && (to.Running? || to.Pausing? || to.Paused?)
    ensures Inv(Move(s, reg, to, now))
  {
    hide Inv;
    RecordOk(s, reg);
    MoveKeepsInv(s, reg, to, now);
  }

  lemma StopEventKeepsInv(s: State, reg: Registration)
    requires Inv(s) && reg in s.runtimes
    ensures Inv(Put(s, reg, s.runtimes[reg].(stopRequested := true)))
  {
    hide Inv;
    RecordOk(s, reg);
    PutKeepsInv(s, reg, s.runtimes[reg].(stopRequested := true));
  }

  lemma EnqueueKeepsInv(s: State, reg: Registration, now: real)
    requires Inv(s) && reg in s.runtimes
    ensures Inv(Enqueue(s, reg, now).0)
  {
    hide Inv;
    RecordOk(s, reg);
    if Enqueue(s, reg, now).1.Done? {
      MoveKeepsInv(s, reg, Queued, now);
    }
  }

  lemma BeginStoppingKeepsInv(s: State, reg: Registration, phase: Phase, result: Payload, retryable: bool, now: real)
    requires Inv(s) && reg in s.runtimes && phase.Terminal()
    ensures Inv(BeginStopping(s, reg, phase, result, retryable, now).0)
  {
    hide Inv;
    RecordOk(s, reg);
    var rt := s.runtimes[reg].(stopRequested := true);
    if !Allowed(rt.phase, Stopping) {
      PutKeepsInv(s, reg, rt);
    } else {
      var stopping := Advance(rt, Stopping, now);
      var intent := Intent(s.nextIntent, stopping.generation, phase, result, retryable);
      RecordKeepsInv(s, reg, stopping.(pending := Some(intent)));
      OtherFields(Record(s, reg, stopping.(pending := Some(intent))), s.nextIntent + 1, s.published);
    }
  }

  /** Intent numbering and publication touch nothing the invariant speaks about. */
  lemma OtherFields(s: State, nextIntent: nat, published: nat)
    requires Inv(s) && published <= |s.history|
    ensures Inv(s.(nextIntent := nextIntent, published := published))
  {
    SameRecords(s, s.(nextIntent := nextIntent, published := published));
  }

  lemma AdmissionKeepsInv(s: State, id: MissionId, requester: Option<MissionId>, now: real)
    requires Inv(s)
    ensures Inv(AdmitFirst(s, id, requester, now).0)
    ensures Inv(AdmitSecond(s, id, now).0)
  {
    hide Inv;
    if Find(s, id).Some? {
      var reg := s.registry[id];
      RecordOk(s, reg);
      RegisteredRecord(s, id);
      EnqueueKeepsInv(s, reg, now);
      var rt := s.runtimes[reg].(stopRequested := false, cleaned := false);
      if Decide(s, rt.mission, true).Start? && rt.pending.None? {
        if Allowed(rt.phase, Starting) {
          RecordKeepsInv(s, reg, Advance(rt, Starting, now));
        } else {
          PutKeepsInv(s, reg, rt);
        }
      }
    }
  }

  lemma WorkKeepsInv(s: State, reg: Registration, generation: nat, guardAllows: bool, requester: Option<MissionId>, now: real)
    requires Inv(s) && reg in s.runtimes
    ensures Inv(WorkerBegin(s, reg, generation, guardAllows, now).0)
    ensures Inv(PauseBegin(s, reg, requester, now).0)
    ensures Inv(PauseEnd(s, reg, now).0)
    ensures Inv(ResumeEnd(s, reg, now).0)
  {
    hide Inv;
    RecordOk(s, reg);
    BeginStoppingKeepsInv(s, reg, Cancelled, map[], false, now);
    if Allowed(s.runtimes[reg].phase, Pausing) {
      MoveKeepsInv(s, reg, Pausing, now);
    }
    if s.runtimes[reg].phase.Pausing? {
      MoveKeepsInv(s, reg, Paused, now);
    }
    if s.runtimes[reg].phase.Starting? || s.runtimes[reg].phase.Paused? {
      MoveKeepsInv(s, reg, Running, now);
    }
  }

  lemma RequestKeepsInv(s: State, reg: Registration, result: Payload, retryable: bool, now: real)
    requires Inv(s) && reg in s.runtimes
    ensures Inv(Complete(s, reg, result, now).0)
    ensures Inv(Fail(s, reg, retryable, now).0)
  {
    hide Inv;
    RecordOk(s, reg);
    var rt := s.runtimes[reg];
    BeginStoppingKeepsInv(s, reg, Succeeded, result, false, now);
    BeginStoppingKeepsInv(s, reg, Failed, map[], retryable, now);
    if rt.pending.Some? {
      PutKeepsInv(s, reg, rt.(stopRequested := true));
    } else if rt.phase.Registered? || rt.phase.Queued? {
      var intent := Intent(s.nextIntent, rt.generation, Failed, map[], retryable);
      var asked := rt.(stopRequested := true, pending := Some(intent));
      PutKeepsInv(s, reg, asked);
      OtherFields(Put(s, reg, asked), s.nextIntent + 1, s.published);
    }
  }

  lemma FinishKeepsInv(s: State, reg: Registration, terminal: Phase, requester: Option<MissionId>, now: real)
    requires Inv(s) && reg in s.runtimes && (terminal.Stopped? || terminal.Cancelled?)
    ensures Inv(Finish(s, reg, terminal, requester, now).0)
  {
    hide Inv;
    RecordOk(s, reg);
    var rt := s.runtimes[reg];
    BeginStoppingKeepsInv(s, reg, terminal, map[], false, now);
    if rt.pending.Some? {
      PutKeepsInv(s, reg, rt.(stopRequested := true));
    } else if rt.phase.Registered? || rt.phase.Queued? {
      RecordKeepsInv(s, reg, Advance(rt.(stopRequested := true), terminal, now));
    }
  }

  lemma CleanupKeepsInv(s: State, reg: Registration, stopOk: bool)
    requires Inv(s) && reg in s.runtimes
    ensures Inv(Cleanup(s, reg, stopOk).0)
  {
    hide Inv;
    RecordOk(s, reg);
    var rt := s.runtimes[reg];
    if !rt.finalizer.Cleaning? {
    } else if rt.cleaned || !stopOk {
      PutKeepsInv(s, reg, if rt.cleaned then rt.(cleanupError := false, finalizer := Cleaned(rt.finalizer.intent))
                          else rt.(cleanupError := true, finalizer := Idle));
    } else {
      StopReturnKeepsInv(s, reg);
    }
  }

  /** The case in which `mission.stop()` returns: the one moment the cleanup flag is set. */
  lemma StopReturnKeepsInv(s: State, reg: Registration)
    requires Inv(s) && reg in s.runtimes && s.runtimes[reg].finalizer.Cleaning? && !s.runtimes[reg].cleaned
    ensures Inv(Cleanup(s, reg, true).0)
  {
    var rt := s.runtimes[reg];
    var after := rt.(cleaned := true, cleanupError := false, finalizer := Cleaned(rt.finalizer.intent));
    PutKeepsExclusion(s, reg, after);
    PutKeepsCapacity(s, reg, after);
    SameRecords(Put(s, reg, after), Cleanup(s, reg, true).0);
    StopReturnLogged(s, reg);
    StopReturnKeepsRecords(s, reg);
    hide MutuallyExclusive, WithinCapacity, StopsLogged, AllRuntimesOk, Wired;
  }

  lemma StopReturnKeepsRecords(s: State, reg: Registration)
    requires Wired(s) && AllRuntimesOk(s)
    requires reg in s.runtimes && s.runtimes[reg].finalizer.Cleaning? && !s.runtimes[reg].cleaned
    ensures Wired(Cleanup(s, reg, true).0) && AllRuntimesOk(Cleanup(s, reg, true).0)
  {
  }

  lemma StopReturnLogged(s: State, reg: Registration)
    requires StopsLogged(s)
    requires reg in s.runtimes && s.runtimes[reg].finalizer.Cleaning? && !s.runtimes[reg].cleaned
    ensures StopsLogged(Cleanup(s, reg, true).0)
  {
  }

  lemma CommitKeepsInv(s: State, reg: Registration, now: real)
    requires Inv(s) && reg in s.runtimes
    ensures Inv(Commit(s, reg, now).0)
  {
    hide Inv;
    RecordOk(s, reg);
    var rt := s.runtimes[reg];
    if rt.finalizer.Cleaned? {
      var intent := rt.finalizer.intent;
      var released := rt.(finalizer := Idle);
      if rt.phase.Terminal() || !Allowed(rt.phase, intent.phase) {
        PutKeepsInv(s, reg, released);
      } else {
        var ended := Advance(released, intent.phase, now).(pending := None);
        var final := if intent.phase.Succeeded? then ended.(result := intent.result) else ended;
        RecordKeepsInv(s, reg, final);
        var s' := Record(s, reg, final);
        if intent.phase.Failed? && WillRetry(s', ended, intent) {
          RequeueKeepsInv(s', reg, now);
        }
        hide Record, Requeue, Advance;
      }
    }
  }

  lemma RequeueKeepsInv(s: State, reg: Registration, now: real)
    requires Inv(s) && reg in s.runtimes && s.runtimes[reg].phase.Failed? && s.runtimes[reg].pending.None? && !AtQueueCapacity(s)
    ensures Inv(Requeue(s, reg, now))
  {
    hide Inv;
    RecordOk(s, reg);
    var rt := s.runtimes[reg];
    RecordKeepsInv(s, reg, Advance(rt, Queued, now).(nextRetryAt := Some(now + rt.mission.retryDelay)));
  }

  lemma ExpiryKeepsInv(s: State, id: MissionId, generation: nat, queuedAt: Option<real>, now: real)
    requires Inv(s)
    ensures Inv(ExpireQueued(s, id, generation, queuedAt, now).0)
  {
    hide Inv;
    if ExpireQueued(s, id, generation, queuedAt, now).1.Done? {
      RecordOk(s, s.registry[id]);
      MoveKeepsInv(s, s.registry[id], Failed, now);
    }
  }

  lemma StepKeepsInv(s: State, e: Step)
    requires Inv(s)
    ensures Inv(Apply(s, e))
  {
    hide Inv;
    match e
    case DoRegister(m) => RegisterKeepsInv(s, m);
    case DoUnregister(id, seen) =>
      if Unregister(s, id, seen).1.Done? {
        ReleaseKeepsInv(s, id);
      }
    case DoDiscard(ids) => DiscardKeepsInv(s, ids);
    case DoAdmitFirst(id, requester, now) => AdmissionKeepsInv(s, id, requester, now);
    case DoAdmitSecond(id, now) => AdmissionKeepsInv(s, id, None, now);
    case DoExpire(id, generation, queuedAt, now) => ExpiryKeepsInv(s, id, generation, queuedAt, now);
    case DoPublish =>
      if s.published < |s.history| {
        OtherFields(s, s.nextIntent, s.published + 1);
      }
    case On(reg, c, now) =>
      if reg in s.runtimes {
        ExecuteKeepsInv(s, reg, c, now);
      }
  }

  lemma ExecuteKeepsInv(s: State, reg: Registration, c: Command, now: real)
    requires Inv(s) && reg in s.runtimes
    ensures Inv(Execute(s, reg, c, now).0)
  {
    hide Inv;
    RecordOk(s, reg);
    match c
    case DoWorkerBegin(generation, guardAllows) => WorkKeepsInv(s, reg, generation, guardAllows, None, now);
    case DoPauseBegin(requester) => WorkKeepsInv(s, reg, 0, true, requester, now);
    case DoPauseEnd => WorkKeepsInv(s, reg, 0, true, None, now);
    case DoResumeEnd => WorkKeepsInv(s, reg, 0, true, None, now);
    case DoComplete(result) => RequestKeepsInv(s, reg, result, false, now);
    case DoFail(retryable) => RequestKeepsInv(s, reg, map[], retryable, now);
    case DoStop(requester) => FinishKeepsInv(s, reg, Stopped, requester, now);
    case DoCancel(requester) => FinishKeepsInv(s, reg, Cancelled, requester, now);
    case DoFinalizeBegin(intent, retryCleanup) =>
      if FinalizeBegin(s, reg, intent, retryCleanup).1.Done? {
        PutKeepsInv(s, reg, s.runtimes[reg].(finalizer := Cleaning(intent)));
      }
    case DoCleanup(stopOk) => CleanupKeepsInv(s, reg, stopOk);
    case DoCommit => CommitKeepsInv(s, reg, now);
  }
}
