// One pass of the scheduler over the queue (mission/scheduler.py).

module MissionPromotion {
  import opened Prelude
  import opened MissionPhases
  import opened MissionState
  import opened MissionSafety
  import opened MissionPreemption
  import opened MissionQueueIndex

  // ---------------------------------------------------------------- the pass

  /** Smaller priority numbers first, then the longer wait. */
  predicate Precedes(a: Runtime, b: Runtime) {
    || a.mission.priority < b.mission.priority
    || (a.mission.priority == b.mission.priority
        && (b.queuedAt.None? || (a.queuedAt.Some? && a.queuedAt.value <= b.queuedAt.value)))
  }

  /** Every mission in the queue index is registered. */
  predicate Listable(s: State) {
    forall id :: id in s.queueIndex ==> Find(s, id).Some?
  }

  /** The queue index, sorted by what the records say; equal keys may come in any order. */
  ghost predicate QueueOrder(s: State, order: seq<MissionId>) {
    && (forall id :: id in order <==> id in s.queueIndex)
    && Sorted(s, order)
  }

  ghost predicate Sorted(s: State, order: seq<MissionId>) {
    && NoDuplicates(order)
    && (forall id :: id in order ==> Find(s, id).Some?)
    && (forall i, j :: 0 <= i < j < |order| ==> Precedes(Find(s, order[i]).value, Find(s, order[j]).value))
  }

  /** In a listing, a more important mission comes before a less important one, and of two equal ones the one queued earlier. */
  lemma ListedInOrder(s: State, order: seq<MissionId>, a: MissionId, b: MissionId)
    requires QueueOrder(s, order) && a in order && b in order
    requires var x, y := Find(s, a).value, Find(s, b).value;
             || x.mission.priority < y.mission.priority
             || (x.mission.priority == y.mission.priority && x.queuedAt.Some?
                 && (y.queuedAt.None? || x.queuedAt.value < y.queuedAt.value))
    ensures exists i, j :: 0 <= i < j < |order| && order[i] == a && order[j] == b
  {
    var i :| 0 <= i < |order| && order[i] == a;
    var j :| 0 <= j < |order| && order[j] == b;
    assert i < j;
  }

  predicate Due(rt: Runtime, now: real) {
    rt.nextRetryAt.None? || rt.nextRetryAt.value <= now
  }

  /** What lies outside the engine: the order in which a set is iterated, and what stopping a mission does. */
  datatype World = World(iterate: set<MissionId> -> seq<MissionId>, outcome: MissionId -> StopOutcome)

  ghost predicate Iterates(w: World) {
    forall ids: set<MissionId> :: NoDuplicates(w.iterate(ids)) && Members(w.iterate(ids)) == ids
  }

  /** The second half of a launch; the flag says that it did not raise. */
  function LaunchSecond(s: State, id: MissionId, now: real): (State, bool) {
    var second := AdmitSecond(s, id, now);
    (second.0, second.1.Done?)
  }

  /**
   * Launches one queued mission, after stopping those in its way if it may. A conflict is no reason to
   * end the pass; a leftover intent, or a mission that cannot be stopped, raises and ends it.
   */
  function Launch(s: State, id: MissionId, now: real, w: World): (State, bool) {
    var first := AdmitFirst(s, id, None, now);
    if first.1.Preempt? then
      var stopped := StopAll(first.0, w.iterate(first.1.ids), w.outcome, now);
      if stopped.1 then LaunchSecond(stopped.0, id, now) else stopped
    else if first.1.Proceed? then LaunchSecond(first.0, id, now)
    else (first.0, true)
  }

  /** One queue entry, listed as `seen`: skipped if it changed, expired, left for later, or launched. */
  function PromoteEntry(s: State, id: MissionId, seen: Runtime, now: real, w: World): (State, bool) {
    var expiry := ExpireQueued(s, id, seen.generation, seen.queuedAt, now);
    if !expiry.1.Proceed? then (expiry.0, true)
    else if !Due(Find(s, id).value, now) then (s, true)
    else Launch(s, id, now, w)
  }

  /** The pass over `order`, as listed in `s`; the flag says that nothing raised. */
  function Promote(s: State, order: seq<MissionId>, now: real, w: World): (State, bool)
    requires forall id :: id in order ==> Find(s, id).Some?
    decreases |order|
  {
    if order == [] then (s, true)
    else
      var id := order[|order| - 1];
      assert id in order;
      var before := Promote(s, order[..|order| - 1], now, w);
      if before.1 then PromoteEntry(before.0, id, Find(s, id).value, now, w) else before
  }

  /** A pass: it raises at once if the queue index holds a mission that is not registered. */
  ghost function Pass(s: State, order: seq<MissionId>, now: real, w: World): (State, bool)
    requires Listable(s) ==> QueueOrder(s, order)
  {
    if Listable(s) then Promote(s, order, now, w) else (s, false)
  }

  // ---------------------------------------------------------------- admission is antitone

  /** Same missions, same successes, and no mission stopped being active. */
  ghost predicate OnlyStarts(s: State, t: State) {
    && t.registry == s.registry
    && t.maxActive == s.maxActive
    && (forall id :: Find(s, id).Some? <==> Find(t, id).Some?)
    && (forall id :: Find(s, id).Some? ==>
          && Find(t, id).value.mission == Find(s, id).value.mission
          && (Find(s, id).value.phase.Active() ==> Find(t, id).value.phase.Active())
          && (Find(s, id).value.phase.Succeeded? <==> Find(t, id).value.phase.Succeeded?))
  }

  /** The more is active, the less is admissible. */
  lemma AdmissionIsAntitone(s: State, t: State, m: Mission)
    requires OnlyStarts(s, t) && Admissible(t, m)
    ensures Admissible(s, m)
  {
    forall id | id in Conflicts(s, m) ensures id in Conflicts(t, m) {
    }
    assert ActiveIds(s) <= ActiveIds(t) by {
      forall id | id in ActiveIds(s) ensures id in ActiveIds(t) {
      }
    }
    SubsetSize(ActiveIds(s), ActiveIds(t));
    forall r | PrerequisiteMet(t, r) ensures PrerequisiteMet(s, r) {
      var id :| id in t.registry && IsSucceeded(t, id) && r in Find(t, id).value.mission.kind.ancestors;
      assert IsSucceeded(s, id);
    }
    assert forall r :: r in MissingPrerequisitesOf(s, m) ==> r in MissingPrerequisitesOf(t, m);
  }

  /**
   * The second admission pass begins a new attempt exactly when nothing stands in the mission's way:
   * prerequisites, conflicts, capacity, an intent left over, or its own phase.
   */
  lemma StartsIffAdmissible(s: State, id: MissionId, now: real)
    requires Find(s, id).Some? && Find(s, id).value.mission.id == id
    ensures var rt := Find(s, id).value; var after := AdmitSecond(s, id, now).0;
            && Find(after, id).Some?
            && (Find(after, id).value.generation == rt.generation + 1 <==>
                  Admissible(s, rt.mission) && rt.pending.None? && Allowed(rt.phase, Starting))
  {
    hide Conflicts, MissingPrerequisitesOf, AtActiveCapacity, AtQueueCapacity, AllLower;
  }

  /** Preemption names exactly the conflicting missions, all of strictly lower priority. */
  lemma PreemptsOnlyLower(s: State, id: MissionId, requester: Option<MissionId>, now: real, ids: set<MissionId>)
    requires AdmitFirst(s, id, requester, now).1 == Preempt(ids) || AdmitSecond(s, id, now).1 == Preempt(ids)
    ensures Find(s, id).Some?
    ensures var m := Find(s, id).value.mission;
            && m.conflictPolicy.PreemptLower?
            && ids == Conflicts(s, m) != {}
            && forall other :: other in ids ==> IsActive(s, other) && m.priority < Find(s, other).value.mission.priority
  {
    hide MissingPrerequisitesOf, AtActiveCapacity, AtQueueCapacity, Advance;
  }

  // ---------------------------------------------------------------- when an entry interrupts the pass

  /** A launch of `m` would stop the missions in its way. */
  predicate MayPreempt(s: State, m: Mission) {
    && MissingPrerequisitesOf(s, m) == {}
    && Conflicts(s, m) != {}
    && m.conflictPolicy.PreemptLower?
    && AllLower(s, m, Conflicts(s, m))
  }

  /** A due mission that nothing else keeps from starting still holds an intent from before. */
  ghost predicate LeftoverBlocks(s: State, id: MissionId, now: real) {
    && IsQueued(s, id)
    && var rt := Find(s, id).value;
       !QueueTimedOut(rt, now) && Due(rt, now) && Admissible(s, rt.mission) && rt.pending.Some?
  }

  /** A due mission has to preempt, and holds an old intent itself or cannot stop some other mission. */
  ghost predicate PreemptionFails(s: State, id: MissionId, now: real, w: World) {
    && IsQueued(s, id)
    && var rt := Find(s, id).value;
       && !QueueTimedOut(rt, now) && Due(rt, now) && MayPreempt(s, rt.mission)
       && (rt.pending.Some? || exists v :: v in Conflicts(s, rt.mission) && !Yields(Find(s, v).value, w.outcome(v)))
  }

  lemma ConflictsAreActive(s: State, m: Mission)
    ensures forall v :: v in Conflicts(s, m) ==> IsActive(s, v) && v != m.id
  {
  }

  lemma WiredInside(s: State)
    requires Inv(s)
    ensures Wired(s) && WithinCapacity(s)
  {
  }

  lemma RoomAfterStops(s: State, t: State, ids: set<MissionId>)
    requires WithinCapacity(s) && StopsOnly(s, t, ids) && ids != {}
    requires forall v :: v in ids ==> IsActive(s, v) && Find(t, v).Some? && Find(t, v).value.phase.Stopped?
    ensures !AtActiveCapacity(t)
  {
    forall id ensures id in ActiveIds(t) <==> id in ActiveIds(s) && id !in ids {
      assert id !in ids ==> Find(t, id) == Find(s, id);
    }
    SubsetSize(ActiveIds(t), ActiveIds(s));
    var v :| v in ids;
    assert v in ActiveIds(s) && v !in ActiveIds(t);
  }

  /** Once every mission in the way is stopped, nothing keeps a launch from starting. */
  lemma StoppedMakesRoom(s: State, t: State, m: Mission)
    requires WithinCapacity(s) && MayPreempt(s, m) && StopsOnly(s, t, Conflicts(s, m))
    requires forall v :: v in Conflicts(s, m) ==> Find(t, v).Some? && Find(t, v).value.phase.Stopped?
    ensures Admissible(t, m)
  {
    ConflictsAreActive(s, m);
    RoomAfterStops(s, t, Conflicts(s, m));
    forall v ensures v !in Conflicts(t, m) {
      assert v !in Conflicts(s, m) ==> Find(t, v) == Find(s, v);
    }
    forall r | r in m.prerequisites ensures PrerequisiteMet(t, r) {
      assert r !in MissingPrerequisitesOf(s, m);
      var id :| id in s.registry && IsSucceeded(s, id) && r in Find(s, id).value.mission.kind.ancestors;
      assert id !in Conflicts(s, m);
      assert IsSucceeded(t, id);
    }
    assert MissingPrerequisitesOf(t, m) == {};
  }

  lemma SecondDoes(s: State, id: MissionId, now: real)
    requires Inv(s) && IsQueued(s, id) && Admissible(s, Find(s, id).value.mission)
    ensures LaunchSecond(s, id, now).1 <==> Find(s, id).value.pending.None?
    ensures LaunchSecond(s, id, now).1 ==> exists next :: Became(s, id, LaunchSecond(s, id, now).0, Starting, next)
    ensures !LaunchSecond(s, id, now).1 ==> LaunchSecond(s, id, now).0 == s
    ensures Inv(LaunchSecond(s, id, now).0)
  {
    AdmissionKeepsInv(s, id, None, now);
    hide Inv, Advance, Conflicts, MissingPrerequisitesOf, AtActiveCapacity;
    var rt := Find(s, id).value;
    var next := Advance(rt.(stopRequested := false, cleaned := false), Starting, now);
    AdvanceSets(rt.(stopRequested := false, cleaned := false), Starting, now);
    if rt.pending.None? {
      assert Became(s, id, LaunchSecond(s, id, now).0, Starting, next);
    }
  }

  lemma AdvanceSets(rt: Runtime, to: Phase, now: real)
    ensures Advance(rt, to, now).phase == to && Advance(rt, to, now).mission == rt.mission
  {
  }

  /** The record of `id` moved on from the queue, and nothing else happened. */
  ghost predicate Became(s: State, id: MissionId, t: State, phase: Phase, next: Runtime)
    requires IsQueued(s, id)
  {
    && (phase.Failed? || phase.Starting?)
    && next.phase == phase
    && next.mission == Find(s, id).value.mission
    && t == Record(s, s.registry[id], next)
  }

  /** What the first pass of a launch decides about a queued mission. */
  lemma FirstDecides(s: State, id: MissionId, now: real)
    requires IsQueued(s, id)
    ensures var m := Find(s, id).value.mission; var first := AdmitFirst(s, id, None, now);
            && first.0 == s
            && (first.1.Preempt? <==> MayPreempt(s, m))
            && (first.1.Preempt? ==> first.1.ids == Conflicts(s, m))
            && (first.1.Proceed? <==> Admissible(s, m))
  {
    hide Conflicts, MissingPrerequisitesOf, AtActiveCapacity, AtQueueCapacity, AllLower;
  }

  // ---------------------------------------------------------------- one entry

  /** What handling one queued mission may do: to itself, to the missions it preempts, to the history. */
  ghost predicate EntryHandled(s: State, id: MissionId, t: State) {
    && Find(s, id).Some?
    && t.registry == s.registry && t.maxActive == s.maxActive && t.maxQueued == s.maxQueued
    && (Find(t, id) == Find(s, id) || Left(s, t, id))
    && (forall x :: x != id ==> Find(t, x) == Find(s, x) || Preempted(s, id, t, x))
    && s.history <= t.history
    && (forall k :: |s.history| <= k < |t.history| ==> EntryChange(s, id, t.history[k]))
    && (forall k :: |s.history| <= k < |t.history| - 1 ==> !t.history[k].from.Queued?)
  }

  /** The mission left the queue: it expired or was started. */
  ghost predicate Left(s: State, t: State, id: MissionId) {
    && Find(s, id).Some? && Find(t, id).Some?
    && Find(t, id).value.mission == Find(s, id).value.mission
    && (Find(t, id).value.phase.Failed? || Find(t, id).value.phase.Starting?)
  }

  /** `x` was told to stop to make room for `id`, whose priority is strictly higher. */
  ghost predicate Preempted(s: State, id: MissionId, t: State, x: MissionId) {
    && Find(s, id).Some?
    && SameOrStopped(Find(s, x), Find(t, x))
    && Find(s, id).value.mission.priority < Find(s, x).value.mission.priority
  }

  ghost predicate EntryChange(s: State, id: MissionId, c: Change) {
    if c.from.Queued? then c.mission == id && (c.to.Failed? || c.to.Starting?)
    else
      && c.from.Active() && (c.to.Stopping? || c.to.Stopped?)
      && Find(s, id).Some? && IsActive(s, c.mission)
      && Find(s, id).value.mission.priority < Find(s, c.mission).value.mission.priority
  }

  /** Whatever else is active was not touched: a mission told to stop did stop. */
  ghost predicate OthersSettled(s: State, id: MissionId, t: State) {
    forall x :: x != id && IsActive(t, x) ==> Find(t, x) == Find(s, x)
  }

  lemma BecameHandled(s: State, id: MissionId, t: State, phase: Phase, next: Runtime)
    requires Wired(s) && IsQueued(s, id) && Became(s, id, t, phase, next)
    ensures EntryHandled(s, id, t) && Left(s, t, id) && OthersSettled(s, id, t)
  {
    assert Find(t, id) == Some(next);
    assert forall x :: x != id ==> Find(t, x) == Find(s, x);
  }

  /** Stops before the mission's own change. */
  lemma StopsThenHandled(s: State, id: MissionId, u: State, t: State)
    requires IsQueued(s, id) && MayPreempt(s, Find(s, id).value.mission)
    requires Find(s, id).value.mission.id == id
    requires StopsOnly(s, u, Conflicts(s, Find(s, id).value.mission))
    requires t == u || exists phase, next :: IsQueued(u, id) && Wired(u) && Became(u, id, t, phase, next)
    ensures EntryHandled(s, id, t)
    ensures t != u ==> Left(s, t, id)
    ensures Find(u, id) == Find(s, id)
  {
    var ids := Conflicts(s, Find(s, id).value.mission);
    ConflictsAreActive(s, Find(s, id).value.mission);
    assert id !in ids;
    assert Find(u, id) == Find(s, id);
    hide Conflicts, MissingPrerequisitesOf;
    if t != u {
      var phase, next :| IsQueued(u, id) && Wired(u) && Became(u, id, t, phase, next);
      BecameFinds(u, id, t, phase, next);
    }
    hide Wired, Became;
    forall x | x != id ensures Find(t, x) == Find(s, x) || Preempted(s, id, t, x) {
      assert Find(t, x) == Find(u, x);
      assert x !in ids ==> Find(u, x) == Find(s, x);
    }
    forall k | |s.history| <= k < |t.history|
      ensures EntryChange(s, id, t.history[k]) && (k < |t.history| - 1 ==> !t.history[k].from.Queued?)
    {
      if k < |u.history| {
        assert t.history[k] == u.history[k];
        assert StoppingChange(u.history[k], ids);
      }
    }
  }

  lemma BecameFinds(s: State, id: MissionId, t: State, phase: Phase, next: Runtime)
    requires Wired(s) && IsQueued(s, id) && Became(s, id, t, phase, next)
    ensures Left(s, t, id)
    ensures t.registry == s.registry && t.maxActive == s.maxActive && t.maxQueued == s.maxQueued
    ensures forall x :: x != id ==> Find(t, x) == Find(s, x)
    ensures |t.history| == |s.history| + 1 && s.history <= t.history
    ensures t.history[|s.history|].mission == id && t.history[|s.history|].from.Queued?
    ensures t.history[|s.history|].to.Failed? || t.history[|s.history|].to.Starting?
  {
    assert Find(t, id) == Some(next);
  }

  /**
   * A launch from the queue stops exactly when the mission may start, or preempt, and holds a leftover
   * intent, or when a mission in its way cannot be stopped.
   */
  lemma LaunchDoes(s: State, id: MissionId, now: real, w: World)
    requires Inv(s) && IsQueued(s, id) && Iterates(w) && !QueueTimedOut(Find(s, id).value, now) && Due(Find(s, id).value, now)
    ensures var done := Launch(s, id, now, w);
            && Inv(done.0) && EntryHandled(s, id, done.0)
            && (!done.1 <==> LeftoverBlocks(s, id, now) || PreemptionFails(s, id, now, w))
            && (LeftoverBlocks(s, id, now) ==> done.0 == s)
            && (done.1 && !Left(s, done.0, id) ==> done.0 == s && !Admissible(s, Find(s, id).value.mission))
            && (done.1 ==> OthersSettled(s, id, done.0))
  {
    hide Inv, QueueTimedOut, Admissible, MayPreempt, EntryHandled, Became, Left, Yields, OthersSettled;
    WiredInside(s);
    RegisteredRecord(s, id);
    FirstDecides(s, id, now);
    var m := Find(s, id).value.mission;
    if Admissible(s, m) {
      AdmissibleIsFree(s, m);
      SecondDoes(s, id, now);
      if Find(s, id).value.pending.None? {
        var next :| Became(s, id, LaunchSecond(s, id, now).0, Starting, next);
        BecameHandled(s, id, LaunchSecond(s, id, now).0, Starting, next);
      } else {
        NothingHandled(s, id);
      }
    } else if MayPreempt(s, m) {
      PreemptingLaunchDoes(s, id, now, w);
    } else {
      NothingHandled(s, id);
    }
  }

  lemma AdmissibleIsFree(s: State, m: Mission)
    requires Admissible(s, m)
    ensures !MayPreempt(s, m)
  {
    hide Conflicts, MissingPrerequisitesOf;
  }

  lemma NothingHandled(s: State, id: MissionId)
    requires IsQueued(s, id)
    ensures EntryHandled(s, id, s) && !Left(s, s, id) && OthersSettled(s, id, s)
  {
  }

  lemma PreemptingLaunchDoes(s: State, id: MissionId, now: real, w: World)
    requires Inv(s) && IsQueued(s, id) && Iterates(w) && MayPreempt(s, Find(s, id).value.mission)
    ensures var done := Launch(s, id, now, w); var rt := Find(s, id).value;
            && Inv(done.0) && EntryHandled(s, id, done.0)
            && (!done.1 <==> rt.pending.Some? || exists v :: v in Conflicts(s, rt.mission) && !Yields(Find(s, v).value, w.outcome(v)))
            && (done.1 ==> Left(s, done.0, id) && OthersSettled(s, id, done.0))
  {
    hide Inv, MayPreempt, EntryHandled, Became, Left, Yields, StopAll, AdmitFirst, LaunchSecond;
    WiredInside(s);
    RegisteredRecord(s, id);
    FirstDecides(s, id, now);
    var rt := Find(s, id).value;
    var ids := Conflicts(s, rt.mission);
    var victims := w.iterate(ids);
    VictimsAre(s, rt.mission, w);
    StopAllDoes(s, victims, w.outcome, now);
    var stopped := StopAll(s, victims, w.outcome, now);
    StopsThenHandled(s, id, stopped.0, stopped.0);
    if stopped.1 {
      StoppedMakesRoom(s, stopped.0, rt.mission);
      SecondDoes(stopped.0, id, now);
      var done := LaunchSecond(stopped.0, id, now);
      WiredInside(stopped.0);
      if done.1 {
        SomethingBecame(stopped.0, id, done.0);
        StopsThenHandled(s, id, stopped.0, done.0);
        var next :| Became(stopped.0, id, done.0, Starting, next);
        StopsSettle(s, id, stopped.0, done.0, next);
      }
    }
  }

  lemma StopsSettle(s: State, id: MissionId, u: State, t: State, next: Runtime)
    requires Wired(u) && IsQueued(s, id) && IsQueued(u, id) && Became(u, id, t, Starting, next)
    requires StopsOnly(s, u, Conflicts(s, Find(s, id).value.mission))
    requires forall v :: v in Conflicts(s, Find(s, id).value.mission) ==> Find(u, v).Some? && Find(u, v).value.phase.Stopped?
    ensures OthersSettled(s, id, t)
  {
    BecameFinds(u, id, t, Starting, next);
    hide Conflicts, Became, Wired;
    forall x | x != id && IsActive(t, x) ensures Find(t, x) == Find(s, x) {
      assert Find(t, x) == Find(u, x);
    }
  }

  lemma SomethingBecame(s: State, id: MissionId, t: State)
    requires IsQueued(s, id) && exists next :: Became(s, id, t, Starting, next)
    ensures t != s
  {
    assert |t.history| == |s.history| + 1;
  }

  lemma VictimsAre(s: State, m: Mission, w: World)
    requires Iterates(w)
    ensures var victims := w.iterate(Conflicts(s, m));
            && NoDuplicates(victims) && Members(victims) == Conflicts(s, m)
            && (forall v :: v in victims <==> v in Conflicts(s, m))
            && (forall v :: v in victims ==> IsActive(s, v))
  {
    ConflictsAreActive(s, m);
    hide Conflicts;
    var victims := w.iterate(Conflicts(s, m));
    assert Members(victims) == Conflicts(s, m);
    assert forall v :: v in victims <==> v in Members(victims);
  }

  /** An entry interrupts the pass exactly when a leftover intent blocks it or its preemption fails. */
  lemma EntryIsHandled(s: State, id: MissionId, now: real, w: World)
    requires Inv(s) && IsQueued(s, id) && Iterates(w)
    ensures var done := PromoteEntry(s, id, Find(s, id).value, now, w);
            && Inv(done.0) && EntryHandled(s, id, done.0)
            && (!done.1 <==> LeftoverBlocks(s, id, now) || PreemptionFails(s, id, now, w))
            && (LeftoverBlocks(s, id, now) ==> done.0 == s)
            && (done.1 && !Left(s, done.0, id) ==> done.0 == s && LeftWaiting(s, id, now))
            && (done.1 ==> OthersSettled(s, id, done.0))
  {
    var rt := Find(s, id).value;
    ExpiryKeepsInv(s, id, rt.generation, rt.queuedAt, now);
    WiredInside(s);
    hide Inv, Advance, Launch, Admissible, EntryHandled, MayPreempt, Became, Left, OthersSettled;
    if QueueTimedOut(rt, now) {
      AdvanceSets(rt, Failed, now);
      ExpiryBecame(s, id, now);
      BecameHandled(s, id, Move(s, s.registry[id], Failed, now), Failed, Advance(rt, Failed, now));
    } else if Due(rt, now) {
      LaunchDoes(s, id, now, w);
    } else {
      NothingHandled(s, id);
    }
  }

  lemma ExpiryBecame(s: State, id: MissionId, now: real)
    requires IsQueued(s, id)
    ensures Became(s, id, Move(s, s.registry[id], Failed, now), Failed, Advance(Find(s, id).value, Failed, now))
  {
  }

  /**
   * What becomes of a queue entry: one that has waited too long expires; one that is due, and may start or preempt, is
   * started, unless the launch raises; any other stays in the queue.
   */
  lemma EntryOutcome(s: State, id: MissionId, now: real, w: World)
    requires Inv(s) && IsQueued(s, id) && Iterates(w)
    ensures var done := PromoteEntry(s, id, Find(s, id).value, now, w); var rt := Find(s, id).value;
            var late := rt.mission.queueTimeout.Some? && rt.queuedAt.Some? && rt.queuedAt.value + rt.mission.queueTimeout.value <= now;
            var due := rt.nextRetryAt.None? || now >= rt.nextRetryAt.value;
            var launched := !late && due && (Admissible(s, rt.mission) || MayPreempt(s, rt.mission));
            && Find(done.0, id).Some?
            && (Find(done.0, id).value.phase.Failed? <==> late)
            && (Find(done.0, id).value.phase.Starting? <==> launched && done.1)
            && (IsQueued(done.0, id) <==> !late && !(launched && done.1))
            && (!launched ==> done.1)
  {
    var rt := Find(s, id).value;
    assert QueueTimedOut(rt, now) <==>
             rt.mission.queueTimeout.Some? && rt.queuedAt.Some? && rt.queuedAt.value + rt.mission.queueTimeout.value <= now;
    EntryIsHandled(s, id, now, w);
    WiredInside(s);
    if QueueTimedOut(rt, now) {
      Expires(s, id, now, w);
    } else if Due(rt, now) {
      LaunchOutcome(s, id, now, w);
    }
    hide Inv, Advance, Launch, Admissible, EntryHandled, MayPreempt, Became, QueueTimedOut, Iterates, Wired, OthersSettled;
  }

  lemma Expires(s: State, id: MissionId, now: real, w: World)
    requires Wired(s) && IsQueued(s, id) && QueueTimedOut(Find(s, id).value, now)
    ensures var done := PromoteEntry(s, id, Find(s, id).value, now, w);
            done.1 && Find(done.0, id).Some? && Find(done.0, id).value.phase.Failed?
  {
    AdvanceSets(Find(s, id).value, Failed, now);
    ExpiryBecame(s, id, now);
    hide Advance, QueueTimedOut;
  }

  lemma LaunchOutcome(s: State, id: MissionId, now: real, w: World)
    requires Inv(s) && IsQueued(s, id) && Iterates(w) && !QueueTimedOut(Find(s, id).value, now) && Due(Find(s, id).value, now)
    ensures var done := Launch(s, id, now, w); var m := Find(s, id).value.mission;
            && Find(done.0, id).Some?
            && (Find(done.0, id).value.phase.Starting? <==> (Admissible(s, m) || MayPreempt(s, m)) && done.1)
            && (IsQueued(done.0, id) <==> !((Admissible(s, m) || MayPreempt(s, m)) && done.1))
            && (!Admissible(s, m) && !MayPreempt(s, m) ==> done.1)
  {
    hide Inv, QueueTimedOut, Admissible, MayPreempt, EntryHandled, Became, Yields, OthersSettled, AdmitFirst, StopAll, LaunchSecond;
    var m := Find(s, id).value.mission;
    WiredInside(s);
    RegisteredRecord(s, id);
    FirstDecides(s, id, now);
    if Admissible(s, m) {
      AdmissibleIsFree(s, m);
      SecondDoes(s, id, now);
      SecondFinds(s, id, now);
    } else if MayPreempt(s, m) {
      var victims := w.iterate(Conflicts(s, m));
      VictimsAre(s, m, w);
      StopAllDoes(s, victims, w.outcome, now);
      var stopped := StopAll(s, victims, w.outcome, now);
      assert id !in Conflicts(s, m) by { ConflictsAreActive(s, m); }
      assert Find(stopped.0, id) == Find(s, id);
      if stopped.1 {
        StoppedMakesRoom(s, stopped.0, m);
        SecondDoes(stopped.0, id, now);
        SecondFinds(stopped.0, id, now);
      }
    }
    hide Conflicts, StopsOnly, Wired;
  }

  lemma SecondFinds(s: State, id: MissionId, now: real)
    requires Inv(s) && IsQueued(s, id)
    requires LaunchSecond(s, id, now).1 ==> exists next :: Became(s, id, LaunchSecond(s, id, now).0, Starting, next)
    requires !LaunchSecond(s, id, now).1 ==> LaunchSecond(s, id, now).0 == s
    ensures var t := LaunchSecond(s, id, now).0;
            Find(t, id).Some? && (if LaunchSecond(s, id, now).1 then Find(t, id).value.phase.Starting? else t == s)
  {
    WiredInside(s);
    hide Inv, LaunchSecond;
    if LaunchSecond(s, id, now).1 {
      var next :| Became(s, id, LaunchSecond(s, id, now).0, Starting, next);
    }
  }

  /** Not timed out, and inadmissible if it is due. */
  ghost predicate LeftWaiting(m: State, id: MissionId, now: real)
    requires IsQueued(m, id)
  {
    var rt := Find(m, id).value;
    !QueueTimedOut(rt, now) && (Due(rt, now) ==> !Admissible(m, rt.mission))
  }

  // ---------------------------------------------------------------- the whole pass

  /** Every mission that was active still is. */
  ghost predicate NoneStopped(s: State, t: State) {
    forall id :: IsActive(s, id) ==> IsActive(t, id)
  }

  /** The queued missions a pass is about; the index may hold others, which it skips. */
  predicate Listed(s: State, order: seq<MissionId>, id: MissionId) {
    id in order && IsQueued(s, id)
  }

  /** What the pass over a part of the queue has achieved. */
  ghost predicate PassSoFar(s: State, order: seq<MissionId>, m: State) {
    && m.registry == s.registry && m.maxActive == s.maxActive && m.maxQueued == s.maxQueued
    && (forall id :: !Listed(s, order, id) ==> Find(m, id) == Find(s, id) || SameOrStopped(Find(s, id), Find(m, id)))
    && (forall id :: Listed(s, order, id) ==> Find(m, id) == Find(s, id) || Left(s, m, id))
    && HistoryInOrder(s, order, m)
  }

  /** Waiting missions wait for a reason, unless something they may have waited for was stopped later. */
  ghost predicate Waiting(s: State, order: seq<MissionId>, m: State, now: real) {
    forall id :: Listed(m, order, id) ==>
      && !QueueTimedOut(Find(m, id).value, now)
      && (NoneStopped(s, m) ==> LeftWaiting(m, id, now))
  }

  /** A mission that is active and was not started by the pass was not touched. */
  ghost predicate Settled(s: State, order: seq<MissionId>, m: State) {
    forall x :: !Listed(s, order, x) && IsActive(m, x) ==> Find(m, x) == Find(s, x)
  }

  /** The pass recorded starts and expiries, in the order of the queue, and stops of missions that were active before it. */
  ghost predicate HistoryInOrder(s: State, order: seq<MissionId>, m: State) {
    && s.history <= m.history
    && (forall k :: |s.history| <= k < |m.history| ==> PassChange(s, order, m.history[k]))
    && (forall k, l :: |s.history| <= k < l < |m.history| && m.history[k].from.Queued? && m.history[l].from.Queued? ==>
          && m.history[k].mission != m.history[l].mission
          && Find(s, m.history[k].mission).Some? && Find(s, m.history[l].mission).Some?
          && Precedes(Find(s, m.history[k].mission).value, Find(s, m.history[l].mission).value))
  }

  ghost predicate PassChange(s: State, order: seq<MissionId>, c: Change) {
    if c.from.Queued? then c.mission in order && (c.to.Failed? || c.to.Starting?)
    else c.from.Active() && (c.to.Stopping? || c.to.Stopped?) && IsActive(s, c.mission)
  }

  lemma LastInOrder(s: State, order: seq<MissionId>)
    requires Sorted(s, order) && order != []
    ensures var n := |order| - 1; var id := order[n];
            && Sorted(s, order[..n])
            && id !in order[..n] && id in order && Find(s, id).Some?
            && (forall x :: x in order <==> x in order[..n] || x == id)
            && (forall x :: x in order[..n] ==> Find(s, x).Some? && Precedes(Find(s, x).value, Find(s, id).value))
  {
    var n := |order| - 1;
    forall x | x in order[..n] ensures Find(s, x).Some? && Precedes(Find(s, x).value, Find(s, order[n]).value) {
      var i :| 0 <= i < n && order[..n][i] == x;
      assert order[i] == x;
    }
  }

  /** A mission with a higher priority than the queue's next one was active before the pass, or is still untouched by it. */
  lemma VictimWasActive(s: State, order: seq<MissionId>, m: State, x: MissionId)
    requires Sorted(s, order) && order != [] && PassSoFar(s, order[..|order| - 1], m)
    requires IsActive(m, x) && Find(m, order[|order| - 1]) == Find(s, order[|order| - 1])
    requires Find(m, order[|order| - 1]).Some?
    requires Find(m, order[|order| - 1]).value.mission.priority < Find(m, x).value.mission.priority
    ensures !IsQueued(s, x) && IsActive(s, x)
  {
    hide HistoryInOrder, Sorted;
    LastInOrder(s, order);
  }

  lemma HistoryGoesOn(s: State, order: seq<MissionId>, m: State, t: State)
    requires Sorted(s, order) && order != [] && PassSoFar(s, order[..|order| - 1], m)
    requires Find(m, order[|order| - 1]) == Find(s, order[|order| - 1])
    requires EntryHandled(m, order[|order| - 1], t)
    ensures HistoryInOrder(s, order, t)
  {
    LastInOrder(s, order);
    var n := |order| - 1;
    var id := order[n];
    forall k | |s.history| <= k < |t.history| ensures PassChange(s, order, t.history[k]) {
      if k < |m.history| {
        assert t.history[k] == m.history[k];
        assert PassChange(s, order[..n], m.history[k]);
      } else {
        assert EntryChange(m, id, t.history[k]);
        if !t.history[k].from.Queued? {
          VictimWasActive(s, order, m, t.history[k].mission);
        }
      }
    }
    hide PassSoFar, Sorted, EntryHandled;
    OrderGoesOn(s, order, m, t);
  }

  lemma OrderGoesOn(s: State, order: seq<MissionId>, m: State, t: State)
    requires Sorted(s, order) && order != [] && HistoryInOrder(s, order[..|order| - 1], m)
    requires EntryHandled(m, order[|order| - 1], t)
    ensures forall k, l :: |s.history| <= k < l < |t.history| && t.history[k].from.Queued? && t.history[l].from.Queued? ==>
              && t.history[k].mission != t.history[l].mission
              && Find(s, t.history[k].mission).Some? && Find(s, t.history[l].mission).Some?
              && Precedes(Find(s, t.history[k].mission).value, Find(s, t.history[l].mission).value)
  {
    LastInOrder(s, order);
    hide Sorted, Precedes;
    var n := |order| - 1;
    forall k, l | |s.history| <= k < l < |t.history| && t.history[k].from.Queued? && t.history[l].from.Queued?
      ensures && t.history[k].mission != t.history[l].mission
              && Find(s, t.history[k].mission).Some? && Find(s, t.history[l].mission).Some?
              && Precedes(Find(s, t.history[k].mission).value, Find(s, t.history[l].mission).value)
    {
      assert k < |m.history|;
      assert t.history[k] == m.history[k];
      assert PassChange(s, order[..n], m.history[k]);
      if l < |m.history| {
        assert t.history[l] == m.history[l];
      } else {
        assert EntryChange(m, order[n], t.history[l]);
      }
    }
  }

  lemma PassGoesOn(s: State, order: seq<MissionId>, m: State, t: State)
    requires Sorted(s, order) && order != [] && PassSoFar(s, order[..|order| - 1], m)
    requires IsQueued(s, order[|order| - 1]) && EntryHandled(m, order[|order| - 1], t)
    ensures Find(m, order[|order| - 1]) == Find(s, order[|order| - 1])
    ensures PassSoFar(s, order, t)
  {
    LastInOrder(s, order);
    var id := order[|order| - 1];
    assert Find(m, id) == Find(s, id);
    HistoryGoesOn(s, order, m, t);
    hide HistoryInOrder, Sorted, EntryChange;
    forall x | !Listed(s, order, x) ensures Find(t, x) == Find(s, x) || SameOrStopped(Find(s, x), Find(t, x)) {
      assert !Listed(s, order[..|order| - 1], x);
    }
    forall x | Listed(s, order, x) ensures Find(t, x) == Find(s, x) || Left(s, t, x) {
      if x != id && Preempted(m, id, t, x) {
        VictimWasActive(s, order, m, x);
      }
    }
  }

  /** Missions passed over earlier stay inadmissible as long as nothing is stopped. */
  lemma NothingStoppedLater(s: State, order: seq<MissionId>, m: State, t: State)
    requires Sorted(s, order) && order != [] && PassSoFar(s, order[..|order| - 1], m)
    requires IsQueued(s, order[|order| - 1]) && EntryHandled(m, order[|order| - 1], t) && NoneStopped(s, t)
    ensures NoneStopped(s, m) && OnlyStarts(m, t)
  {
    LastInOrder(s, order);
    var id := order[|order| - 1];
    hide HistoryInOrder, Sorted, EntryChange;
    forall x | IsActive(s, x) ensures IsActive(m, x) {
      assert !Listed(s, order, x);
    }
    forall x | Find(m, x).Some?
      ensures && Find(t, x).Some? && Find(t, x).value.mission == Find(m, x).value.mission
              && (Find(m, x).value.phase.Active() ==> Find(t, x).value.phase.Active())
              && (Find(m, x).value.phase.Succeeded? <==> Find(t, x).value.phase.Succeeded?)
    {
      if x == id {
        assert IsQueued(m, id);
      } else if Find(t, x) != Find(m, x) {
        assert Preempted(m, id, t, x);
        VictimWasActive(s, order, m, x);
      }
    }
  }

  lemma WaitingGoesOn(s: State, order: seq<MissionId>, m: State, t: State, now: real)
    requires Sorted(s, order) && order != [] && PassSoFar(s, order[..|order| - 1], m)
    requires Waiting(s, order[..|order| - 1], m, now)
    requires IsQueued(s, order[|order| - 1]) && EntryHandled(m, order[|order| - 1], t)
    requires IsQueued(m, order[|order| - 1])
    requires !Left(m, t, order[|order| - 1]) ==> t == m && LeftWaiting(m, order[|order| - 1], now)
    ensures Waiting(s, order, t, now)
  {
    LastInOrder(s, order);
    PassGoesOn(s, order, m, t);
    var id := order[|order| - 1];
    hide HistoryInOrder, Sorted, EntryChange, Admissible, QueueTimedOut, Due;
    if NoneStopped(s, t) {
      NothingStoppedLater(s, order, m, t);
    }
    hide NoneStopped, OnlyStarts;
    forall x | Listed(t, order, x)
      ensures !QueueTimedOut(Find(t, x).value, now) && (NoneStopped(s, t) ==> LeftWaiting(t, x, now))
    {
      if x == id {
        assert t == m;
      } else {
        assert Find(t, x) == Find(m, x);
        if NoneStopped(s, t) && Admissible(t, Find(t, x).value.mission) {
          AdmissionIsAntitone(m, t, Find(t, x).value.mission);
        }
      }
    }
  }

  lemma {:induction false} PassAchieves(s: State, order: seq<MissionId>, now: real, w: World)
    requires Inv(s) && Sorted(s, order) && Iterates(w)
    ensures var done := Promote(s, order, now, w);
            && Inv(done.0) && PassSoFar(s, order, done.0)
            && (done.1 ==> Waiting(s, order, done.0, now) && Settled(s, order, done.0))
    decreases |order|
  {
    hide Inv, PromoteEntry, Waiting, Settled, EntryHandled, Sorted, Iterates, Find;
    if order == [] {
      NothingPassed(s, now);
    } else {
      var n := |order| - 1;
      LastInOrder(s, order);
      PassAchieves(s, order[..n], now, w);
      var before := Promote(s, order[..n], now, w);
      hide PassSoFar, Left;
      if before.1 {
        EntryAchieves(s, order, before.0, now, w);
      } else {
        PassOver(s, order, before.0);
      }
    }
  }

  lemma NothingPassed(s: State, now: real)
    ensures PassSoFar(s, [], s) && Waiting(s, [], s, now) && Settled(s, [], s)
  {
  }

  lemma EntryAchieves(s: State, order: seq<MissionId>, m: State, now: real, w: World)
    requires Sorted(s, order) && order != [] && Iterates(w) && Inv(m)
    requires PassSoFar(s, order[..|order| - 1], m) && Waiting(s, order[..|order| - 1], m, now)
    requires Settled(s, order[..|order| - 1], m)
    ensures var id := order[|order| - 1];
            && Find(s, id).Some?
            && var done := PromoteEntry(m, id, Find(s, id).value, now, w);
               && Inv(done.0) && PassSoFar(s, order, done.0)
               && (done.1 ==> Waiting(s, order, done.0, now) && Settled(s, order, done.0))
  {
    LastInOrder(s, order);
    var id := order[|order| - 1];
    if !IsQueued(s, id) {
      EntryIsSkipped(s, order, m, now, w);
      return;
    }
    Untouched(s, order, m);
    hide Inv, PromoteEntry, Waiting, Settled, OthersSettled, EntryHandled, Sorted, Iterates, PassSoFar, Left, LeftWaiting;
    EntryIsHandled(m, id, now, w);
    var done := PromoteEntry(m, id, Find(s, id).value, now, w);
    PassGoesOn(s, order, m, done.0);
    if done.1 {
      WaitingGoesOn(s, order, m, done.0, now);
      SettledGoesOn(s, order, m, done.0);
    }
  }

  lemma SettledGoesOn(s: State, order: seq<MissionId>, m: State, t: State)
    requires Sorted(s, order) && order != []
    requires IsQueued(s, order[|order| - 1]) && Settled(s, order[..|order| - 1], m) && OthersSettled(m, order[|order| - 1], t)
    ensures Settled(s, order, t)
  {
    LastInOrder(s, order);
  }

  lemma Untouched(s: State, order: seq<MissionId>, m: State)
    requires Sorted(s, order) && order != [] && PassSoFar(s, order[..|order| - 1], m)
    requires IsQueued(s, order[|order| - 1])
    ensures Find(m, order[|order| - 1]) == Find(s, order[|order| - 1])
  {
    LastInOrder(s, order);
  }

  /** An id in the index that is not queued is skipped. */
  lemma EntryIsSkipped(s: State, order: seq<MissionId>, m: State, now: real, w: World)
    requires Sorted(s, order) && order != [] && PassSoFar(s, order[..|order| - 1], m)
    requires Waiting(s, order[..|order| - 1], m, now) && Settled(s, order[..|order| - 1], m)
    requires Find(s, order[|order| - 1]).Some? && !IsQueued(s, order[|order| - 1])
    ensures PromoteEntry(m, order[|order| - 1], Find(s, order[|order| - 1]).value, now, w) == (m, true)
    ensures !IsQueued(m, order[|order| - 1])
    ensures PassSoFar(s, order, m) && Waiting(s, order, m, now) && Settled(s, order, m)
  {
    LastInOrder(s, order);
    PassOver(s, order, m);
    hide Sorted, HistoryInOrder, LeftWaiting, Launch;
    assert !Listed(s, order[..|order| - 1], order[|order| - 1]);
  }

  /** The rest of the queue, which an interrupted pass does not reach. */
  lemma PassOver(s: State, order: seq<MissionId>, m: State)
    requires Sorted(s, order) && order != [] && PassSoFar(s, order[..|order| - 1], m)
    ensures PassSoFar(s, order, m)
  {
    LastInOrder(s, order);
    hide Sorted;
    assert HistoryInOrder(s, order, m) by {
      forall k | |s.history| <= k < |m.history| ensures PassChange(s, order, m.history[k]) {
        assert PassChange(s, order[..|order| - 1], m.history[k]);
      }
    }
  }

  /**
   * A pass to its end is work-conserving: afterwards no waiting mission of the index has timed out, and,
   * unless an active mission was preempted, none that is due could start. In any pass, waiting missions are
   * untouched, so they keep their place, and so does a queued mission that the index has lost; the others
   * started or expired, in (priority, queue time) order; only missions that were active before the pass are
   * stopped, never one it started. A pass over an index that holds an unregistered mission changes nothing.
   */
  lemma PromotionIsWorkConserving(s: State, order: seq<MissionId>, now: real, w: World)
    requires Inv(s) && (Listable(s) ==> QueueOrder(s, order)) && Iterates(w)
    ensures var done := Pass(s, order, now, w); var t := done.0;
            && Inv(t)
            && (!Listable(s) ==> done == (s, false))
            && (done.1 ==> forall id :: id in QueuedIds(t) && id in s.queueIndex ==>
                  && !QueueTimedOut(Find(t, id).value, now)
                  && (NoneStopped(s, t) && Due(Find(t, id).value, now) ==> !Admissible(t, Find(t, id).value.mission)))
            && (forall id :: id in QueuedIds(t) ==> Find(t, id) == Find(s, id))
            && (forall id :: id in QueuedIds(s) && id !in QueuedIds(t) ==> id in s.queueIndex && Left(s, t, id))
            && (forall id :: id !in QueuedIds(s) ==> Find(t, id) == Find(s, id) || SameOrStopped(Find(s, id), Find(t, id)))
            && HistoryInOrder(s, order, t)
  {
    if Listable(s) {
      PassAchieves(s, order, now, w);
      var done := Promote(s, order, now, w);
      hide Inv, Promote, Admissible, QueueTimedOut, Due, HistoryInOrder, NoneStopped, Iterates, Sorted, Left, SameOrStopped;
      forall id | id in QueuedIds(s) && id !in QueuedIds(done.0) ensures id in s.queueIndex && Left(s, done.0, id) {
        QueuedAfterPass(s, order, done.0, id);
      }
      forall id | id in QueuedIds(done.0) ensures Find(done.0, id) == Find(s, id) {
        QueuedAfterPass(s, order, done.0, id);
      }
      if done.1 {
        forall id | id in QueuedIds(done.0) && id in s.queueIndex
          ensures !QueueTimedOut(Find(done.0, id).value, now)
          ensures NoneStopped(s, done.0) && Due(Find(done.0, id).value, now) ==> !Admissible(done.0, Find(done.0, id).value.mission)
        {
          assert Listed(done.0, order, id);
        }
      }
      forall id | id !in QueuedIds(s) ensures Find(done.0, id) == Find(s, id) || SameOrStopped(Find(s, id), Find(done.0, id)) {
        assert !Listed(s, order, id);
      }
    }
  }

  /** A mission in the queue stays as it is, or leaves it if it is listed; none enters. */
  lemma QueuedAfterPass(s: State, order: seq<MissionId>, t: State, id: MissionId)
    requires PassSoFar(s, order, t)
    ensures IsQueued(t, id) ==> Find(t, id) == Find(s, id)
    ensures IsQueued(s, id) && !IsQueued(t, id) ==> id in order && Left(s, t, id)
  {
    hide HistoryInOrder;
    assert Listed(s, order, id) || !Listed(s, order, id);
  }

  // ---------------------------------------------------------------- when a pass is interrupted

  lemma {:induction false} EntriesRunToTheirEnd(s: State, order: seq<MissionId>, now: real, w: World)
    requires Inv(s) && Sorted(s, order) && Iterates(w)
    ensures Promote(s, order, now, w).1 <==>
              forall k :: 0 <= k < |order| ==>
                var m := Promote(s, order[..k], now, w).0;
                !LeftoverBlocks(m, order[k], now) && !PreemptionFails(m, order[k], now, w)
    decreases |order|
  {
    hide Inv, PromoteEntry, Sorted, Iterates, LeftoverBlocks, PreemptionFails, PassSoFar, Waiting, Settled, Find, IsQueued;
    if order != [] {
      var n := |order| - 1;
      LastInOrder(s, order);
      EntriesRunToTheirEnd(s, order[..n], now, w);
      assert forall k :: 0 <= k < n ==> order[..n][..k] == order[..k] && order[..n][k] == order[k];
      PassAchieves(s, order[..n], now, w);
      var before := Promote(s, order[..n], now, w);
      if before.1 {
        EntryGoesOnIff(s, order, before.0, now, w);
      }
    }
  }

  /** One entry, queued or not. */
  lemma EntryGoesOnIff(s: State, order: seq<MissionId>, m: State, now: real, w: World)
    requires Sorted(s, order) && order != [] && Iterates(w) && Inv(m)
    requires PassSoFar(s, order[..|order| - 1], m) && Waiting(s, order[..|order| - 1], m, now)
    requires Settled(s, order[..|order| - 1], m)
    ensures var id := order[|order| - 1];
            && Find(s, id).Some?
            && var done := PromoteEntry(m, id, Find(s, id).value, now, w);
               && (done.1 <==> !LeftoverBlocks(m, id, now) && !PreemptionFails(m, id, now, w))
               && (!IsQueued(s, id) ==> done == (m, true) && !IsQueued(m, id))
               && (IsQueued(s, id) ==> Find(m, id) == Find(s, id))
  {
    LastInOrder(s, order);
    var id := order[|order| - 1];
    if IsQueued(s, id) {
      Untouched(s, order, m);
      hide PassSoFar, Sorted, Inv, PromoteEntry, EntryHandled, Left, LeftWaiting, OthersSettled, Waiting, Settled, Iterates;
      EntryIsHandled(m, id, now, w);
    } else {
      EntryIsSkipped(s, order, m, now, w);
    }
  }

  /**
   * A pass runs to its end if and only if every mission in the queue index is registered, and no entry,
   * when its turn comes, holds a leftover intent or fails to preempt.
   */
  lemma PassRunsToItsEnd(s: State, order: seq<MissionId>, now: real, w: World)
    requires Inv(s) && (Listable(s) ==> QueueOrder(s, order)) && Iterates(w)
    ensures Pass(s, order, now, w).1 <==>
              && Listable(s)
              && forall k :: 0 <= k < |order| ==>
                   var m := Promote(s, order[..k], now, w).0;
                   !LeftoverBlocks(m, order[k], now) && !PreemptionFails(m, order[k], now, w)
  {
    if Listable(s) {
      EntriesRunToTheirEnd(s, order, now, w);
    }
  }

  /** While the queue index agrees, it can be listed, and no queued mission is missing from it. */
  lemma AgreeingIsListable(s: State)
    requires QueueAgrees(s)
    ensures Listable(s) && forall id :: IsQueued(s, id) ==> id in s.queueIndex
  {
    assert forall id :: IsQueued(s, id) ==> id in QueuedIds(s);
  }

  /** Nobody in the queue preempts. */
  ghost predicate NobodyPreempts(s: State) {
    forall id :: IsQueued(s, id) ==> !Find(s, id).value.mission.conflictPolicy.PreemptLower?
  }

  /** Every queued mission among `ids` is left for a reason. */
  ghost predicate WorkConserved(ids: set<MissionId>, t: State, now: real) {
    forall id :: id in QueuedIds(t) && id in ids ==>
      !QueueTimedOut(Find(t, id).value, now) && (Due(Find(t, id).value, now) ==> !Admissible(t, Find(t, id).value.mission))
  }

  lemma {:induction false} NobodyStops(s: State, order: seq<MissionId>, now: real, w: World)
    requires Inv(s) && Sorted(s, order) && Iterates(w) && NobodyPreempts(s)
    ensures var done := Promote(s, order, now, w);
            && NoneStopped(s, done.0)
            && (!done.1 ==> exists id :: id in order && LeftoverBlocks(done.0, id, now))
    decreases |order|
  {
    hide Inv, PromoteEntry, Sorted, Iterates, LeftoverBlocks, PreemptionFails, NobodyPreempts, PassSoFar, IsQueued, Waiting, Settled;
    if order != [] {
      var n := |order| - 1;
      LastInOrder(s, order);
      NobodyStops(s, order[..n], now, w);
      PassAchieves(s, order[..n], now, w);
      var before := Promote(s, order[..n], now, w);
      hide NoneStopped;
      if before.1 {
        EntryGoesOnIff(s, order, before.0, now, w);
        QuietEntry(s, before.0, order[n], now, w);
        NoneStoppedChain(s, before.0, PromoteEntry(before.0, order[n], Find(s, order[n]).value, now, w).0);
      }
    }
  }

  lemma NoneStoppedChain(s: State, m: State, t: State)
    requires NoneStopped(s, m) && NoneStopped(m, t)
    ensures NoneStopped(s, t)
  {
  }

  lemma QuietEntry(s: State, m: State, id: MissionId, now: real, w: World)
    requires Inv(m) && Iterates(w) && NobodyPreempts(s) && Find(s, id).Some?
    requires if IsQueued(s, id) then Find(m, id) == Find(s, id) else PromoteEntry(m, id, Find(s, id).value, now, w) == (m, true)
    ensures var done := PromoteEntry(m, id, Find(s, id).value, now, w);
            && NoneStopped(m, done.0)
            && (!done.1 ==> LeftoverBlocks(done.0, id, now))
  {
    if IsQueued(s, id) {
      var done := PromoteEntry(m, id, Find(s, id).value, now, w);
      EntryIsHandled(m, id, now, w);
      assert !MayPreempt(m, Find(m, id).value.mission);
      if done.1 && Left(m, done.0, id) {
        QuietChange(m, id, now, w);
      }
    }
  }

  /** Without preemption an entry changes nothing but its own record. */
  lemma QuietChange(s: State, id: MissionId, now: real, w: World)
    requires Inv(s) && IsQueued(s, id) && !Find(s, id).value.mission.conflictPolicy.PreemptLower?
    ensures NoneStopped(s, PromoteEntry(s, id, Find(s, id).value, now, w).0)
  {
    hide Inv, Advance, Conflicts, MissingPrerequisitesOf, AtActiveCapacity, AtQueueCapacity, QueueTimedOut, AllLower;
    WiredInside(s);
    RegisteredRecord(s, id);
    var t := PromoteEntry(s, id, Find(s, id).value, now, w).0;
    forall x | IsActive(s, x) ensures IsActive(t, x) {
      assert x != id;
      assert Find(t, x) == Find(s, x);
    }
  }

  /**
   * Where nobody preempts, a pass over an index that can be listed is work-conserving if and only if no
   * mission, when its turn comes, is due and admissible and holds a leftover intent. A pass over one that
   * cannot be listed leaves what there was to do.
   */
  lemma WorkConservedIff(s: State, order: seq<MissionId>, now: real, w: World)
    requires Inv(s) && (Listable(s) ==> QueueOrder(s, order)) && Iterates(w) && NobodyPreempts(s)
    ensures WorkConserved(s.queueIndex, Pass(s, order, now, w).0, now) <==>
              if Listable(s)
              then forall k :: 0 <= k < |order| ==> !LeftoverBlocks(Promote(s, order[..k], now, w).0, order[k], now)
              else WorkConserved(s.queueIndex, s, now)
  {
    if Listable(s) {
      PassRunsToItsEnd(s, order, now, w);
      NobodyStops(s, order, now, w);
      PromotionIsWorkConserving(s, order, now, w);
      var done := Promote(s, order, now, w);
      hide Inv, Promote, Iterates, NoneStopped, Sorted, HistoryInOrder, Admissible, QueueTimedOut, Due, Left, SameOrStopped;
      hide NobodyPreempts;
      if !done.1 {
        var id :| id in order && LeftoverBlocks(done.0, id, now);
        assert id in QueuedIds(done.0);
      }
      forall k | 0 <= k < |order| ensures !PreemptionFails(Promote(s, order[..k], now, w).0, order[k], now, w) {
        PassKeepsPolicy(s, order, k, now, w);
      }
    }
  }

  lemma PassKeepsPolicy(s: State, order: seq<MissionId>, k: nat, now: real, w: World)
    requires Inv(s) && Sorted(s, order) && Iterates(w) && NobodyPreempts(s) && k < |order|
    ensures !PreemptionFails(Promote(s, order[..k], now, w).0, order[k], now, w)
  {
    assert Sorted(s, order[..k]);
    PassAchieves(s, order[..k], now, w);
    hide Inv, Promote, Iterates, Sorted, PassSoFar;
    QueuedAfterPass(s, order[..k], Promote(s, order[..k], now, w).0, order[k]);
  }

  /** A condition to check before the pass: an index that can be listed, no leftover intent in it, and active missions that yield. */
  lemma PassIsNotInterrupted(s: State, order: seq<MissionId>, now: real, w: World)
    requires Inv(s) && Listable(s) && QueueOrder(s, order) && Iterates(w)
    requires forall id :: id in s.queueIndex && IsQueued(s, id) ==> Find(s, id).value.pending.None?
    requires forall v :: IsActive(s, v) ==> Yields(Find(s, v).value, w.outcome(v))
    ensures Pass(s, order, now, w).1
  {
    EntriesAreNotInterrupted(s, order, now, w);
  }

  lemma {:induction false} EntriesAreNotInterrupted(s: State, order: seq<MissionId>, now: real, w: World)
    requires Inv(s) && Sorted(s, order) && Iterates(w)
    requires forall id :: Listed(s, order, id) ==> Find(s, id).value.pending.None?
    requires forall v :: IsActive(s, v) ==> Yields(Find(s, v).value, w.outcome(v))
    ensures Promote(s, order, now, w).1
    decreases |order|
  {
    hide Inv, PromoteEntry, Sorted, Iterates, Yields, PassSoFar, Waiting, Settled, LeftoverBlocks, PreemptionFails;
    if order != [] {
      var n := |order| - 1;
      LastInOrder(s, order);
      EntriesAreNotInterrupted(s, order[..n], now, w);
      PassAchieves(s, order[..n], now, w);
      var m := Promote(s, order[..n], now, w).0;
      EntryGoesOnIff(s, order, m, now, w);
      EntryIsFree(s, order, m, now, w);
    }
  }

  lemma EntryIsFree(s: State, order: seq<MissionId>, m: State, now: real, w: World)
    requires Sorted(s, order) && order != [] && PassSoFar(s, order[..|order| - 1], m) && Settled(s, order[..|order| - 1], m)
    requires var id := order[|order| - 1]; if IsQueued(s, id) then Find(m, id) == Find(s, id) else !IsQueued(m, id)
    requires forall id :: Listed(s, order, id) ==> Find(s, id).value.pending.None?
    requires forall v :: IsActive(s, v) ==> Yields(Find(s, v).value, w.outcome(v))
    ensures !LeftoverBlocks(m, order[|order| - 1], now) && !PreemptionFails(m, order[|order| - 1], now, w)
  {
    LastInOrder(s, order);
    hide HistoryInOrder, Sorted, Yields, Conflicts, MissingPrerequisitesOf;
    var id := order[|order| - 1];
    assert IsQueued(s, id) ==> Listed(s, order, id);
    if PreemptionFails(m, id, now, w) {
      var x := Find(m, id).value.mission;
      var v :| v in Conflicts(m, x) && !Yields(Find(m, v).value, w.outcome(v));
      ConflictsAreActive(m, x);
      VictimWasActive(s, order, m, v);
    }
  }
}
