// The engine's four indexes: why three of them always agree with a scan of every registered mission,
// and the fourth with the queue index of the reference semantics (mission/engine.py).

module MissionIndexes {
  import opened Prelude
  import opened MissionPhases
  import opened MissionState
  import opened MissionSafety

  datatype Indexes = Indexes(
    active: set<MissionId>,
    queued: set<MissionId>,
    owners: map<string, set<MissionId>>,
    succeeded: map<MissionType, nat>)

  // ---------------------------------------------------------------- what the indexes should say

  /** Exactly the held resources are listed, each with exactly its holders. */
  ghost predicate OwnersAgree(owners: map<string, set<MissionId>>, s: State) {
    && (forall r :: r in owners ==> owners[r] == Holders(s, r) && owners[r] != {})
    && (forall r :: Holders(s, r) != {} ==> r in owners)
  }

  /** Exactly the classes with a succeeded mission are counted, none with zero. */
  ghost predicate CountsAgree(succeeded: map<MissionType, nat>, s: State) {
    && (forall t :: t in succeeded ==> succeeded[t] == |SucceededIds(s, t)| > 0)
    && (forall t :: SucceededIds(s, t) != {} ==> t in succeeded)
  }

  /** The three indexes that admission searches. */
  ghost predicate ScansAgree(ix: Indexes, s: State) {
    && ix.active == ActiveIds(s)
    && OwnersAgree(ix.owners, s)
    && CountsAgree(ix.succeeded, s)
  }

  ghost predicate Agrees(ix: Indexes, s: State) {
    ScansAgree(ix, s) && ix.queued == s.queueIndex
  }

  // ---------------------------------------------------------------- incremental maintenance

  /** Releases the resources `rs` held by `id`, dropping those nobody holds any more. */
  ghost function Without(owners: map<string, set<MissionId>>, rs: set<string>, id: MissionId): map<string, set<MissionId>> {
    map r | r in owners && (r in rs ==> owners[r] - {id} != {}) :: if r in rs then owners[r] - {id} else owners[r]
  }

  ghost function With(owners: map<string, set<MissionId>>, rs: set<string>, id: MissionId): map<string, set<MissionId>> {
    map r | r in owners.Keys + rs ::
      if r !in rs then owners[r] else if r in owners then owners[r] + {id} else {id}
  }

  function Decrement(counts: map<MissionType, nat>, t: MissionType): map<MissionType, nat> {
    if t in counts && counts[t] > 1 then counts[t := counts[t] - 1] else counts - {t}
  }

  function Increment(counts: map<MissionType, nat>, t: MissionType): map<MissionType, nat> {
    counts[t := (if t in counts then counts[t] else 0) + 1]
  }

  /** What one phase change does to the indexes. */
  ghost function Reindex(ix: Indexes, m: Mission, from: Phase, to: Phase): Indexes {
    var left := from.Active() && !to.Active();
    var entered := to.Active() && !from.Active();
    Indexes(
      if left then ix.active - {m.id} else if entered then ix.active + {m.id} else ix.active,
      QueueAfter(ix.queued, m.id, from, to),
      if left then Without(ix.owners, m.resources, m.id)
      else if entered then With(ix.owners, m.resources, m.id) else ix.owners,
      var counts := if from.Succeeded? then Decrement(ix.succeeded, m.kind) else ix.succeeded;
      if to.Succeeded? then Increment(counts, m.kind) else counts)
  }

  // ---------------------------------------------------------------- maintenance keeps agreement

  /** `s'` is `s` with the one registered mission `id` in another phase. */
  ghost predicate OneMoved(s: State, s': State, id: MissionId, before: Runtime, after: Runtime) {
    && Find(s, id) == Some(before)
    && Find(s', id) == Some(after)
    && before.mission == after.mission
    && before.mission.id == id
    && s'.registry == s.registry
    && (forall other :: other != id ==> Find(s', other) == Find(s, other))
  }

  lemma MovedSets(s: State, s': State, id: MissionId, before: Runtime, after: Runtime)
    requires OneMoved(s, s', id, before, after)
    ensures ActiveIds(s') == if after.phase.Active() then ActiveIds(s) + {id} else ActiveIds(s) - {id}
    ensures before.phase.Active() <==> id in ActiveIds(s)
  {
  }

  lemma MovedHolders(s: State, s': State, id: MissionId, before: Runtime, after: Runtime, r: string)
    requires OneMoved(s, s', id, before, after)
    ensures Holders(s', r) ==
            if after.phase.Active() && r in after.mission.resources then Holders(s, r) + {id} else Holders(s, r) - {id}
    ensures id in Holders(s, r) <==> before.phase.Active() && r in before.mission.resources
  {
  }

  lemma LeaveOwners(s: State, s': State, id: MissionId, rs: set<string>, owners: map<string, set<MissionId>>)
    requires OwnersAgree(owners, s)
    requires forall r :: Holders(s', r) == if r in rs then Holders(s, r) - {id} else Holders(s, r)
    ensures OwnersAgree(Without(owners, rs, id), s')
  {
    hide Holders;
  }

  lemma EnterOwners(s: State, s': State, id: MissionId, rs: set<string>, owners: map<string, set<MissionId>>)
    requires OwnersAgree(owners, s)
    requires forall r :: Holders(s', r) == if r in rs then Holders(s, r) + {id} else Holders(s, r)
    ensures OwnersAgree(With(owners, rs, id), s')
  {
    hide Holders;
  }

  lemma MovedOwners(s: State, s': State, id: MissionId, before: Runtime, after: Runtime, owners: map<string, set<MissionId>>)
    requires OneMoved(s, s', id, before, after) && OwnersAgree(owners, s)
    ensures OwnersAgree(if before.phase.Active() && !after.phase.Active() then Without(owners, before.mission.resources, id)
                        else if after.phase.Active() && !before.phase.Active() then With(owners, before.mission.resources, id)
                        else owners, s')
  {
    forall r ensures
      && Holders(s', r) == (if after.phase.Active() && r in after.mission.resources then Holders(s, r) + {id} else Holders(s, r) - {id})
      && (id in Holders(s, r) <==> before.phase.Active() && r in before.mission.resources)
    {
      MovedHolders(s, s', id, before, after, r);
    }
    var rs := before.mission.resources;
    hide Holders, Without, With, OwnersAgree;
    if before.phase.Active() && !after.phase.Active() {
      LeaveOwners(s, s', id, rs, owners);
    } else if after.phase.Active() && !before.phase.Active() {
      EnterOwners(s, s', id, rs, owners);
    } else {
      SameOwners(s, s', owners);
    }
  }

  lemma SameOwners(s: State, s': State, owners: map<string, set<MissionId>>)
    requires OwnersAgree(owners, s) && forall r :: Holders(s', r) == Holders(s, r)
    ensures OwnersAgree(owners, s')
  {
    hide Holders;
  }

  lemma MovedSucceeded(s: State, s': State, id: MissionId, before: Runtime, after: Runtime, t: MissionType)
    requires OneMoved(s, s', id, before, after)
    ensures var was, now := before.phase.Succeeded? && before.mission.kind == t, after.phase.Succeeded? && after.mission.kind == t;
            && (was <==> id in SucceededIds(s, t))
            && SucceededIds(s', t) == (if now then SucceededIds(s, t) + {id} else SucceededIds(s, t) - {id})
            && |SucceededIds(s', t)| == |SucceededIds(s, t)| + (if now then 1 else 0) - (if was then 1 else 0)
  {
    var now := after.phase.Succeeded? && after.mission.kind == t;
    assert SucceededIds(s', t) == if now then SucceededIds(s, t) + {id} else SucceededIds(s, t) - {id};
  }

  lemma MovedCounts(s: State, s': State, id: MissionId, before: Runtime, after: Runtime, counts: map<MissionType, nat>)
    requires OneMoved(s, s', id, before, after) && CountsAgree(counts, s)
    requires !(before.phase.Succeeded? && after.phase.Succeeded?)
    ensures var left := if before.phase.Succeeded? then Decrement(counts, before.mission.kind) else counts;
            CountsAgree(if after.phase.Succeeded? then Increment(left, before.mission.kind) else left, s')
  {
    forall t ensures
      var was, now := before.phase.Succeeded? && before.mission.kind == t, after.phase.Succeeded? && after.mission.kind == t;
      && (was <==> id in SucceededIds(s, t))
      && |SucceededIds(s', t)| == |SucceededIds(s, t)| + (if now then 1 else 0) - (if was then 1 else 0)
    {
      MovedSucceeded(s, s', id, before, after, t);
    }
    hide SucceededIds;
  }

  /** The incremental update is right for every phase change of a registered mission. */
  lemma ReindexAgrees(ix: Indexes, s: State, reg: Registration, rt: Runtime)
    requires Wired(s) && Agrees(ix, s) && reg in s.runtimes && Attached(s, reg)
    requires rt.mission == s.runtimes[reg].mission && Allowed(s.runtimes[reg].phase, rt.phase)
    ensures Agrees(Reindex(ix, rt.mission, s.runtimes[reg].phase, rt.phase), Record(s, reg, rt))
  {
    var s' := Record(s, reg, rt);
    var id := rt.mission.id;
    FindEverywhere(s, reg, rt);
    assert forall other :: Find(s', other) == Find(Put(s, reg, rt), other);
    assert OneMoved(s, s', id, s.runtimes[reg], rt);
    MovedSets(s, s', id, s.runtimes[reg], rt);
    MovedOwners(s, s', id, s.runtimes[reg], rt, ix.owners);
    MovedCounts(s, s', id, s.runtimes[reg], rt, ix.succeeded);
    hide ActiveIds, OwnersAgree, CountsAgree, OneMoved, Find;
  }

  // ---------------------------------------------------------------- what agreement depends on

  /** The scans do not see this mission. */
  ghost predicate Unseen(rt: Option<Runtime>) {
    rt.None? || Inert(rt.value.phase)
  }

  ghost predicate LooksSame(a: Option<Runtime>, b: Option<Runtime>) {
    || (Unseen(a) && Unseen(b))
    || (a.Some? && b.Some? && a.value.phase == b.value.phase && a.value.mission == b.value.mission)
  }

  /** The scans read nothing but which missions are registered, and their phases. */
  lemma AgreementStays(ix: Indexes, s: State, t: State)
    requires ScansAgree(ix, s) && forall id :: LooksSame(Find(s, id), Find(t, id))
    ensures ScansAgree(ix, t)
  {
    ScansLookSame(s, t);
    hide ActiveIds, Holders, SucceededIds, LooksSame, Find;
  }

  lemma ScansLookSame(s: State, t: State)
    requires forall id :: LooksSame(Find(s, id), Find(t, id))
    ensures ActiveIds(t) == ActiveIds(s)
    ensures forall r :: Holders(t, r) == Holders(s, r)
    ensures forall k :: SucceededIds(t, k) == SucceededIds(s, k)
  {
    forall id ensures
      && IsActive(s, id) == IsActive(t, id)
      && IsSucceeded(s, id) == IsSucceeded(t, id)
      && (IsActive(s, id) || IsSucceeded(s, id) ==> Find(s, id).value.mission == Find(t, id).value.mission)
    {
      assert LooksSame(Find(s, id), Find(t, id));
    }
    forall r ensures Holders(t, r) == Holders(s, r) {
    }
    forall k ensures SucceededIds(t, k) == SucceededIds(s, k) {
    }
  }

  /** A mission that may move to STOPPING is registered and has no intent yet. */
  lemma StoppableRecord(s: State, reg: Registration)
    requires Inv(s) && reg in s.runtimes && Allowed(s.runtimes[reg].phase, Stopping)
    ensures Followed(s, reg, Stopping) && s.runtimes[reg].pending.None?
  {
  }

  lemma ActiveRecord(s: State, reg: Registration, to: Phase)
    requires Inv(s) && reg in s.runtimes && s.runtimes[reg].phase.Active()
    ensures Followed(s, reg, to)
  {
  }

  /** A mission that never started may have left the registry, but then no scan mentions it. */
  lemma UnstartedRecord(s: State, reg: Registration, to: Phase)
    requires reg in s.runtimes && Inert(to)
    requires s.runtimes[reg].phase.Registered? || s.runtimes[reg].phase.Queued?
    ensures Followed(s, reg, to)
  {
  }

  lemma NumbersUnseen(ix: Indexes, s: State, nextIntent: nat, published: nat, stops: seq<(Registration, nat)>)
    requires Agrees(ix, s) && Wired(s)
    ensures var t := s.(nextIntent := nextIntent, published := published, stopReturns := stops);
            Agrees(ix, t) && Wired(t)
  {
    var t := s.(nextIntent := nextIntent, published := published, stopReturns := stops);
    assert forall id :: LooksSame(Find(s, id), Find(t, id));
    AgreementStays(ix, s, t);
  }

  /** Removing a mission from the registry goes with reindexing it as if it were REGISTERED again. */
  lemma ReleaseAgrees(ix: Indexes, s: State, id: MissionId)
    requires Wired(s) && Agrees(ix, s) && id in s.registry && !IsQueued(s, id)
    ensures Find(s, id).Some?
    ensures var rt := Find(s, id).value;
            Agrees(Reindex(ix, rt.mission, rt.phase, Phase.Registered), s.(registry := s.registry - {id}))
  {
    var reg := s.registry[id];
    var before := s.runtimes[reg];
    var after := before.(phase := Phase.Registered);
    var s1 := Put(s, reg, after);
    var s2 := s.(registry := s.registry - {id});
    FindEverywhere(s, reg, after);
    assert OneMoved(s, s1, id, before, after);
    MovedSets(s, s1, id, before, after);
    MovedOwners(s, s1, id, before, after, ix.owners);
    MovedCounts(s, s1, id, before, after, ix.succeeded);
    var ix' := Reindex(ix, before.mission, before.phase, Phase.Registered);
    assert ScansAgree(ix', s1);
    forall other ensures LooksSame(Find(s1, other), Find(s2, other)) {
      if other != id {
        assert Find(s1, other) == Find(s, other) == Find(s2, other);
      }
    }
    AgreementStays(ix', s1, s2);
  }

  // ---------------------------------------------------------------- records that left the registry

  /** Phases no scan mentions. */
  predicate Inert(p: Phase) {
    !p.Active() && !p.Succeeded?
  }

  /** A phase change the indexes follow: of a registered record, or between phases the scans ignore. */
  ghost predicate Followed(s: State, reg: Registration, to: Phase)
    requires reg in s.runtimes
  {
    Attached(s, reg) || (Inert(s.runtimes[reg].phase) && Inert(to))
  }

  lemma RecordAgrees(ix: Indexes, s: State, reg: Registration, rt: Runtime)
    requires Wired(s) && Agrees(ix, s) && reg in s.runtimes
    requires rt.mission == s.runtimes[reg].mission && Allowed(s.runtimes[reg].phase, rt.phase)
    requires Followed(s, reg, rt.phase)
    ensures Agrees(Reindex(ix, rt.mission, s.runtimes[reg].phase, rt.phase), Record(s, reg, rt))
  {
    if Attached(s, reg) {
      ReindexAgrees(ix, s, reg, rt);
    } else {
      FindEverywhere(s, reg, rt);
      assert forall id :: LooksSame(Find(s, id), Find(Record(s, reg, rt), id));
      AgreementStays(ix, s, Record(s, reg, rt));
    }
    hide ScansAgree, Find;
  }

  lemma PutAgrees(ix: Indexes, s: State, reg: Registration, rt: Runtime)
    requires Wired(s) && Agrees(ix, s) && reg in s.runtimes
    requires rt.mission == s.runtimes[reg].mission && rt.phase == s.runtimes[reg].phase
    ensures Agrees(ix, Put(s, reg, rt))
  {
    FindEverywhere(s, reg, rt);
    assert forall id :: LooksSame(Find(s, id), Find(Put(s, reg, rt), id));
    AgreementStays(ix, s, Put(s, reg, rt));
  }

  lemma RegisterAgrees(ix: Indexes, s: State, m: Mission)
    requires Wired(s) && Agrees(ix, s)
    ensures Agrees(ix, MissionState.Register(s, m).0)
  {
    if m.id !in s.registry {
      var s' := MissionState.Register(s, m).0;
      forall id ensures LooksSame(Find(s, id), Find(s', id)) {
        if id == m.id {
          assert Find(s', id) == Some(NewRuntime(m));
        } else {
          assert Find(s', id) == Find(s, id);
        }
      }
      AgreementStays(ix, s, s');
    }
  }

  /** Whatever a commit finds, the indexes follow. */
  lemma CommittableRecord(s: State, reg: Registration)
    requires Inv(s) && reg in s.runtimes && s.runtimes[reg].finalizer.Cleaned?
    ensures Followed(s, reg, s.runtimes[reg].finalizer.intent.phase)
    ensures !s.runtimes[reg].phase.Stopping? ==> s.runtimes[reg].finalizer.intent.phase.Failed?
    ensures s.runtimes[reg].pending == Some(s.runtimes[reg].finalizer.intent)
  {
  }
}
