// Stopping active missions to make room for another one (mission/scheduler.py, mission/lifecycle.py).

module MissionPreemption {
  import opened Prelude
  import opened MissionPhases
  import opened MissionState
  import opened MissionSafety

  /** What a mission does when it is told to stop: its worker may not end in time, and its `stop()` may raise. */
  datatype StopOutcome = Returns | Raises | Hangs

  /** Runs an intent to its end. If another thread holds the terminal lock, that thread finishes first. */
  function Finalized(s: State, reg: Registration, intent: Intent, stopOk: bool, now: real): (State, bool)
    requires reg in s.runtimes
  {
    var begun := FinalizeBegin(s, reg, intent, false);
    if begun.1.Refused? then (begun.0, false)
    else
      var cleaned := Cleanup(begun.0, reg, stopOk);
      if cleaned.1.Refused? then (cleaned.0, false)
      else
        var committed := Commit(cleaned.0, reg, now);
        (committed.0, !committed.1.Refused?)
  }

  /** Stops one mission; the flag says that the call returned instead of raising. */
  function StopOne(s: State, id: MissionId, outcome: StopOutcome, now: real): (State, bool) {
    if Find(s, id).None? then (s, false)
    else
      var asked := Finish(s, s.registry[id], Stopped, None, now);
      if !asked.1.Requested? then (asked.0, !asked.1.Refused?)
      else if outcome.Hangs? then (asked.0, false)
      else Finalized(asked.0, s.registry[id], asked.1.intent, outcome.Returns?, now)
  }

  /** Stops missions one after the other, until a call raises. */
  function StopAll(s: State, victims: seq<MissionId>, outcome: MissionId -> StopOutcome, now: real): (State, bool)
    decreases |victims|
  {
    if victims == [] then (s, true)
    else
      var before := StopAll(s, victims[..|victims| - 1], outcome, now);
      var last := victims[|victims| - 1];
      if before.1 then StopOne(before.0, last, outcome(last), now) else before
  }

  // ---------------------------------------------------------------- what stopping touches

  /** An active mission that can be stopped now: nobody wants another end, and cleanup has not failed, and does not. */
  predicate Yields(rt: Runtime, outcome: StopOutcome) {
    && !outcome.Hangs?
    && (rt.pending.Some? ==> rt.pending.value.phase.Stopped? && !(rt.cleanupError && rt.finalizer.Idle?))
    && (outcome.Returns? || rt.cleaned)
  }

  ghost predicate StoppingChange(c: Change, ids: set<MissionId>) {
    c.mission in ids && c.from.Active() && (c.to.Stopping? || c.to.Stopped?)
  }

  ghost predicate SameOrStopped(before: Option<Runtime>, after: Option<Runtime>) {
    && before.Some? && after.Some?
    && after.value.mission == before.value.mission
    && before.value.phase.Active()
    && (after.value.phase.Active() || after.value.phase.Stopped?)
  }

  /** Only the missions in `ids` were touched; they were active, and are active or STOPPED now. */
  ghost predicate StopsOnly(s: State, t: State, ids: set<MissionId>) {
    && t.registry == s.registry && t.maxActive == s.maxActive && t.maxQueued == s.maxQueued
    && (forall id :: id !in ids ==> Find(t, id) == Find(s, id))
    && (forall id :: id in ids ==> SameOrStopped(Find(s, id), Find(t, id)))
    && s.history <= t.history
    && (forall k :: |s.history| <= k < |t.history| ==> StoppingChange(t.history[k], ids))
  }

  lemma StopsChain(s: State, t: State, u: State, a: set<MissionId>, b: set<MissionId>)
    requires StopsOnly(s, t, a) && StopsOnly(t, u, b)
    ensures StopsOnly(s, u, a + b)
  {
    forall id | id in a + b ensures SameOrStopped(Find(s, id), Find(u, id)) {
      assert id !in a ==> Find(t, id) == Find(s, id);
      assert id !in b ==> Find(u, id) == Find(t, id);
    }
    forall k | |s.history| <= k < |u.history| ensures StoppingChange(u.history[k], a + b) {
      assert k < |t.history| ==> u.history[k] == t.history[k];
    }
  }

  /** An active mission's record is replaced. */
  lemma PutStopsOnly(s: State, id: MissionId, rt: Runtime)
    requires Wired(s) && IsActive(s, id) && rt.mission == Find(s, id).value.mission
    requires rt.phase.Active() || rt.phase.Stopped?
    ensures StopsOnly(s, Put(s, s.registry[id], rt), {id})
    ensures Find(Put(s, s.registry[id], rt), id) == Some(rt)
  {
  }

  lemma RecordStopsOnly(s: State, id: MissionId, rt: Runtime)
    requires Wired(s) && IsActive(s, id) && rt.mission == Find(s, id).value.mission
    requires rt.phase.Stopping? || rt.phase.Stopped?
    ensures StopsOnly(s, Record(s, s.registry[id], rt), {id})
    ensures Find(Record(s, s.registry[id], rt), id) == Some(rt)
  {
  }

  /** Counters outside the records do not matter. */
  lemma NumbersDoNotStop(s: State, t: State, ids: set<MissionId>, nextIntent: nat, stopReturns: seq<(Registration, nat)>)
    requires StopsOnly(s, t, ids)
    ensures var u := t.(nextIntent := nextIntent, stopReturns := stopReturns);
            StopsOnly(s, u, ids) && forall id :: Find(u, id) == Find(t, id)
  {
    var u := t.(nextIntent := nextIntent, stopReturns := stopReturns);
    assert forall id :: Find(u, id) == Find(t, id);
  }

  // ---------------------------------------------------------------- stopping one mission

  lemma ActiveRecordOk(s: State, id: MissionId)
    requires Inv(s) && IsActive(s, id)
    ensures id in s.registry && s.registry[id] in s.runtimes && Find(s, id) == Some(s.runtimes[s.registry[id]])
    ensures Wired(s) && RuntimeOk(Find(s, id).value) && Find(s, id).value.mission.id == id
  {
  }

  /** The request: refused if another end is wanted, otherwise the mission is STOPPING with a STOPPED intent. */
  lemma RequestDoes(s: State, id: MissionId, now: real)
    requires Inv(s) && IsActive(s, id)
    ensures var asked := Finish(s, s.registry[id], Stopped, None, now);
            var rt := Find(s, id).value;
            && Inv(asked.0) && StopsOnly(s, asked.0, {id}) && IsActive(asked.0, id)
            && (asked.1.Requested? || asked.1.Refused?)
            && (asked.1.Refused? <==> rt.pending.Some? && !rt.pending.value.phase.Stopped?)
            && (asked.1.Requested? ==>
                  var after := Find(asked.0, id).value;
                  && after.phase.Stopping? && after.pending == Some(asked.1.intent) && asked.1.intent.phase.Stopped?
                  && after.cleaned == rt.cleaned && after.finalizer == rt.finalizer && after.cleanupError == rt.cleanupError
                  && (rt.pending.None? ==> !after.cleanupError))
  {
    hide Inv;
    var reg := s.registry[id];
    ActiveRecordOk(s, id);
    FinishKeepsInv(s, reg, Stopped, None, now);
    var rt := s.runtimes[reg];
    var asked := rt.(stopRequested := true);
    if rt.pending.Some? {
      PutStopsOnly(s, id, if rt.pending.value.phase.Stopped? then asked else rt);
      assert Put(s, reg, rt) == s;
    } else {
      BeginStoppingDoes(s, id, now);
      hide BeginStopping, StopsOnly, RuntimeOk, Wired;
    }
  }

  lemma BeginStoppingDoes(s: State, id: MissionId, now: real)
    requires Inv(s) && IsActive(s, id) && Find(s, id).value.pending.None?
    ensures var begun := BeginStopping(s, s.registry[id], Stopped, map[], false, now);
            var rt := Find(s, id).value;
            && StopsOnly(s, begun.0, {id}) && IsActive(begun.0, id) && begun.1.Requested?
            && var after := Find(begun.0, id).value;
               && after.phase.Stopping? && after.pending == Some(begun.1.intent) && begun.1.intent.phase.Stopped?
               && after.cleaned == rt.cleaned && after.finalizer == rt.finalizer && !rt.cleanupError && !after.cleanupError
  {
    ActiveRecordOk(s, id);
    hide Inv, StopsOnly;
    var reg := s.registry[id];
    var stopping := Advance(s.runtimes[reg].(stopRequested := true), Stopping, now);
    var intent := Intent(s.nextIntent, stopping.generation, Stopped, map[], false);
    RecordStopsOnly(s, id, stopping.(pending := Some(intent)));
    var t := Record(s, reg, stopping.(pending := Some(intent)));
    NumbersDoNotStop(s, t, {id}, s.nextIntent + 1, s.stopReturns);
  }

  /** Cleanup and commit, from a STOPPING mission with a STOPPED intent. */
  lemma FinalizedDoes(s: State, id: MissionId, stopOk: bool, now: real)
    requires Inv(s) && IsActive(s, id)
    requires var rt := Find(s, id).value; rt.phase.Stopping? && rt.pending.Some? && rt.pending.value.phase.Stopped?
    ensures var rt := Find(s, id).value;
            var done := Finalized(s, s.registry[id], rt.pending.value, stopOk, now);
            && Inv(done.0) && StopsOnly(s, done.0, {id}) && Find(done.0, id).Some?
            && (done.1 <==> !(rt.cleanupError && rt.finalizer.Idle?) && (stopOk || rt.cleaned))
            && (if done.1 then Find(done.0, id).value.phase.Stopped? else IsActive(done.0, id))
  {
    hide Inv;
    var reg, intent := s.registry[id], Find(s, id).value.pending.value;
    ActiveRecordOk(s, id);
    LockDoes(s, id);
    var begun := FinalizeBegin(s, reg, intent, false);
    if !begun.1.Refused? {
      ActiveRecordOk(begun.0, id);
      CleanupDoes(begun.0, id, stopOk);
      var cleaned := Cleanup(begun.0, reg, stopOk);
      hide FinalizeBegin, Cleanup, Commit, StopsOnly;
      StopsChain(s, begun.0, cleaned.0, {id}, {id});
      assert {id} + {id} == {id};
      if !cleaned.1.Refused? {
        CommitDoes(cleaned.0, id, now);
        StopsChain(s, cleaned.0, Commit(cleaned.0, reg, now).0, {id}, {id});
      }
      StopsOnlyFinds(s, begun.0, id);
      StopsOnlyFinds(s, cleaned.0, id);
    }
  }

  lemma StopsOnlyFinds(s: State, t: State, id: MissionId)
    requires StopsOnly(s, t, {id})
    ensures t.registry == s.registry
  {
  }

  lemma LockDoes(s: State, id: MissionId)
    requires Inv(s) && IsActive(s, id)
    requires var rt := Find(s, id).value; rt.phase.Stopping? && rt.pending.Some?
    ensures var rt := Find(s, id).value;
            var begun := FinalizeBegin(s, s.registry[id], rt.pending.value, false);
            && Inv(begun.0) && StopsOnly(s, begun.0, {id}) && IsActive(begun.0, id)
            && (begun.1.Refused? <==> rt.cleanupError && rt.finalizer.Idle?)
            && (!begun.1.Refused? ==>
                  var after := Find(begun.0, id).value;
                  after == rt.(finalizer := after.finalizer) && !after.finalizer.Idle?)
  {
    hide Inv;
    ActiveRecordOk(s, id);
    var reg, rt := s.registry[id], Find(s, id).value;
    ExecuteKeepsInv(s, reg, DoFinalizeBegin(rt.pending.value, false), 0.0);
    var locked := rt.(finalizer := Cleaning(rt.pending.value));
    PutStopsOnly(s, id, if rt.finalizer.Idle? && !rt.cleanupError then locked else rt);
    assert Put(s, reg, rt) == s;
  }

  lemma CleanupDoes(s: State, id: MissionId, stopOk: bool)
    requires Inv(s) && IsActive(s, id) && Find(s, id).value.phase.Stopping? && !Find(s, id).value.finalizer.Idle?
    ensures var rt := Find(s, id).value;
            var cleaned := Cleanup(s, s.registry[id], stopOk);
            && Inv(cleaned.0) && StopsOnly(s, cleaned.0, {id}) && IsActive(cleaned.0, id)
            && (cleaned.1.Refused? <==> !stopOk && !rt.cleaned)
            && (!cleaned.1.Refused? ==>
                  var after := Find(cleaned.0, id).value;
                  after.phase.Stopping? && after.pending == rt.pending && after.finalizer.Cleaned?)
  {
    hide Inv;
    ActiveRecordOk(s, id);
    var reg, rt := s.registry[id], Find(s, id).value;
    CleanupKeepsInv(s, reg, stopOk);
    var after := if rt.finalizer.Cleaned? then rt
                 else if rt.cleaned then rt.(cleanupError := false, finalizer := Cleaned(rt.finalizer.intent))
                 else if stopOk then rt.(cleaned := true, cleanupError := false, finalizer := Cleaned(rt.finalizer.intent))
                 else rt.(cleanupError := true, finalizer := Idle);
    PutStopsOnly(s, id, after);
    assert Put(s, reg, rt) == s;
    NumbersDoNotStop(s, Put(s, reg, after), {id}, s.nextIntent, s.stopReturns + [(reg, rt.generation)]);
  }

  lemma CommitDoes(s: State, id: MissionId, now: real)
    requires Inv(s) && IsActive(s, id) && Find(s, id).value.phase.Stopping? && Find(s, id).value.finalizer.Cleaned?
    requires Find(s, id).value.pending.Some? && Find(s, id).value.pending.value.phase.Stopped?
    ensures var committed := Commit(s, s.registry[id], now);
            && Inv(committed.0) && StopsOnly(s, committed.0, {id})
            && committed.1 == Done && Find(committed.0, id).Some? && Find(committed.0, id).value.phase.Stopped?
  {
    hide Inv;
    ActiveRecordOk(s, id);
    var reg, rt := s.registry[id], Find(s, id).value;
    CommitKeepsInv(s, reg, now);
    var ended := Advance(rt.(finalizer := Idle), Stopped, now).(pending := None);
    RecordStopsOnly(s, id, ended);
  }

  /**
   * Stopping an active mission touches no other mission, and ends it as STOPPED if and only if it
   * yields; otherwise the mission stays active and the call raises.
   */
  lemma StopOneDoes(s: State, id: MissionId, outcome: StopOutcome, now: real)
    requires Inv(s) && IsActive(s, id)
    ensures var done := StopOne(s, id, outcome, now);
            && Inv(done.0) && StopsOnly(s, done.0, {id}) && Find(done.0, id).Some?
            && (done.1 <==> Yields(Find(s, id).value, outcome))
            && (if done.1 then Find(done.0, id).value.phase.Stopped? else IsActive(done.0, id))
  {
    hide Inv, Finish, Finalized;
    ActiveRecordOk(s, id);
    RequestDoes(s, id, now);
    var asked := Finish(s, s.registry[id], Stopped, None, now);
    if asked.1.Requested? && !outcome.Hangs? {
      StopsOnlyFinds(s, asked.0, id);
      ActiveRecordOk(asked.0, id);
      FinalizedDoes(asked.0, id, outcome.Returns?, now);
      var done := Finalized(asked.0, s.registry[id], asked.1.intent, outcome.Returns?, now);
      hide StopsOnly;
      StopsChain(s, asked.0, done.0, {id}, {id});
      assert {id} + {id} == {id};
    }
  }

  // ---------------------------------------------------------------- stopping several

  function Members(s: seq<MissionId>): set<MissionId> {
    set id | id in s
  }

  /** The missions are stopped, all of them, exactly when each of them yields. */
  lemma {:induction false} StopAllDoes(s: State, victims: seq<MissionId>, outcome: MissionId -> StopOutcome, now: real)
    requires Inv(s) && NoDuplicates(victims) && forall id :: id in victims ==> IsActive(s, id)
    ensures var done := StopAll(s, victims, outcome, now);
            && Inv(done.0) && StopsOnly(s, done.0, Members(victims))
            && (done.1 <==> forall id :: id in victims ==> Yields(Find(s, id).value, outcome(id)))
            && (done.1 ==> forall id :: id in victims ==> Find(done.0, id).Some? && Find(done.0, id).value.phase.Stopped?)
    decreases |victims|
  {
    hide Inv, Yields, StopOne;
    if victims != [] {
      var n := |victims| - 1;
      var last := victims[n];
      StopAllDoes(s, victims[..n], outcome, now);
      var before := StopAll(s, victims[..n], outcome, now);
      assert victims == victims[..n] + [last] && last !in victims[..n];
      assert Members(victims) == Members(victims[..n]) + {last};
      if before.1 {
        assert Find(before.0, last) == Find(s, last);
        StopOneDoes(before.0, last, outcome(last), now);
        StopsChain(s, before.0, StopOne(before.0, last, outcome(last), now).0, Members(victims[..n]), {last});
      } else {
        StopsMore(s, before.0, Members(victims[..n]), last);
      }
    }
  }

  lemma StopsMore(s: State, t: State, ids: set<MissionId>, id: MissionId)
    requires StopsOnly(s, t, ids) && IsActive(s, id)
    ensures StopsOnly(s, t, ids + {id})
  {
  }
}
