// Missions, their runtime records, and every lock-protected section of the mission
// engine as one atomic step (mission/scheduler.py, mission/lifecycle.py, mission/engine.py).
//
// This is the reference semantics: admission scans every registered mission. Of the engine's indexes
// only the queue index is part of this state, because it need not agree with a scan: its size is what
// limits the queue, and it says what a promotion pass lists. Module MissionEngine shows that the others
// agree with the scans.

module MissionState {
  import opened Prelude
  import opened MissionPhases

  type MissionId = nat
  type Registration = nat
  type Payload = map<string, string>

  /** A mission class: its name and the names of all classes it derives from, itself included. */
  datatype MissionType = MissionType(name: string, ancestors: set<string>)

  datatype ConflictPolicy = RejectConflict | QueueConflict | PreemptLower

  datatype PrerequisitePolicy = RejectMissing | QueueMissing

  datatype Mission = Mission(
    id: MissionId,
    kind: MissionType,
    priority: int,
    resources: set<string>,
    blocks: set<string>,
    prerequisites: set<string>,
    conflictPolicy: ConflictPolicy,
    prerequisitePolicy: PrerequisitePolicy,
    queueTimeout: Option<real>,
    attempts: nat,
    retryDelay: real)

  /** The requested terminal outcome, kept until cleanup succeeds. `serial` is its identity. */
  datatype Intent = Intent(serial: nat, generation: nat, phase: Phase, result: Payload, retryable: bool)

  /** Who holds a mission's terminal lock, and how far that holder has come. */
  datatype Finalizer = Idle | Cleaning(intent: Intent) | Cleaned(intent: Intent)

  datatype Runtime = Runtime(
    mission: Mission,
    phase: Phase,
    generation: nat,
    attempt: nat,
    result: Payload,
    cleaned: bool,
    cleanupError: bool,
    pending: Option<Intent>,
    finalizer: Finalizer,
    stopRequested: bool,
    queuedAt: Option<real>,
    nextRetryAt: Option<real>,
    activeElapsed: real,
    activeSince: Option<real>)

  /** One committed phase change. */
  datatype Change = Change(registration: Registration, mission: MissionId, from: Phase, to: Phase, generation: nat)

  /**
   * `runtimes` holds every runtime record ever created, under its registration number;
   * `registry` says which of them a mission id currently stands for. A thread may keep using a
   * record after its mission was unregistered, so commands name the registration.
   * `queueIndex` are the mission ids that entered the queue, by whichever record, and did not leave it since.
   */
  datatype State = State(
    maxActive: Option<nat>,
    maxQueued: Option<nat>,
    runtimes: map<Registration, Runtime>,
    registry: map<MissionId, Registration>,
    queueIndex: set<MissionId>,
    nextRegistration: Registration,
    nextIntent: nat,
    history: seq<Change>,
    published: nat,
    stopReturns: seq<(Registration, nat)>)

  datatype Error =
    | NotFound | AlreadyRegistered | ActiveOrQueued | RegistrationChanged | NotPermitted
    | BadTransition | MissingPrerequisites | Conflict | QueueCapacity | StaleIntent
    | OtherIntent | CleanupFailed | NotWaitingForCleanup

  datatype Reply =
    | Unchanged
    | Done
    | Retrying
    | Proceed
    | Preempt(ids: set<MissionId>)
    | Requested(intent: Intent)
    | Refused(error: Error)

  // ---------------------------------------------------------------- reading the state

  function Find(s: State, id: MissionId): Option<Runtime> {
    if id in s.registry && s.registry[id] in s.runtimes then Some(s.runtimes[s.registry[id]]) else None
  }

  predicate IsActive(s: State, id: MissionId) {
    Find(s, id).Some? && Find(s, id).value.phase.Active()
  }

  predicate IsQueued(s: State, id: MissionId) {
    Find(s, id).Some? && Find(s, id).value.phase.Queued?
  }

  predicate IsSucceeded(s: State, id: MissionId) {
    Find(s, id).Some? && Find(s, id).value.phase.Succeeded?
  }

  function ActiveIds(s: State): set<MissionId> {
    set id | id in s.registry && IsActive(s, id)
  }

  function QueuedIds(s: State): set<MissionId> {
    set id | id in s.registry && IsQueued(s, id)
  }

  function SucceededIds(s: State, kind: MissionType): set<MissionId> {
    set id | id in s.registry && IsSucceeded(s, id) && Find(s, id).value.mission.kind == kind
  }

  /** The active missions that own `resource`. */
  function Holders(s: State, resource: string): set<MissionId> {
    set id | id in s.registry && IsActive(s, id) && resource in Find(s, id).value.mission.resources
  }

  /** Shared resources, or one of the two blocks a class the other derives from. */
  predicate Conflicting(a: Mission, b: Mission) {
    || a.resources * b.resources != {}
    || a.blocks * b.kind.ancestors != {}
    || b.blocks * a.kind.ancestors != {}
  }

  function Conflicts(s: State, m: Mission): set<MissionId> {
    set id | id in s.registry && id != m.id && IsActive(s, id) && Conflicting(m, Find(s, id).value.mission)
  }

  predicate PrerequisiteMet(s: State, requirement: string) {
    exists id :: id in s.registry && IsSucceeded(s, id) && requirement in Find(s, id).value.mission.kind.ancestors
  }

  function MissingPrerequisitesOf(s: State, m: Mission): set<string> {
    set r | r in m.prerequisites && !PrerequisiteMet(s, r)
  }

  predicate AtActiveCapacity(s: State) {
    s.maxActive.Some? && |ActiveIds(s)| >= s.maxActive.value
  }

  predicate AtQueueCapacity(s: State) {
    s.maxQueued.Some? && |s.queueIndex| >= s.maxQueued.value
  }

  /** Nothing stands in the way of starting `m` now. */
  predicate Admissible(s: State, m: Mission) {
    MissingPrerequisitesOf(s, m) == {} && Conflicts(s, m) == {} && !AtActiveCapacity(s)
  }

  function Denial(s: State, requester: Option<MissionId>, target: Mission): Option<Error> {
    if requester.None? || requester.value == target.id then None
    else
      match Find(s, requester.value)
      case None => Some(NotFound)
      case Some(rt) =>
        if !rt.phase.Running? || rt.mission.priority > target.priority then Some(NotPermitted) else None
  }

  /** `id` is a registered, running mission whose priority is not lower than the target's. */
  predicate MayCommand(s: State, id: MissionId, target: Mission) {
    Find(s, id).Some? && Find(s, id).value.phase.Running? && Find(s, id).value.mission.priority <= target.priority
  }

  // ---------------------------------------------------------------- committing a phase change

  function Elapsed(rt: Runtime, now: real): real {
    rt.activeElapsed + (if rt.activeSince.Some? then now - rt.activeSince.value else 0.0)
  }

  /** The runtime record after its phase becomes `to`. */
  function Advance(rt: Runtime, to: Phase, now: real): Runtime {
    var queued := if to.Queued? then rt.(queuedAt := Some(now)) else rt;
    var started :=
      if to.Starting? then
        queued.(generation := rt.generation + 1, attempt := rt.attempt + 1, result := map[],
                queuedAt := None, nextRetryAt := None, activeElapsed := 0.0, activeSince := None)
      else queued;
    var timed :=
      if to.Running? then started.(activeSince := Some(now))
      else if rt.phase.Running? then started.(activeElapsed := Elapsed(started, now), activeSince := None)
      else started;
    timed.(phase := to)
  }

  function Put(s: State, reg: Registration, rt: Runtime): State {
    s.(runtimes := s.runtimes[reg := rt])
  }

  /** A mission id enters or leaves the queue index when a record of it enters or leaves the queue. */
  function QueueAfter(q: set<MissionId>, id: MissionId, from: Phase, to: Phase): set<MissionId> {
    (if from.Queued? then q - {id} else q) + (if to.Queued? then {id} else {})
  }

  /** Replaces a record by one in another phase, and records the change. */
  function Record(s: State, reg: Registration, rt: Runtime): State
    requires reg in s.runtimes
  {
    Put(s, reg, rt).(queueIndex := QueueAfter(s.queueIndex, rt.mission.id, s.runtimes[reg].phase, rt.phase),
                     history := s.history + [Change(reg, rt.mission.id, s.runtimes[reg].phase, rt.phase, rt.generation)])
  }

  function Move(s: State, reg: Registration, to: Phase, now: real): State
    requires reg in s.runtimes
  {
    Record(s, reg, Advance(s.runtimes[reg], to, now))
  }

  function Enqueue(s: State, reg: Registration, now: real): (State, Reply)
    requires reg in s.runtimes
  {
    var rt := s.runtimes[reg];
    if rt.phase.Queued? then (s, Unchanged)
    else if AtQueueCapacity(s) then (s, Refused(QueueCapacity))
    else if !Allowed(rt.phase, Queued) then (s, Refused(BadTransition))
    else (Move(s, reg, Queued, now), Done)
  }

  /** Moves to STOPPING and records the terminal intent; the two happen under one lock. */
  function BeginStopping(s: State, reg: Registration, phase: Phase, result: Payload, retryable: bool, now: real): (State, Reply)
    requires reg in s.runtimes
  {
    var rt := s.runtimes[reg].(stopRequested := true);
    if !Allowed(rt.phase, Stopping) then (Put(s, reg, rt), Refused(BadTransition))
    else
      var stopping := Advance(rt, Stopping, now);
      if rt.pending.Some? then (Record(s, reg, stopping), Refused(OtherIntent))
      else
        var intent := Intent(s.nextIntent, stopping.generation, phase, result, retryable);
        (Record(s, reg, stopping.(pending := Some(intent))).(nextIntent := s.nextIntent + 1), Requested(intent))
  }

  // ---------------------------------------------------------------- registration

  function NewRuntime(m: Mission): Runtime {
    Runtime(m, Phase.Registered, 0, 0, map[], false, false, None, Idle, false, None, None, 0.0, None)
  }

  function Register(s: State, m: Mission): (State, Reply) {
    if m.id in s.registry then (s, Refused(AlreadyRegistered))
    else
      (s.(runtimes := s.runtimes[s.nextRegistration := NewRuntime(m)],
          registry := s.registry[m.id := s.nextRegistration],
          nextRegistration := s.nextRegistration + 1),
       Done)
  }

  /** `seen` is the registration found when the caller first looked the mission up. */
  function Unregister(s: State, id: MissionId, seen: Registration): (State, Reply) {
    if id !in s.registry then (s, Unchanged)
    else if s.registry[id] != seen then (s, Refused(RegistrationChanged))
    else if IsActive(s, id) || IsQueued(s, id) then (s, Refused(ActiveOrQueued))
    else (s.(registry := s.registry - {id}), Done)
  }

  /** Releases the terminal missions among `ids`. */
  function Discard(s: State, ids: seq<MissionId>): State
    decreases |ids|
  {
    if ids == [] then s
    else
      var rt := Find(s, ids[0]);
      var s' := if rt.Some? && rt.value.phase.Terminal() then s.(registry := s.registry - {ids[0]}) else s;
      Discard(s', ids[1..])
  }

  // ---------------------------------------------------------------- admission

  datatype Decision = Start | Wait | PreemptFirst(ids: set<MissionId>) | Deny(error: Error)

  predicate AllLower(s: State, m: Mission, ids: set<MissionId>) {
    forall id :: id in ids ==> Find(s, id).Some? && m.priority < Find(s, id).value.mission.priority
  }

  function Decide(s: State, m: Mission, capacityFirst: bool): Decision {
    if MissingPrerequisitesOf(s, m) != {} then
      if m.prerequisitePolicy.QueueMissing? then Wait else Deny(MissingPrerequisites)
    else if capacityFirst && AtActiveCapacity(s) then Wait
    else
      var conflicts := Conflicts(s, m);
      if conflicts != {} then
        match m.conflictPolicy
        case QueueConflict => Wait
        case PreemptLower => if AllLower(s, m, conflicts) then PreemptFirst(conflicts) else Deny(Conflict)
        case RejectConflict => Deny(Conflict)
      else if AtActiveCapacity(s) then Wait
      else Start
  }

  /** The first admission pass of a launch. */
  function AdmitFirst(s: State, id: MissionId, requester: Option<MissionId>, now: real): (State, Reply) {
    match Find(s, id)
    case None => (s, Refused(NotFound))
    case Some(rt) =>
      var denial := Denial(s, requester, rt.mission);
      if denial.Some? then (s, Refused(denial.value))
      else if rt.phase.Active() then (s, Unchanged)
      else
        match Decide(s, rt.mission, false)
        case Start => (s, Proceed)
        case Wait => Enqueue(s, s.registry[id], now)
        case PreemptFirst(ids) => (s, Preempt(ids))
        case Deny(e) => (s, Refused(e))
  }

  /** Starts an attempt of an admitted mission. */
  function StartAttempt(s: State, reg: Registration, now: real): (State, Reply)
    requires reg in s.runtimes
  {
    var rt := s.runtimes[reg];
    var cleared := rt.(stopRequested := false, cleaned := false);
    if rt.pending.Some? then (s, Refused(StaleIntent))
    else if !Allowed(rt.phase, Starting) then (Put(s, reg, cleared), Refused(BadTransition))
    else (Record(s, reg, Advance(cleared, Starting, now)), Done)
  }

  /** The second admission pass, after the preempted missions were stopped; it starts the mission. */
  function AdmitSecond(s: State, id: MissionId, now: real): (State, Reply) {
    match Find(s, id)
    case None => (s, Refused(NotFound))
    case Some(rt) =>
      match Decide(s, rt.mission, true)
      case Start => StartAttempt(s, s.registry[id], now)
      case Wait => Enqueue(s, s.registry[id], now)
      case PreemptFirst(ids) => (s, Preempt(ids))
      case Deny(e) => (s, Refused(e))
  }

  // ---------------------------------------------------------------- the running mission

  /** The worker thread's first section: activate the attempt, unless its guard now rejects it. */
  function WorkerBegin(s: State, reg: Registration, generation: nat, guardAllows: bool, now: real): (State, Reply)
    requires reg in s.runtimes
  {
    var rt := s.runtimes[reg];
    if rt.generation != generation || !rt.phase.Starting? then (s, Unchanged)
    else if !guardAllows then BeginStopping(s, reg, Cancelled, map[], false, now)
    else (Move(s, reg, Running, now), Done)
  }

  function PauseBegin(s: State, reg: Registration, requester: Option<MissionId>, now: real): (State, Reply)
    requires reg in s.runtimes
  {
    var rt := s.runtimes[reg];
    var denial := Denial(s, requester, rt.mission);
    if denial.Some? then (s, Refused(denial.value))
    else if rt.phase.Paused? then (s, Unchanged)
    else if !Allowed(rt.phase, Pausing) then (s, Refused(BadTransition))
    else (Move(s, reg, Pausing, now), Done)
  }

  function PauseEnd(s: State, reg: Registration, now: real): (State, Reply)
    requires reg in s.runtimes
  {
    if s.runtimes[reg].phase.Pausing? then (Move(s, reg, Paused, now), Done) else (s, Unchanged)
  }

  function ResumeEnd(s: State, reg: Registration, now: real): (State, Reply)
    requires reg in s.runtimes
  {
    if s.runtimes[reg].phase.Paused? then (Move(s, reg, Running, now), Done) else (s, Unchanged)
  }

  // ---------------------------------------------------------------- requesting an end

  function Complete(s: State, reg: Registration, result: Payload, now: real): (State, Reply)
    requires reg in s.runtimes
  {
    var rt := s.runtimes[reg];
    if rt.phase.Terminal() then (s, Unchanged)
    else if rt.phase.Stopping? then
      if rt.pending.None? then (s, Refused(BadTransition))
      else if !rt.pending.value.phase.Succeeded? then (s, Refused(OtherIntent))
      else (Put(s, reg, rt.(stopRequested := true)), Requested(rt.pending.value))
    else if !rt.phase.Running? then (s, Refused(BadTransition))
    else BeginStopping(s, reg, Succeeded, result, false, now)
  }

  function Fail(s: State, reg: Registration, retryable: bool, now: real): (State, Reply)
    requires reg in s.runtimes
  {
    var rt := s.runtimes[reg];
    if rt.phase.Terminal() then (s, Unchanged)
    else if rt.phase.Stopping? && rt.pending.Some? && !rt.pending.value.phase.Failed? then (s, Refused(OtherIntent))
    else if rt.phase.Active() && !rt.phase.Stopping? then BeginStopping(s, reg, Failed, map[], retryable, now)
    else if rt.pending.Some? then (Put(s, reg, rt.(stopRequested := true)), Requested(rt.pending.value))
    else
      var intent := Intent(s.nextIntent, rt.generation, Failed, map[], retryable);
      (Put(s, reg, rt.(stopRequested := true, pending := Some(intent))).(nextIntent := s.nextIntent + 1), Requested(intent))
  }

  /** `stop_mission` (terminal STOPPED) and `cancel` (terminal CANCELLED). */
  function Finish(s: State, reg: Registration, terminal: Phase, requester: Option<MissionId>, now: real): (State, Reply)
    requires reg in s.runtimes
    requires terminal.Stopped? || terminal.Cancelled?
  {
    var rt := s.runtimes[reg];
    var denial := Denial(s, requester, rt.mission);
    if denial.Some? then (s, Refused(denial.value))
    else if rt.phase.Terminal() then (s, Unchanged)
    else if rt.pending.Some? && rt.pending.value.phase != terminal then (s, Refused(OtherIntent))
    else if rt.phase.Registered? || rt.phase.Queued? then
      (Record(s, reg, Advance(rt.(stopRequested := true), terminal, now)),
       if rt.pending.Some? then Requested(rt.pending.value) else Done)
    else if rt.pending.Some? then (Put(s, reg, rt.(stopRequested := true)), Requested(rt.pending.value))
    else BeginStopping(s, reg, terminal, map[], false, now)
  }

  // ---------------------------------------------------------------- ending

  /** Which intent a cleanup retry would finalize. */
  function RetryCleanup(s: State, reg: Registration): Reply
    requires reg in s.runtimes
  {
    var rt := s.runtimes[reg];
    if !rt.phase.Stopping? || !rt.cleanupError || rt.pending.None? then Refused(NotWaitingForCleanup)
    else Requested(rt.pending.value)
  }

  /** Takes the terminal lock for `intent`; a caller that finds the lock held waits. */
  function FinalizeBegin(s: State, reg: Registration, intent: Intent, retryCleanup: bool): (State, Reply)
    requires reg in s.runtimes
  {
    var rt := s.runtimes[reg];
    if !rt.finalizer.Idle? then (s, Unchanged)
    else if rt.pending != Some(intent) then
      (s, if rt.pending.None? || rt.generation != intent.generation then Unchanged else Refused(BadTransition))
    else if rt.cleanupError && !retryCleanup then (s, Refused(CleanupFailed))
    else (Put(s, reg, rt.(finalizer := Cleaning(intent))), Done)
  }

  /** One cleanup attempt: `mission.stop()` runs unless it already returned for this attempt. */
  function Cleanup(s: State, reg: Registration, stopOk: bool): (State, Reply)
    requires reg in s.runtimes
  {
    var rt := s.runtimes[reg];
    if !rt.finalizer.Cleaning? then (s, Unchanged)
    else if rt.cleaned then
      (Put(s, reg, rt.(cleanupError := false, finalizer := Cleaned(rt.finalizer.intent))), Done)
    else if stopOk then
      (Put(s, reg, rt.(cleaned := true, cleanupError := false, finalizer := Cleaned(rt.finalizer.intent)))
       .(stopReturns := s.stopReturns + [(reg, rt.generation)]), Done)
    else (Put(s, reg, rt.(cleanupError := true, finalizer := Idle)), Refused(CleanupFailed))
  }

  /** The failed attempt goes back to the queue. */
  predicate WillRetry(s: State, rt: Runtime, intent: Intent) {
    intent.retryable && rt.attempt < rt.mission.attempts && !AtQueueCapacity(s)
  }

  function Requeue(s: State, reg: Registration, now: real): State
    requires reg in s.runtimes
  {
    var rt := Advance(s.runtimes[reg], Queued, now);
    Record(s, reg, rt.(nextRetryAt := Some(now + rt.mission.retryDelay)))
  }

  /** Commits the intent after cleanup and releases the terminal lock. A retryable failure is requeued, and not reported. */
  function Commit(s: State, reg: Registration, now: real): (State, Reply)
    requires reg in s.runtimes
  {
    var rt := s.runtimes[reg];
    if !rt.finalizer.Cleaned? then (s, Unchanged)
    else
      var intent := rt.finalizer.intent;
      var released := rt.(finalizer := Idle);
      if (intent.phase.Succeeded? || intent.phase.Failed?) && rt.phase.Terminal() then
        (Put(s, reg, released), Unchanged)
      else if rt.pending != Some(intent) || !Allowed(rt.phase, intent.phase) then
        (Put(s, reg, released), Refused(BadTransition))
      else
        var ended := Advance(released, intent.phase, now).(pending := None);
        var s' := Record(s, reg, if intent.phase.Succeeded? then ended.(result := intent.result) else ended);
        if intent.phase.Failed? && WillRetry(s', ended, intent) then (Requeue(s', reg, now), Retrying)
        else (s', Done)
  }

  // ---------------------------------------------------------------- queue expiry and publication

  /** The promotion loop's re-check: still the queue entry that was listed? */
  predicate StillListed(s: State, id: MissionId, generation: nat, queuedAt: Option<real>) {
    && IsQueued(s, id)
    && Find(s, id).value.generation == generation
    && Find(s, id).value.queuedAt == queuedAt
  }

  predicate QueueTimedOut(rt: Runtime, now: real) {
    rt.mission.queueTimeout.Some? && rt.queuedAt.Some? && now - rt.queuedAt.value >= rt.mission.queueTimeout.value
  }

  function ExpireQueued(s: State, id: MissionId, generation: nat, queuedAt: Option<real>, now: real): (State, Reply) {
    if !StillListed(s, id, generation, queuedAt) then (s, Unchanged)
    else if QueueTimedOut(Find(s, id).value, now) then (Move(s, s.registry[id], Failed, now), Done)
    else (s, Proceed)
  }

  /** Hands the oldest unpublished change to the transition bus. */
  function Publish(s: State): State {
    if s.published < |s.history| then s.(published := s.published + 1) else s
  }

  // ---------------------------------------------------------------- runs

  /** A lock-protected section run on one record by a thread that holds it. */
  datatype Command =
    | DoWorkerBegin(generation: nat, guardAllows: bool)
    | DoPauseBegin(requester: Option<MissionId>)
    | DoPauseEnd
    | DoResumeEnd
    | DoComplete(result: Payload)
    | DoFail(retryable: bool)
    | DoStop(requester: Option<MissionId>)
    | DoCancel(requester: Option<MissionId>)
    | DoFinalizeBegin(intent: Intent, retryCleanup: bool)
    | DoCleanup(stopOk: bool)
    | DoCommit

  datatype Step =
    | DoRegister(m: Mission)
    | DoUnregister(id: MissionId, seen: Registration)
    | DoDiscard(ids: seq<MissionId>)
    | DoAdmitFirst(id: MissionId, requester: Option<MissionId>, now: real)
    | DoAdmitSecond(id: MissionId, now: real)
    | DoExpire(id: MissionId, generation: nat, queuedAt: Option<real>, now: real)
    | DoPublish
    | On(reg: Registration, command: Command, now: real)

  function Execute(s: State, reg: Registration, c: Command, now: real): (State, Reply)
    requires reg in s.runtimes
  {
    match c
    case DoWorkerBegin(generation, guardAllows) => WorkerBegin(s, reg, generation, guardAllows, now)
    case DoPauseBegin(requester) => PauseBegin(s, reg, requester, now)
    case DoPauseEnd => PauseEnd(s, reg, now)
    case DoResumeEnd => ResumeEnd(s, reg, now)
    case DoComplete(result) => Complete(s, reg, result, now)
    case DoFail(retryable) => Fail(s, reg, retryable, now)
    case DoStop(requester) => Finish(s, reg, Stopped, requester, now)
    case DoCancel(requester) => Finish(s, reg, Cancelled, requester, now)
    case DoFinalizeBegin(intent, retryCleanup) => FinalizeBegin(s, reg, intent, retryCleanup)
    case DoCleanup(stopOk) => Cleanup(s, reg, stopOk)
    case DoCommit => Commit(s, reg, now)
  }

  /** A step on a record that does not exist does nothing. */
  function Apply(s: State, e: Step): State {
    match e
    case DoRegister(m) => Register(s, m).0
    case DoUnregister(id, seen) => Unregister(s, id, seen).0
    case DoDiscard(ids) => Discard(s, ids)
    case DoAdmitFirst(id, requester, now) => AdmitFirst(s, id, requester, now).0
    case DoAdmitSecond(id, now) => AdmitSecond(s, id, now).0
    case DoExpire(id, generation, queuedAt, now) => ExpireQueued(s, id, generation, queuedAt, now).0
    case DoPublish => Publish(s)
    case On(reg, c, now) => if reg in s.runtimes then Execute(s, reg, c, now).0 else s
  }

  function Initial(maxActive: Option<nat>, maxQueued: Option<nat>): State {
    State(maxActive, maxQueued, map[], map[], {}, 0, 0, [], 0, [])
  }

  function Run(s: State, steps: seq<Step>): State
    decreases |steps|
  {
    if steps == [] then s else Apply(Run(s, steps[..|steps| - 1]), steps[|steps| - 1])
  }
}
