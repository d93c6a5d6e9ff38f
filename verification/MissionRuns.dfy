// Following a run step by step, without its history.

module MissionRuns {
  import opened Prelude
  import opened MissionPhases
  import opened MissionState
  import opened MissionSafety

  /** What the sections of a run depend on. */
  datatype Snapshot = Snapshot(
    runtimes: map<Registration, Runtime>,
    registry: map<MissionId, Registration>,
    queueIndex: set<MissionId>,
    nextRegistration: Registration,
    nextIntent: nat)

  ghost predicate Shows(s: State, limit: Option<nat>, x: Snapshot) {
    && s.maxActive == None && s.maxQueued == limit
    && s.runtimes == x.runtimes && s.registry == x.registry && s.queueIndex == x.queueIndex
    && s.nextRegistration == x.nextRegistration && s.nextIntent == x.nextIntent
  }

  lemma StartShows(limit: Option<nat>, steps: seq<Step>)
    ensures Shows(Run(Initial(None, limit), steps[..0]), limit, Snapshot(map[], map[], {}, 0, 0))
  {
  }

  lemma Then(start: State, steps: seq<Step>, k: nat)
    requires k < |steps|
    ensures Run(start, steps[..k + 1]) == Apply(Run(start, steps[..k]), steps[k])
  {
    assert steps[..k + 1][..k] == steps[..k];
  }

  lemma Registers(s: State, limit: Option<nat>, x: Snapshot, m: Mission)
    requires Shows(s, limit, x) && m.id !in x.registry
    ensures Shows(Apply(s, DoRegister(m)), limit,
                  x.(runtimes := x.runtimes[x.nextRegistration := NewRuntime(m)],
                     registry := x.registry[m.id := x.nextRegistration], nextRegistration := x.nextRegistration + 1))
  {
  }

  /** Nobody is active and nothing is required. */
  lemma Free(s: State, m: Mission)
    requires m.prerequisites == {} && s.maxActive.None? && forall id :: id in s.registry && id != m.id ==> !IsActive(s, id)
    ensures Admissible(s, m)
  {
    assert Conflicts(s, m) == {};
    assert MissingPrerequisitesOf(s, m) == {};
  }
}
