// Mission chains: stages launched one after the other (mission/chain.py).

module MissionChains {
  import opened Prelude
  import opened MissionPhases
  import MissionState
  import MissionSafety
  import MissionTermination

  type Execution = nat
  /** The mission launched for a stage, or the parallel group of a parallel stage. */
  type Child = nat
  type Payload = map<string, string>

  datatype Chain = Chain(stages: seq<string>, stopOnFailure: bool)

  /** A chain has at least one stage, and no two stages of one name. */
  ghost predicate WellFormed(c: Chain) {
    c.stages != [] && NoDuplicates(c.stages)
  }

  datatype ChainRun = ChainRun(
    chain: Chain,
    index: nat,
    active: bool,
    completed: bool,
    failed: bool,
    cancelled: bool,
    stopped: bool,
    results: map<string, Payload>)

  /** The final result of one stage. */
  datatype Outcome = Outcome(node: string, phase: Phase, result: Payload)

  // ---------------------------------------------------------------- what a chain run promises

  /** What happened to a run, in order. */
  datatype Event = Launched(stage: nat) | Ended(stage: nat, phase: Phase, result: Payload)

  /** The next stage may be launched after this outcome. */
  predicate MayContinue(c: Chain, p: Phase) {
    p.Succeeded? || (p.Failed? && !c.stopOnFailure)
  }

  /**
   * Stage 0 is launched, ends, stage 1 is launched, ends, and so on: every stage at most once, in
   * order, after the one before it ended in a phase that lets the chain continue.
   */
  ghost predicate InOrder(c: Chain, events: seq<Event>) {
    && |events| <= 2 * |c.stages|
    && (forall k :: 0 <= k < |events| && k % 2 == 0 ==> events[k] == Launched(k / 2))
    && (forall k :: 0 <= k < |events| && k % 2 == 1 ==>
          events[k].Ended? && events[k].stage == k / 2 && events[k].phase.Terminal())
    && (forall k :: 0 <= k < |events| - 1 && k % 2 == 1 ==> MayContinue(c, events[k].phase))
  }

  ghost predicate SomeStageFailed(events: seq<Event>) {
    exists k :: 0 <= k < |events| && events[k].Ended? && events[k].phase.Failed?
  }

  /** The last thing that happened is that a stage was cancelled or stopped. */
  ghost predicate Interrupted(events: seq<Event>) {
    events != [] && events[|events| - 1].Ended? && (events[|events| - 1].phase.Cancelled? || events[|events| - 1].phase.Stopped?)
  }

  /** The last thing that happened is the end of a stage, in a phase after which the chain does not go on. */
  ghost predicate CutShort(c: Chain, events: seq<Event>) {
    events != [] && events[|events| - 1].Ended? && !MayContinue(c, events[|events| - 1].phase)
  }

  /** All stages have ended, and the last one in a phase that lets the chain go on. */
  ghost predicate AllDone(c: Chain, events: seq<Event>) {
    |events| == 2 * |c.stages| && events != [] && events[|events| - 1].Ended? && MayContinue(c, events[|events| - 1].phase)
  }

  ghost predicate LastEnded(events: seq<Event>, p: Phase) {
    events != [] && events[|events| - 1].Ended? && events[|events| - 1].phase == p
  }

  /** What was done to a run besides outcomes: it was failed because something went wrong, or stopped or cancelled. */
  datatype Outside = Outside(refused: bool, terminated: bool)

  /**
   * What the flags of a run say, however it ended. It is marked failed if some stage failed or something went
   * wrong, and no cancelled or stopped stage cut it short. It is completed if all stages are done, and active as
   * long as it is not completed and nothing ended it. Unless it was stopped or cancelled from outside, it is marked
   * so exactly if its last stage was.
   */
  ghost predicate Verdict(r: ChainRun, events: seq<Event>, x: Outside) {
    && (r.failed <==> !Interrupted(events) && (SomeStageFailed(events) || x.refused))
    && (r.completed <==> AllDone(r.chain, events))
    && (r.active <==> !r.completed && !CutShort(r.chain, events) && !x.refused && !x.terminated)
    && (if x.terminated then r.cancelled != r.stopped
        else (r.cancelled <==> LastEnded(events, Cancelled)) && (r.stopped <==> LastEnded(events, Stopped)))
  }

  ghost predicate StageEnded(events: seq<Event>, stage: nat) {
    exists k :: 0 <= k < |events| && events[k].Ended? && events[k].stage == stage
  }

  /** The names of the first `n` stages. */
  ghost function NamesBefore(c: Chain, n: nat): set<string>
    requires n <= |c.stages|
  {
    set name | name in c.stages[..n]
  }

  /** The results are exactly those of the stages that have ended, under their names. */
  ghost predicate ResultsOk(r: ChainRun, events: seq<Event>) {
    && |events| <= 2 * |r.chain.stages|
    && r.results.Keys == NamesBefore(r.chain, |events| / 2)
    && (forall k :: 0 <= k < |events| && events[k].Ended? ==>
          && events[k].stage < |r.chain.stages|
          && r.chain.stages[events[k].stage] in r.results
          && r.results[r.chain.stages[events[k].stage]] == events[k].result)
  }

  ghost predicate RunOk(r: ChainRun, events: seq<Event>) {
    && WellFormed(r.chain)
    && InOrder(r.chain, events)
    && r.index <= |r.chain.stages|
    && 2 * r.index <= |events| <= 2 * r.index + 2
    && (r.active ==>
          && !r.completed
          && r.index < |r.chain.stages|
          && |events| <= 2 * r.index + 1
          && (|events| > 0 && |events| == 2 * r.index ==> MayContinue(r.chain, events[|events| - 1].phase)))
    && (r.completed ==> r.index == |r.chain.stages|)
    && ResultsOk(r, events)
    && (r.active || r.completed ==> (r.failed <==> SomeStageFailed(events)))
  }

  // ---------------------------------------------------------------- one outcome

  /** Ends the run, or moves it to the next stage. */
  function Advanced(r: ChainRun, o: Outcome): ChainRun {
    var results := r.results[o.node := o.result];
    var interrupted := o.phase.Cancelled? || o.phase.Stopped?;
    if interrupted || (!o.phase.Succeeded? && r.chain.stopOnFailure) then
      r.(active := false, failed := o.phase.Failed?, cancelled := o.phase.Cancelled?, stopped := o.phase.Stopped?, results := results)
    else
      var failed := !o.phase.Succeeded? || r.failed;
      if r.index + 1 >= |r.chain.stages| then
        r.(index := r.index + 1, active := false, completed := true, failed := failed, results := results)
      else
        r.(index := r.index + 1, failed := failed, results := results)
  }

  lemma NamesGrow(c: Chain, n: nat)
    requires n < |c.stages|
    ensures NamesBefore(c, n + 1) == NamesBefore(c, n) + {c.stages[n]}
  {
    assert c.stages[..n + 1] == c.stages[..n] + [c.stages[n]];
  }

  lemma FailuresGrow(events: seq<Event>, e: Event)
    ensures SomeStageFailed(events + [e]) <==> SomeStageFailed(events) || (e.Ended? && e.phase.Failed?)
  {
    if SomeStageFailed(events) {
      var k :| 0 <= k < |events| && events[k].Ended? && events[k].phase.Failed?;
      assert (events + [e])[k] == events[k];
    }
    if e.Ended? && e.phase.Failed? {
      assert (events + [e])[|events|] == e;
    }
  }

  lemma LaunchKeepsRunOk(r: ChainRun, events: seq<Event>)
    requires RunOk(r, events) && |events| == 2 * r.index && r.index < |r.chain.stages|
    requires |events| > 0 ==> MayContinue(r.chain, events[|events| - 1].phase)
    ensures RunOk(r, events + [Launched(r.index)])
    ensures forall x :: Verdict(r, events, x) ==> Verdict(r, events + [Launched(r.index)], x)
  {
    LaunchKeepsResults(r, events);
    LaunchKeepsOrder(r.chain, events, r.index);
    hide ResultsOk, WellFormed, SomeStageFailed;
    assert |events| > 0 ==> events[|events| - 1].Ended?;
    hide InOrder;
    forall x | Verdict(r, events, x) ensures Verdict(r, events + [Launched(r.index)], x) {
      LaunchKeepsVerdict(r, events, x);
    }
    FailuresGrow(events, Launched(r.index));
    hide Verdict;
  }

  lemma LaunchKeepsOrder(c: Chain, events: seq<Event>, index: nat)
    requires InOrder(c, events) && |events| == 2 * index && index < |c.stages|
    requires |events| > 0 ==> events[|events| - 1].Ended? && MayContinue(c, events[|events| - 1].phase)
    ensures InOrder(c, events + [Launched(index)])
  {
  }

  lemma LaunchKeepsResults(r: ChainRun, events: seq<Event>)
    requires ResultsOk(r, events) && |events| == 2 * r.index && r.index < |r.chain.stages|
    ensures ResultsOk(r, events + [Launched(r.index)])
  {
    hide NamesBefore;
  }

  lemma LaunchKeepsVerdict(r: ChainRun, events: seq<Event>, x: Outside)
    requires Verdict(r, events, x) && |events| == 2 * r.index && r.index < |r.chain.stages|
    requires |events| > 0 ==> events[|events| - 1].Ended? && MayContinue(r.chain, events[|events| - 1].phase)
    ensures Verdict(r, events + [Launched(r.index)], x)
  {
    FailuresGrow(events, Launched(r.index));
    hide SomeStageFailed;
  }

  lemma OutcomeKeepsOrder(c: Chain, events: seq<Event>, index: nat, p: Phase, result: Payload)
    requires InOrder(c, events) && |events| == 2 * index + 1 && index < |c.stages| && p.Terminal()
    ensures InOrder(c, events + [Ended(index, p, result)])
  {
  }

  lemma OutcomeKeepsResults(r: ChainRun, events: seq<Event>, o: Outcome)
    requires WellFormed(r.chain) && InOrder(r.chain, events) && ResultsOk(r, events)
    requires |events| == 2 * r.index + 1 && r.index < |r.chain.stages| && o.node == r.chain.stages[r.index]
    ensures ResultsOk(r.(results := r.results[o.node := o.result]), events + [Ended(r.index, o.phase, o.result)])
  {
    NamesGrow(r.chain, r.index);
    hide NamesBefore;
    var more := events + [Ended(r.index, o.phase, o.result)];
    forall k | 0 <= k < |events| && events[k].Ended? ensures events[k].stage < r.index && r.chain.stages[events[k].stage] != o.node {
      assert k % 2 == 1;
    }
  }

  /** An outcome of the current stage keeps everything a run promises. */
  lemma AdvancedOk(r: ChainRun, events: seq<Event>, o: Outcome)
    requires RunOk(r, events) && r.active && |events| == 2 * r.index + 1
    requires o.node == r.chain.stages[r.index] && o.phase.Terminal()
    ensures RunOk(Advanced(r, o), events + [Ended(r.index, o.phase, o.result)])
    ensures Verdict(r, events, Outside(false, false)) ==>
              Verdict(Advanced(r, o), events + [Ended(r.index, o.phase, o.result)], Outside(false, false))
    ensures Advanced(r, o).active ==> MayContinue(r.chain, o.phase) && Advanced(r, o).index == r.index + 1
  {
    var more := events + [Ended(r.index, o.phase, o.result)];
    FailuresGrow(events, Ended(r.index, o.phase, o.result));
    OutcomeKeepsOrder(r.chain, events, r.index, o.phase, o.result);
    OutcomeKeepsResults(r, events, o);
    SameResults(r.(results := r.results[o.node := o.result]), Advanced(r, o), more);
    hide InOrder, SomeStageFailed, ResultsOk, WellFormed;
    assert more[|more| - 1] == Ended(r.index, o.phase, o.result);
  }

  lemma SameResults(r: ChainRun, t: ChainRun, events: seq<Event>)
    requires ResultsOk(r, events) && t.chain == r.chain && t.results == r.results
    ensures ResultsOk(t, events)
  {
  }

  // ---------------------------------------------------------------- who may move a run on

  /** A thread that works for a run, or a launched child that has not reported. */
  datatype Token = ByThread(thread: nat) | ByChild(child: Child)

  /** Where the token's holder stands. */
  datatype Stand =
    | AboutToLaunch(execution: Execution)
    | Launching(execution: Execution, index: nat)
    | CarryingOut(execution: Execution, node: string)
    | Reporting(execution: Execution, outcome: Outcome)

  /** The chain of a run and what happened to it; kept after the run is forgotten. */
  datatype Trace = Trace(chain: Chain, events: seq<Event>)

  /**
   * `refused` are the runs that were failed while active, because a launch or a report went wrong, and
   * `terminated` those that were stopped or cancelled.
   */
  datatype Board = Board(
    runs: map<Execution, ChainRun>,
    traces: map<Execution, Trace>,
    tokens: map<Token, Stand>,
    refused: set<Execution>,
    terminated: set<Execution>,
    nextExecution: Execution)

  /** What must be true of a run while this token can move it. */
  ghost predicate Fits(r: ChainRun, events: seq<Event>, at: Stand) {
    match at
    case AboutToLaunch(_) => r.active ==> CanLaunch(r, events)
    case Launching(_, i) => i == r.index && CanLaunch(r, events)
    case CarryingOut(_, node) => Awaits(r, events) && node == r.chain.stages[r.index]
    case Reporting(_, o) => Awaits(r, events) && o.node == r.chain.stages[r.index] && o.phase.Terminal()
  }

  /** The stage `r.index` has been launched and has not ended. */
  ghost predicate Awaits(r: ChainRun, events: seq<Event>) {
    r.index < |r.chain.stages| && |events| == 2 * r.index + 1
  }

  ghost predicate CanLaunch(r: ChainRun, events: seq<Event>) {
    && r.index < |r.chain.stages|
    && |events| == 2 * r.index
    && (|events| > 0 && events[|events| - 1].Ended? ==> MayContinue(r.chain, events[|events| - 1].phase))
  }

  ghost function OutsideOf(b: Board, e: Execution): Outside {
    Outside(e in b.refused, e in b.terminated)
  }

  /** Every run keeps its promises, and at most one token can move it. */
  ghost predicate BoardOk(b: Board) {
    && (forall e :: e in b.traces ==> e < b.nextExecution && InOrder(b.traces[e].chain, b.traces[e].events))
    && (forall e :: e in b.runs ==>
          && e in b.traces && b.runs[e].chain == b.traces[e].chain
          && RunOk(b.runs[e], b.traces[e].events) && Verdict(b.runs[e], b.traces[e].events, OutsideOf(b, e)))
    && (forall e :: e in b.refused || e in b.terminated ==> e < b.nextExecution)
    && (forall t :: t in b.tokens ==> b.tokens[t].execution < b.nextExecution)
    && (forall t, u :: t in b.tokens && u in b.tokens && b.tokens[t].execution == b.tokens[u].execution ==> t == u)
    && (forall t :: t in b.tokens && b.tokens[t].execution in b.runs ==>
          Fits(b.runs[b.tokens[t].execution], b.traces[b.tokens[t].execution].events, b.tokens[t]))
  }

  /** The token `t` is handed on, and its run takes a step. */
  ghost function Handed(b: Board, t: Token, next: map<Token, Stand>): Board {
    b.(tokens := (b.tokens - {t}) + next)
  }

  ghost function Stepped(b: Board, e: Execution, r: ChainRun, events: seq<Event>): Board {
    b.(runs := b.runs[e := r], traces := b.traces[e := Trace(r.chain, events)])
  }

  lemma HandingKeepsBoard(b: Board, t: Token, u: Token, at: Stand)
    requires BoardOk(b) && t in b.tokens && (u == t || u !in b.tokens)
    requires at.execution == b.tokens[t].execution
    requires at.execution in b.runs ==> at.execution in b.traces && Fits(b.runs[at.execution], b.traces[at.execution].events, at)
    ensures BoardOk(Handed(b, t, map[u := at]))
  {
    hide RunOk, InOrder, Fits, Verdict;
  }

  lemma DroppingKeepsBoard(b: Board, t: Token)
    requires BoardOk(b)
    ensures BoardOk(Handed(b, t, map[]))
  {
    hide RunOk, InOrder, Fits, Verdict;
  }

  lemma StepKeepsBoard(b: Board, e: Execution, r: ChainRun, events: seq<Event>)
    requires BoardOk(b) && e in b.runs && r.chain == b.runs[e].chain && RunOk(r, events) && Verdict(r, events, OutsideOf(b, e))
    requires forall t :: t in b.tokens && b.tokens[t].execution == e ==> Fits(r, events, b.tokens[t])
    ensures BoardOk(Stepped(b, e, r, events))
  {
    hide RunOk, InOrder, Fits, Verdict;
    RunsInOrder(r, events);
  }

  lemma RunsInOrder(r: ChainRun, events: seq<Event>)
    requires RunOk(r, events)
    ensures InOrder(r.chain, events)
  {
  }

  lemma StartKeepsBoard(b: Board, c: Chain, t: Token)
    requires BoardOk(b) && WellFormed(c) && t !in b.tokens
    ensures var e := b.nextExecution;
            BoardOk(Board(b.runs[e := NewRun(c)], b.traces[e := Trace(c, [])], b.tokens[t := AboutToLaunch(e)],
                          b.refused, b.terminated, e + 1))
  {
    hide RunOk, InOrder, Verdict, Fits, WellFormed;
    NewRunOk(c, b.nextExecution);
  }

  lemma NewRunOk(c: Chain, e: Execution)
    requires WellFormed(c)
    ensures RunOk(NewRun(c), []) && Verdict(NewRun(c), [], Outside(false, false)) && InOrder(c, []) && Fits(NewRun(c), [], AboutToLaunch(e))
  {
  }

  lemma ForgettingKeepsBoard(b: Board, e: Execution)
    requires BoardOk(b)
    ensures BoardOk(b.(runs := b.runs - {e}))
  {
    hide RunOk, InOrder, Fits, Verdict;
  }

  /** A run is stopped or cancelled, whatever it has become by then. */
  ghost function Terminated(b: Board, e: Execution, cancelled: bool): Board {
    if e in b.runs
    then b.(runs := b.runs[e := b.runs[e].(active := false, cancelled := cancelled, stopped := !cancelled)],
            terminated := b.terminated + {e})
    else b
  }

  lemma TerminatingKeepsBoard(b: Board, e: Execution, cancelled: bool)
    requires BoardOk(b)
    ensures BoardOk(Terminated(b, e, cancelled))
  {
    hide RunOk, Verdict, InOrder, Fits;
    if e in b.runs {
      var r := b.runs[e].(active := false, cancelled := cancelled, stopped := !cancelled);
      TerminatedRunOk(b.runs[e], b.traces[e].events, OutsideOf(b, e), cancelled);
      NoHolderMinds(b, e, r);
    }
  }

  lemma TerminatedRunOk(r: ChainRun, events: seq<Event>, x: Outside, cancelled: bool)
    requires RunOk(r, events) && Verdict(r, events, x)
    ensures var t := r.(active := false, cancelled := cancelled, stopped := !cancelled);
            RunOk(t, events) && Verdict(t, events, x.(terminated := true))
  {
    SameResults(r, r.(active := false, cancelled := cancelled, stopped := !cancelled), events);
    hide InOrder, WellFormed, SomeStageFailed, ResultsOk;
  }

  /** Whoever can move a run on can still hold on to it once it is no longer active. */
  lemma NoHolderMinds(b: Board, e: Execution, r: ChainRun)
    requires BoardOk(b) && e in b.runs && !r.active && r.chain == b.runs[e].chain && r.index == b.runs[e].index
    ensures e in b.traces
    ensures forall t :: t in b.tokens && b.tokens[t].execution == e ==> Fits(r, b.traces[e].events, b.tokens[t])
  {
    hide RunOk, Verdict, InOrder;
  }

  /** An active run ends as failed; a finished one stays as it is. */
  ghost function Refused(b: Board, e: Execution): Board {
    if e in b.runs && b.runs[e].active
    then b.(runs := b.runs[e := b.runs[e].(active := false, failed := true)], refused := b.refused + {e})
    else b
  }

  lemma RefusingKeepsBoard(b: Board, e: Execution)
    requires BoardOk(b)
    ensures BoardOk(Refused(b, e))
  {
    hide RunOk, Verdict, InOrder, Fits;
    if e in b.runs && b.runs[e].active {
      var r := b.runs[e].(active := false, failed := true);
      RefusedRunOk(b.runs[e], b.traces[e].events, OutsideOf(b, e));
      NoHolderMinds(b, e, r);
    }
  }

  lemma RefusedRunOk(r: ChainRun, events: seq<Event>, x: Outside)
    requires RunOk(r, events) && Verdict(r, events, x) && r.active
    ensures var t := r.(active := false, failed := true);
            RunOk(t, events) && Verdict(t, events, x.(refused := true))
  {
    SameResults(r, r.(active := false, failed := true), events);
    hide InOrder, WellFormed, SomeStageFailed, ResultsOk;
  }

  function NewRun(c: Chain): ChainRun {
    ChainRun(c, 0, true, false, false, false, false, map[])
  }

  lemma TokenFits(b: Board, t: Token)
    requires BoardOk(b) && t in b.tokens
    ensures var e := b.tokens[t].execution;
            && (e in b.runs ==>
                  && e in b.traces && b.traces[e].chain == b.runs[e].chain
                  && RunOk(b.runs[e], b.traces[e].events)
                  && Verdict(b.runs[e], b.traces[e].events, OutsideOf(b, e))
                  && Fits(b.runs[e], b.traces[e].events, b.tokens[t]))
            && (forall u :: u in b.tokens && u != t ==> b.tokens[u].execution != e)
  {
  }

  lemma RunFits(b: Board, e: Execution)
    requires BoardOk(b) && e in b.runs
    ensures e in b.traces && b.traces[e].chain == b.runs[e].chain
    ensures RunOk(b.runs[e], b.traces[e].events) && Verdict(b.runs[e], b.traces[e].events, OutsideOf(b, e))
  {
  }

  lemma ActiveCanLaunch(r: ChainRun, events: seq<Event>, at: Stand)
    requires Fits(r, events, at) && at.AboutToLaunch? && r.active
    ensures Fits(r, events, Launching(at.execution, r.index))
  {
  }

  lemma LaunchingFits(r: ChainRun, events: seq<Event>, at: Stand)
    requires Fits(r, events, at) && at.Launching? && RunOk(r, events)
    ensures at.index == r.index < |r.chain.stages|
    ensures RunOk(r, events + [Launched(r.index)])
    ensures forall x :: Verdict(r, events, x) ==> Verdict(r, events + [Launched(r.index)], x)
    ensures Fits(r, events + [Launched(r.index)], CarryingOut(at.execution, r.chain.stages[r.index]))
  {
    assert |events| > 0 ==> events[|events| - 1].Ended?;
    LaunchKeepsRunOk(r, events);
  }

  lemma ChildReports(r: ChainRun, events: seq<Event>, at: Stand, to: Stand)
    requires Fits(r, events, at) && at.CarryingOut?
    requires to.Reporting? && to.outcome.node == at.node && to.outcome.phase.Terminal()
    ensures Fits(r, events, to)
  {
  }

  lemma ActiveIsUntouched(r: ChainRun, events: seq<Event>, x: Outside)
    requires Verdict(r, events, x) && r.active
    ensures x == Outside(false, false)
  {
  }

  lemma ReportingFits(r: ChainRun, events: seq<Event>, at: Stand)
    requires Fits(r, events, at) && at.Reporting? && r.active
    requires RunOk(r, events) && Verdict(r, events, Outside(false, false))
    ensures var r', more := Advanced(r, at.outcome), events + [Ended(r.index, at.outcome.phase, at.outcome.result)];
            && RunOk(r', more) && Verdict(r', more, Outside(false, false))
            && Fits(r', more, AboutToLaunch(at.execution)) && r'.chain == r.chain
  {
    AdvancedOk(r, events, at.outcome);
  }

  lemma NewTokenKeepsBoard(b: Board, t: Token, at: Stand)
    requires BoardOk(b) && t !in b.tokens && at.execution in b.runs && at.execution in b.traces
    requires forall u :: u in b.tokens ==> b.tokens[u].execution != at.execution
    requires Fits(b.runs[at.execution], b.traces[at.execution].events, at)
    ensures BoardOk(b.(tokens := b.tokens[t := at]))
  {
    hide RunOk, InOrder, Fits, Verdict;
  }

  // ---------------------------------------------------------------- handing a run on

  /** A thread launches the stage it read: its token passes to the child. */
  ghost function Issued(b: Board, t: Token, child: Child): Board
    requires t in b.tokens && b.tokens[t].execution in b.runs && b.tokens[t].execution in b.traces
    requires b.runs[b.tokens[t].execution].index < |b.runs[b.tokens[t].execution].chain.stages|
  {
    var e := b.tokens[t].execution;
    var r := b.runs[e];
    b.(traces := b.traces[e := Trace(r.chain, b.traces[e].events + [Launched(r.index)])],
       tokens := (b.tokens - {t}) + map[ByChild(child) := CarryingOut(e, r.chain.stages[r.index])])
  }

  lemma IssueKeepsBoard(b: Board, t: Token, child: Child)
    requires BoardOk(b) && t in b.tokens && b.tokens[t].Launching? && b.tokens[t].execution in b.runs
    requires ByChild(child) !in b.tokens
    ensures var e := b.tokens[t].execution;
            && e in b.traces
            && b.tokens[t].index == b.runs[e].index < |b.runs[e].chain.stages|
            && BoardOk(Issued(b, t, child))
  {
    hide BoardOk, RunOk, Verdict, InOrder, Fits, WellFormed;
    var at := b.tokens[t];
    var e := at.execution;
    TokenFits(b, t);
    var r, events := b.runs[e], b.traces[e].events;
    LaunchingFits(r, events, at);
    DroppingKeepsBoard(b, t);
    var b1 := Handed(b, t, map[]);
    StepKeepsBoard(b1, e, r, events + [Launched(r.index)]);
    var b2 := Stepped(b1, e, r, events + [Launched(r.index)]);
    NewTokenKeepsBoard(b2, ByChild(child), CarryingOut(e, r.chain.stages[r.index]));
    assert b.runs[e := r] == b.runs;
    assert Issued(b, t, child) == b2.(tokens := b2.tokens[ByChild(child) := CarryingOut(e, r.chain.stages[r.index])]);
  }

  /** A thread hands in the outcome of the current stage, and goes on to launch the next one, if any. */
  ghost function HandedIn(b: Board, t: Token): Board
    requires t in b.tokens && b.tokens[t].Reporting? && b.tokens[t].execution in b.runs && b.tokens[t].execution in b.traces
  {
    var e, o := b.tokens[t].execution, b.tokens[t].outcome;
    var r := Advanced(b.runs[e], o);
    b.(runs := b.runs[e := r],
       traces := b.traces[e := Trace(r.chain, b.traces[e].events + [Ended(b.runs[e].index, o.phase, o.result)])],
       tokens := (b.tokens - {t}) + (if r.active then map[t := AboutToLaunch(e)] else map[]))
  }

  lemma HandingInKeepsBoard(b: Board, t: Token)
    requires BoardOk(b) && t in b.tokens && b.tokens[t].Reporting?
    requires b.tokens[t].execution in b.runs && b.runs[b.tokens[t].execution].active
    ensures b.tokens[t].execution in b.traces && BoardOk(HandedIn(b, t))
  {
    hide BoardOk, RunOk, Verdict, InOrder, Fits, WellFormed, Advanced;
    var at := b.tokens[t];
    var e := at.execution;
    TokenFits(b, t);
    var r, events := b.runs[e], b.traces[e].events;
    ActiveIsUntouched(r, events, OutsideOf(b, e));
    ReportingFits(r, events, at);
    DroppingKeepsBoard(b, t);
    var b1 := Handed(b, t, map[]);
    var more := events + [Ended(r.index, at.outcome.phase, at.outcome.result)];
    StepKeepsBoard(b1, e, Advanced(r, at.outcome), more);
    var b2 := Stepped(b1, e, Advanced(r, at.outcome), more);
    if Advanced(r, at.outcome).active {
      NewTokenKeepsBoard(b2, t, AboutToLaunch(e));
      assert HandedIn(b, t) == b2.(tokens := b2.tokens[t := AboutToLaunch(e)]);
    } else {
      assert HandedIn(b, t) == b2;
    }
  }

  /** The tokens of launched children are exactly the recorded mission runs. */
  ghost predicate Ticketed(missionRuns: map<Child, Execution>, nodes: map<Child, string>, tokens: map<Token, Stand>) {
    && (forall c :: c in missionRuns <==> ByChild(c) in tokens)
    && (forall c :: c in missionRuns ==> c in nodes && tokens[ByChild(c)] == CarryingOut(missionRuns[c], nodes[c]))
  }

  lemma NoTicket(missionRuns: map<Child, Execution>, nodes: map<Child, string>, tokens: map<Token, Stand>, child: Child)
    requires Ticketed(missionRuns, nodes, tokens) && child !in missionRuns
    ensures ByChild(child) !in tokens
  {
  }

  lemma TicketOf(missionRuns: map<Child, Execution>, nodes: map<Child, string>, tokens: map<Token, Stand>, child: Child)
    requires Ticketed(missionRuns, nodes, tokens) && child in missionRuns
    ensures ByChild(child) in tokens && child in nodes && tokens[ByChild(child)] == CarryingOut(missionRuns[child], nodes[child])
  {
  }

  lemma ThreadKeepsTickets(missionRuns: map<Child, Execution>, nodes: map<Child, string>, tokens: map<Token, Stand>,
                           thread: nat, next: map<Token, Stand>)
    requires Ticketed(missionRuns, nodes, tokens) && next.Keys <= {ByThread(thread)}
    ensures Ticketed(missionRuns, nodes, (tokens - {ByThread(thread)}) + next)
  {
  }

  lemma IssueKeepsTickets(missionRuns: map<Child, Execution>, nodes: map<Child, string>, tokens: map<Token, Stand>,
                          thread: nat, child: Child, e: Execution, node: string)
    requires Ticketed(missionRuns, nodes, tokens)
    ensures Ticketed(missionRuns[child := e], nodes[child := node],
                     (tokens - {ByThread(thread)}) + map[ByChild(child) := CarryingOut(e, node)])
  {
  }

  lemma TakingKeepsTickets(missionRuns: map<Child, Execution>, nodes: map<Child, string>, tokens: map<Token, Stand>,
                           child: Child, next: map<Token, Stand>)
    requires Ticketed(missionRuns, nodes, tokens) && forall t :: t in next ==> t.ByThread?
    ensures Ticketed(missionRuns - {child}, nodes, (tokens - {ByChild(child)}) + next)
  {
  }

  // ---------------------------------------------------------------- the executor

  class ChainExecutor {
    var runs: map<Execution, ChainRun>
    var missionRuns: map<Child, Execution>
    var nodes: map<Child, string>
    var nextExecution: Execution
    ghost var traces: map<Execution, Trace>
    ghost var tokens: map<Token, Stand>
    ghost var refused: set<Execution>
    ghost var terminated: set<Execution>

    ghost function View(): Board
      reads this
    {
      Board(runs, traces, tokens, refused, terminated, nextExecution)
    }

    ghost predicate Valid()
      reads this
    {
      BoardOk(View()) && Ticketed(missionRuns, nodes, tokens)
    }

    constructor ()
      ensures Valid() && View() == Board(map[], map[], map[], {}, {}, 0)
    {
      runs, missionRuns, nodes, nextExecution := map[], map[], map[], 0;
      traces, tokens, refused, terminated := map[], map[], {}, {};
    }

    /** Begins a run; the calling thread then launches its first stage. */
    method Start(chain: Chain, ghost thread: nat) returns (e: Execution)
      requires Valid() && WellFormed(chain) && ByThread(thread) !in tokens
      modifies this
      ensures Valid() && e == old(nextExecution) && missionRuns == old(missionRuns)
      ensures View() == Board(old(runs)[e := NewRun(chain)], old(traces)[e := Trace(chain, [])],
                              old(tokens)[ByThread(thread) := AboutToLaunch(e)], old(refused), old(terminated), e + 1)
    {
      hide BoardOk, RunOk, Verdict, InOrder, Fits, WellFormed, Ticketed;
      StartKeepsBoard(View(), chain, ByThread(thread));
      e := nextExecution;
      nextExecution := e + 1;
      runs := runs[e := NewRun(chain)];
      traces := traces[e := Trace(chain, [])];
      ThreadKeepsTickets(missionRuns, nodes, tokens, thread, map[ByThread(thread) := AboutToLaunch(e)]);
      tokens := (tokens - {ByThread(thread)}) + map[ByThread(thread) := AboutToLaunch(e)];
      assert tokens == old(tokens)[ByThread(thread) := AboutToLaunch(e)];
    }

    /** Reads the stage to launch, if the run is still active. */
    method LaunchBegin(e: Execution, ghost thread: nat) returns (entry: Option<nat>)
      requires Valid() && ByThread(thread) in tokens && tokens[ByThread(thread)] == AboutToLaunch(e)
      modifies `tokens
      ensures Valid()
      ensures entry == if e in runs && runs[e].active then Some(runs[e].index) else None
      ensures View() == Handed(old(View()), ByThread(thread),
                               if entry.Some? then map[ByThread(thread) := Launching(e, entry.value)] else map[])
    {
      hide BoardOk, RunOk, Verdict, InOrder, Fits, WellFormed, Ticketed;
      ghost var t := ByThread(thread);
      if e !in runs || !runs[e].active {
        DroppingKeepsBoard(View(), t);
        ThreadKeepsTickets(missionRuns, nodes, tokens, thread, map[]);
        tokens := (tokens - {t}) + map[];
        return None;
      }
      TokenFits(View(), t);
      ActiveCanLaunch(runs[e], traces[e].events, AboutToLaunch(e));
      HandingKeepsBoard(View(), t, t, Launching(e, runs[e].index));
      ThreadKeepsTickets(missionRuns, nodes, tokens, thread, map[t := Launching(e, runs[e].index)]);
      tokens := (tokens - {t}) + map[t := Launching(e, runs[e].index)];
      return Some(runs[e].index);
    }

    /** Registers the child as the one that carries out the stage, and launches it. */
    method LaunchIssue(e: Execution, index: nat, child: Child, ghost thread: nat) returns (ok: bool)
      requires Valid() && ByThread(thread) in tokens && tokens[ByThread(thread)] == Launching(e, index)
      requires child !in missionRuns
      modifies this
      ensures Valid() && ok == (e in old(runs))
      ensures missionRuns == if ok then old(missionRuns)[child := e] else old(missionRuns)
      ensures ok ==> e in old(traces) && index == old(runs)[e].index < |old(runs)[e].chain.stages|
      ensures View() == if ok then Issued(old(View()), ByThread(thread), child) else Handed(old(View()), ByThread(thread), map[])
    {
      hide BoardOk, RunOk, Verdict, InOrder, Fits, WellFormed, Ticketed;
      ghost var t := ByThread(thread);
      if e !in runs {
        DroppingKeepsBoard(View(), t);
        ThreadKeepsTickets(missionRuns, nodes, tokens, thread, map[]);
        tokens := (tokens - {t}) + map[];
        return false;
      }
      NoTicket(missionRuns, nodes, tokens, child);
      IssueKeepsBoard(View(), t, child);
      var node := runs[e].chain.stages[index];
      IssueKeepsTickets(missionRuns, nodes, tokens, thread, child, e, node);
      missionRuns := missionRuns[child := e];
      nodes := nodes[child := node];
      tokens := (tokens - {t}) + map[ByChild(child) := CarryingOut(e, node)];
      traces := traces[e := Trace(runs[e].chain, traces[e].events + [Launched(index)])];
      return true;
    }

    /** The launch raised before a child was registered; the run fails. */
    method LaunchRefused(e: Execution, ghost thread: nat)
      requires Valid() && ByThread(thread) in tokens && tokens[ByThread(thread)].execution == e
      modifies this
      ensures Valid() && missionRuns == old(missionRuns)
      ensures View() == Handed(Refused(old(View()), e), ByThread(thread), map[])
    {
      hide BoardOk, RunOk, Verdict, InOrder, Fits, WellFormed, Ticketed;
      ghost var t := ByThread(thread);
      DroppingKeepsBoard(View(), t);
      ThreadKeepsTickets(missionRuns, nodes, tokens, thread, map[]);
      tokens := (tokens - {t}) + map[];
      Fail(e);
    }

    /** The launched child is no longer the run's business: its command raised, or it was unregistered. */
    method ForgetMission(child: Child)
      requires Valid()
      modifies this
      ensures Valid() && missionRuns == old(missionRuns) - {child}
      ensures View() == Handed(old(View()), ByChild(child), map[])
    {
      hide BoardOk, RunOk, Verdict, InOrder, Fits, WellFormed, Ticketed;
      DroppingKeepsBoard(View(), ByChild(child));
      TakingKeepsTickets(missionRuns, nodes, tokens, child, map[]);
      missionRuns := missionRuns - {child};
      tokens := (tokens - {ByChild(child)}) + map[];
    }

    /** A child reached its final phase: the first such report takes the ticket. */
    method AfterTerminal(child: Child, phase: Phase, result: Payload, ghost thread: nat) returns (report: Option<Outcome>)
      requires Valid() && ByThread(thread) !in tokens
      modifies this
      ensures Valid() && missionRuns == old(missionRuns) - {child}
      ensures report == if child in old(missionRuns) && phase.Terminal() then Some(Outcome(old(nodes)[child], phase, result)) else None
      ensures child in old(missionRuns) && phase.Terminal() ==>
                View() == Handed(old(View()), ByChild(child), map[ByThread(thread) := Reporting(old(missionRuns)[child], report.value)])
      ensures child !in old(missionRuns) ==> View() == old(View())
      ensures child in old(missionRuns) && !phase.Terminal() ==>
                View() == Handed(Refused(old(View()), old(missionRuns)[child]), ByChild(child), map[])
    {
      hide BoardOk, RunOk, Verdict, InOrder, Fits, WellFormed, Ticketed;
      if child !in missionRuns {
        assert missionRuns - {child} == missionRuns;
        return None;
      }
      ghost var t := ByChild(child);
      var e := missionRuns[child];
      TicketOf(missionRuns, nodes, tokens, child);
      if !phase.Terminal() {
        ForgetMission(child);
        Fail(e);
        return None;
      }
      var outcome := Outcome(nodes[child], phase, result);
      TokenFits(View(), t);
      if e in runs {
        ChildReports(runs[e], traces[e].events, tokens[t], Reporting(e, outcome));
      }
      HandingKeepsBoard(View(), t, ByThread(thread), Reporting(e, outcome));
      TakingKeepsTickets(missionRuns, nodes, tokens, child, map[ByThread(thread) := Reporting(e, outcome)]);
      missionRuns := missionRuns - {child};
      tokens := (tokens - {t}) + map[ByThread(thread) := Reporting(e, outcome)];
      return Some(outcome);
    }

    /**
     * The commit of a child's end, which is reported here exactly when it is final. A failed attempt that will
     * be tried again leaves the run waiting for the same child.
     */
    method AfterCommit(child: Child, s: MissionState.State, reg: MissionState.Registration, now: real, ghost thread: nat)
      returns (report: Option<Outcome>)
      requires Valid() && ByThread(thread) !in tokens && MissionSafety.Inv(s) && reg in s.runtimes
      modifies this
      ensures Valid()
      ensures var (after, reply) := MissionState.Commit(s, reg, now);
              && (!reply.Done? ==> View() == old(View()) && missionRuns == old(missionRuns) && report.None?)
              && (reply.Done? ==> missionRuns == old(missionRuns) - {child})
              && (report.Some? <==> reply.Done? && child in old(missionRuns))
              && (report.Some? ==>
                    && reg in after.runtimes
                    && report.value == Outcome(old(nodes)[child], after.runtimes[reg].phase, after.runtimes[reg].result)
                    && report.value.phase.Terminal()
                    && View() == Handed(old(View()), ByChild(child),
                                        map[ByThread(thread) := Reporting(old(missionRuns)[child], report.value)]))
    {
      hide BoardOk, RunOk, Verdict, InOrder, Fits, WellFormed, Ticketed, MissionSafety.Inv, MissionState.Commit;
      MissionTermination.ReportedIffFinal(s, reg, now);
      var committed := MissionState.Commit(s, reg, now);
      if !committed.1.Done? {
        return None;
      }
      report := AfterTerminal(child, committed.0.runtimes[reg].phase, committed.0.runtimes[reg].result, thread);
    }

    /** Takes the outcome of the current stage; true when the next stage is to be launched. */
    method Advance(e: Execution, outcome: Outcome, ghost thread: nat) returns (launchNext: bool)
      requires Valid() && ByThread(thread) in tokens && tokens[ByThread(thread)] == Reporting(e, outcome)
      modifies this
      ensures Valid() && missionRuns == old(missionRuns)
      ensures e in old(runs) && old(runs)[e].active ==>
                e in old(traces) && View() == HandedIn(old(View()), ByThread(thread)) && launchNext == runs[e].active
      ensures !(e in old(runs) && old(runs)[e].active) ==>
                View() == Handed(old(View()), ByThread(thread), map[]) && !launchNext
    {
      hide BoardOk, RunOk, Verdict, InOrder, Fits, WellFormed, Ticketed, Advanced;
      ghost var t := ByThread(thread);
      if e !in runs || !runs[e].active {
        DroppingKeepsBoard(View(), t);
        ThreadKeepsTickets(missionRuns, nodes, tokens, thread, map[]);
        tokens := (tokens - {t}) + map[];
        return false;
      }
      HandingInKeepsBoard(View(), t);
      ghost var events := traces[e].events + [Ended(runs[e].index, outcome.phase, outcome.result)];
      var r := NextRun(runs[e], outcome);
      launchNext := r.active;
      ThreadKeepsTickets(missionRuns, nodes, tokens, thread, if launchNext then map[t := AboutToLaunch(e)] else map[]);
      runs := runs[e := r];
      traces := traces[e := Trace(r.chain, events)];
      tokens := (tokens - {t}) + (if launchNext then map[t := AboutToLaunch(e)] else map[]);
    }

    static method NextRun(run: ChainRun, outcome: Outcome) returns (r: ChainRun)
      ensures r == Advanced(run, outcome)
    {
      r := run;
      var results := r.results[outcome.node := outcome.result];
      var interrupted := outcome.phase.Cancelled? || outcome.phase.Stopped?;
      var unsuccessful := !outcome.phase.Succeeded?;
      if interrupted || (unsuccessful && r.chain.stopOnFailure) {
        r := r.(active := false, failed := outcome.phase.Failed?, cancelled := outcome.phase.Cancelled?,
                stopped := outcome.phase.Stopped?, results := results);
      } else {
        r := r.(index := r.index + 1, failed := unsuccessful || r.failed, results := results);
        if r.index >= |r.chain.stages| {
          r := r.(active := false, completed := true);
        }
      }
    }

    /** Ends an active run as failed. */
    method Fail(e: Execution)
      requires Valid()
      modifies `runs, `refused
      ensures Valid()
      ensures View() == Refused(old(View()), e)
    {
      hide BoardOk, RunOk, Verdict, InOrder, Fits, WellFormed, Ticketed;
      RefusingKeepsBoard(View(), e);
      if e in runs && runs[e].active {
        runs := runs[e := runs[e].(active := false, failed := true)];
        refused := refused + {e};
      }
    }

    /** The last section of stop and cancel; it does not look at what the run has become meanwhile. */
    method TerminateEnd(e: Execution, cancelled: bool)
      requires Valid() && e in runs
      modifies `runs, `terminated
      ensures Valid()
      ensures View() == Terminated(old(View()), e, cancelled)
    {
      hide BoardOk, RunOk, Verdict, InOrder, Fits, WellFormed, Ticketed;
      TerminatingKeepsBoard(View(), e, cancelled);
      runs := runs[e := runs[e].(active := false, cancelled := cancelled, stopped := !cancelled)];
      terminated := terminated + {e};
    }

    /** Forgets a finished run, on request or because too many are retained. */
    method Forget(e: Execution) returns (found: bool)
      requires Valid() && (e in runs ==> !runs[e].active)
      modifies `runs
      ensures Valid() && found == (e in old(runs)) && runs == old(runs) - {e}
    {
      hide BoardOk, RunOk, Verdict, InOrder, Fits, WellFormed, Ticketed;
      ForgettingKeepsBoard(View(), e);
      found := e in runs;
      runs := runs - {e};
    }
  }

  // ---------------------------------------------------------------- what the executor guarantees

  /** A stage is launched at most once, and only right after the one before it ended well enough. */
  lemma StagesLaunchInOrder(b: Board, e: Execution, k: nat)
    requires BoardOk(b) && e in b.traces && k < |b.traces[e].events| && b.traces[e].events[k].Launched?
    ensures var events := b.traces[e].events; var i := events[k].stage;
            && i < |b.traces[e].chain.stages|
            && (forall j :: 0 <= j < |events| && events[j] == Launched(i) ==> j == k)
            && (i > 0 ==>
                  && k > 0 && events[k - 1].Ended? && events[k - 1].stage == i - 1
                  && (events[k - 1].phase.Succeeded? || (events[k - 1].phase.Failed? && !b.traces[e].chain.stopOnFailure)))
  {
    hide RunOk, WellFormed;
    var events := b.traces[e].events;
    assert InOrder(b.traces[e].chain, events);
    assert k % 2 == 0 && events[k] == Launched(k / 2);
    if k > 0 {
      assert (k - 1) % 2 == 1 && MayContinue(b.traces[e].chain, events[k - 1].phase);
    }
    forall j | 0 <= j < |events| && events[j] == events[k] ensures j == k {
      assert j % 2 == 0;
    }
  }

  /** Every stage was launched and has ended, and the last one lets the chain go on. */
  ghost predicate Finished(c: Chain, events: seq<Event>) {
    && (forall i :: 0 <= i < |c.stages| ==> StageEnded(events, i))
    && !CutShort(c, events)
  }

  lemma AllDoneMeans(c: Chain, events: seq<Event>)
    requires WellFormed(c) && InOrder(c, events)
    ensures AllDone(c, events) <==> Finished(c, events)
  {
    if AllDone(c, events) {
      forall i | 0 <= i < |c.stages| ensures StageEnded(events, i) {
        assert events[2 * i + 1].Ended? && events[2 * i + 1].stage == (2 * i + 1) / 2;
      }
    }
    if Finished(c, events) {
      var n := |c.stages|;
      assert StageEnded(events, n - 1);
      var k :| 0 <= k < |events| && events[k].Ended? && events[k].stage == n - 1;
      assert k % 2 == 1 && k / 2 == n - 1;
    }
  }

  /**
   * What a run shows at any time. It is completed if and only if every stage has ended and the last one lets the
   * chain go on; it is active if and only if it is neither completed, nor cut short by a stage, nor failed, stopped or
   * cancelled from outside. Its results are those of the stages that have ended. It is marked failed exactly if a stage
   * failed or something went wrong, and no cancelled or stopped stage cut it short. An outcome that ends it marks it
   * cancelled or stopped exactly if that is what the stage was.
   */
  lemma RunShows(b: Board, e: Execution)
    requires BoardOk(b) && e in b.runs
    ensures e in b.traces
    ensures var r, events := b.runs[e], b.traces[e].events;
            && r.index <= |r.chain.stages| && |events| <= 2 * |r.chain.stages|
            && (r.completed <==> Finished(r.chain, events))
            && (r.active <==> !r.completed && !CutShort(r.chain, events) && e !in b.refused && e !in b.terminated)
            && (r.failed <==> !Interrupted(events) && (SomeStageFailed(events) || e in b.refused))
            && (e !in b.terminated ==>
                  (r.cancelled <==> LastEnded(events, Cancelled)) && (r.stopped <==> LastEnded(events, Stopped)))
            && (e in b.terminated ==> r.cancelled != r.stopped)
            && (r.active || r.completed ==>
                  && r.results.Keys == (set name | name in r.chain.stages[..r.index])
                  && (r.failed <==> SomeStageFailed(events)))
            && (forall i :: 0 <= i < |r.chain.stages| ==> (r.chain.stages[i] in r.results <==> StageEnded(events, i)))
            && (forall k :: 0 <= k < |events| && events[k].Ended? ==>
                  && events[k].stage < |r.chain.stages| && r.chain.stages[events[k].stage] in r.results
                  && r.results[r.chain.stages[events[k].stage]] == events[k].result)
  {
    RunFits(b, e);
    hide BoardOk, SomeStageFailed, WellFormed, InOrder, NamesBefore, StageEnded, Finished, AllDone, CutShort, Interrupted;
    var r, events := b.runs[e], b.traces[e].events;
    AllDoneMeans(r.chain, events);
    ResultsShow(r, events);
    if r.active || r.completed {
      NamesOf(r, events);
    }
  }

  lemma NamesOf(r: ChainRun, events: seq<Event>)
    requires RunOk(r, events) && (r.active || (r.completed && AllDone(r.chain, events)))
    ensures r.results.Keys == (set name | name in r.chain.stages[..r.index])
  {
    hide InOrder, SomeStageFailed, WellFormed;
    assert |events| / 2 == r.index;
  }

  lemma ResultsShow(r: ChainRun, events: seq<Event>)
    requires WellFormed(r.chain) && InOrder(r.chain, events) && ResultsOk(r, events)
    ensures forall i :: 0 <= i < |r.chain.stages| ==> (r.chain.stages[i] in r.results <==> StageEnded(events, i))
  {
    var done := |events| / 2;
    forall i | 0 <= i < |r.chain.stages| ensures r.chain.stages[i] in r.results <==> StageEnded(events, i) {
      if i < done {
        assert events[2 * i + 1].Ended? && events[2 * i + 1].stage == (2 * i + 1) / 2;
        assert r.chain.stages[..done][i] == r.chain.stages[i];
      }
    }
  }

  /**
   * A run that an outcome ends is marked failed exactly when some stage failed, unless the outcome
   * is CANCELLED or STOPPED and an earlier stage had failed: that failure is dropped.
   */
  lemma InterruptionDropsFailure(b: Board, t: Token)
    requires BoardOk(b) && t in b.tokens && b.tokens[t].Reporting?
    requires b.tokens[t].execution in b.runs && b.runs[b.tokens[t].execution].active
    ensures var e, p := b.tokens[t].execution, b.tokens[t].outcome.phase;
            && e in b.traces
            && var after := HandedIn(b, t);
            && after.traces[e].events == b.traces[e].events + [Ended(b.runs[e].index, p, b.tokens[t].outcome.result)]
            && ((after.runs[e].failed <==> SomeStageFailed(after.traces[e].events)) <==>
                  !((p.Cancelled? || p.Stopped?) && SomeStageFailed(b.traces[e].events)))
  {
    hide BoardOk, RunOk, InOrder, WellFormed, SomeStageFailed, Advanced;
    var e, p := b.tokens[t].execution, b.tokens[t].outcome.phase;
    TokenFits(b, t);
    HandingInKeepsBoard(b, t);
    RunFits(HandedIn(b, t), e);
    FailuresGrow(b.traces[e].events, Ended(b.runs[e].index, p, b.tokens[t].outcome.result));
  }

  /** Two stages, and the chain goes on after a failure. */
  function Survey(): Chain {
    Chain(["a", "b"], false)
  }

  /** One stage of `Survey` is read, launched, carried out and handed in. */
  ghost function StageDone(b: Board, stage: nat, p: Phase): Board
    requires stage < 2 && 0 in b.runs && 0 in b.traces && b.runs[0].chain == Survey() && b.runs[0].index == stage
  {
    var launching := Handed(b, ByThread(0), map[ByThread(0) := Launching(0, stage)]);
    var issued := Issued(launching, ByThread(0), stage);
    var report := Reporting(0, Outcome(Survey().stages[stage], p, map[]));
    HandedIn(Handed(issued, ByChild(stage), map[ByThread(0) := report]), ByThread(0))
  }

  /** Stage 0 of a new run fails, and stage 1 is cancelled: the run is not marked failed. */
  lemma FailedThenCancelled()
    ensures var begun := Board(map[0 := NewRun(Survey())], map[0 := Trace(Survey(), [])], map[ByThread(0) := AboutToLaunch(0)], {}, {}, 1);
            var first := StageDone(begun, 0, Failed);
            && 0 in first.runs && 0 in first.traces && first.runs[0].chain == Survey() && first.runs[0].index == 1
            && first.runs[0].active && first.runs[0].failed && first.tokens == map[ByThread(0) := AboutToLaunch(0)]
            && var last := StageDone(first, 1, Cancelled);
            && 0 in last.runs && 0 in last.traces
            && SomeStageFailed(last.traces[0].events) && last.runs[0].cancelled && !last.runs[0].failed
  {
    var begun := Board(map[0 := NewRun(Survey())], map[0 := Trace(Survey(), [])], map[ByThread(0) := AboutToLaunch(0)], {}, {}, 1);
    var first := StageDone(begun, 0, Failed);
    var last := StageDone(first, 1, Cancelled);
    assert last.traces[0].events[1] == Ended(0, Failed, map[]);
  }
}
