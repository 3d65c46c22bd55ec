/** Committing a result, and recovering a prepared execution. */
module Committing {
  import opened Domain
  import opened Store
  import opened Policy
  import opened Nodes
  import opened Invariant
  import opened Steps
  import opened Writes

  lemma {:induction false} FindByIndex(xs: seq<Execution>, base: nat, i: nat)
    requires i < |xs| && forall j :: 0 <= j < |xs| ==> xs[j].action == base + j
    ensures FindExecution(xs, base + i) == Some(xs[i])
  {
    if i > 0 {
      assert xs[0].action == base + 0;
      FindByIndex(xs[1..], base + 1, i - 1);
    }
  }

  lemma {:induction false} RecordAt(ledger: seq<Evidence>, i: nat)
    requires forall j :: 0 <= j < |ledger| ==> ledger[j].action == j
    ensures RecordOf(ledger, i) == if i < |ledger| then Some(ledger[i]) else None
  {
    if ledger != [] && ledger[|ledger| - 1].action != i { RecordAt(ledger[..|ledger| - 1], i); }
  }

  /** The unfinished execution of a running tool. */
  function Current(d: Disk): Execution
    requires d.state.executions != []
  {
    d.state.executions[|d.state.executions| - 1]
  }

  lemma RunningFacts(env: Env, d: Disk)
    requires Inv(env, d) && d.state.status.RunningTool?
    ensures |d.state.executions| == |d.state.evidenceRefs| + 1 && AdmissionOpen(d.state) && !Sealed(d.state)
    ensures Current(d).status.Prepared? && Current(d).action == |d.state.evidenceRefs|
      && Current(d).step == d.state.step
    ensures FindExecution(d.state.executions, Current(d).action) == Some(Current(d))
    ensures |d.ledger| == |d.state.evidenceRefs| || |d.ledger| == |d.state.evidenceRefs| + 1
    ensures RecordOf(d.ledger, Current(d).action) ==
      if |d.ledger| == |d.state.evidenceRefs| then None else Some(d.ledger[|d.ledger| - 1])
    ensures |d.ledger| == |d.state.evidenceRefs| + 1 ==>
      Answers(env, d.ledger[|d.ledger| - 1], Current(d), |d.state.evidenceRefs|)
  {
    hide Replay, Account, AllAllowed, Truthful, Approvable, Known, UniqueKeys, SumCost, CountAdaptive, ProposalOf,
      ReviewOf, LatestBudget, LatestBoundary, Codes, TestsIn, Spent, Proposal, Roles, Budgets, NoAdaptive, Proposed,
      Reviewed, Counted, Live, DispositionOf, Decisive, FindExecution, RecordOf;
    var xs := d.state.executions;
    assert xs[|xs| - 1] in xs;
    FindByIndex(xs, 0, |xs| - 1);
    RecordAt(d.ledger, |xs| - 1);
  }

  /** All committed candidate measurements are quoted from the ledger. */
  lemma {:induction false} ReplayProvenance(env: Env, es: seq<Evidence>, all: seq<Evidence>)
    requires es <= all && forall i :: 0 <= i < |es| ==> es[i].id == EvidenceId(es[i].result)
    ensures forall c, n :: c in Replay(env, es).candidates && n in c.measurements ==>
      QuotedIn(c.measurements[n], n, all)
  {
    if es != [] {
      var e := es[|es| - 1];
      ReplayProvenance(env, es[..|es| - 1], all);
      assert e in all by { assert all[|es| - 1] == e; }
    }
  }

  lemma ProvenanceHolds(env: Env, d: Disk)
    requires Inv(env, d)
    ensures Provenance(d.state, d.ledger)
  {
    hide Account, AllAllowed, Truthful, Approvable, Known, UniqueKeys, SumCost, CountAdaptive, ProposalOf, ReviewOf,
      LatestBudget, LatestBoundary, Codes, TestsIn, Replay, Distinct;
    var es := d.ledger[..|d.state.evidenceRefs|];
    forall i | 0 <= i < |es| ensures es[i].id == EvidenceId(es[i].result) {
      assert Answers(env, d.ledger[i], d.state.executions[i], i);
    }
    ReplayProvenance(env, es, d.ledger);
  }

  lemma FreshEvidence(env: Env, d: Disk, result: ToolResult)
    requires Inv(env, d) && |d.ledger| <= result.action
    ensures forall x :: x in d.ledger ==> x.id != EvidenceId(result) && x.action != result.action
  {
    hide Replay, Account, AllAllowed, Truthful, Approvable, Known, UniqueKeys, SumCost, CountAdaptive, ProposalOf,
      ReviewOf, LatestBudget, LatestBoundary, Codes, TestsIn, Distinct;
    forall i | 0 <= i < |d.ledger| ensures d.ledger[i].id != EvidenceId(result) && d.ledger[i].action != result.action {
      assert Answers(env, d.ledger[i], d.state.executions[i], i);
    }
  }

  /** A boundary event overtakes the charge of its step. */
  lemma BoundaryEvent(env: Env, r: Run, kind: EventKind)
    requires Good(env, r) && r.exit.Running? && Boundary(kind) && !Open(r.now.state)
    ensures Good(env, Emit(r, kind)) && Emit(r, kind) == Run(r.past + [r.now], WithEvent(r.now, kind), Running)
    ensures !Fresh(Emit(r, kind).now)
      && LatestBudget(Emit(r, kind).now.trace, r.now.state.step)
         < LatestBoundary(Emit(r, kind).now.trace, r.now.state.step)
    ensures LatestBudget(Emit(r, kind).now.trace, r.now.state.step) == LatestBudget(r.now.trace, r.now.state.step)
  {
    hide Ledger, Roles, Proposal, Working, Account, AllAllowed, Reasons, Verdicts, Authority, Budgets, Executions,
      ValidSnapshot, Grows, Open;
    assert At(r, |r.past|) == r.now;
    BoundaryKeeps(env, r.now, kind);
    PushGood(env, r, WithEvent(r.now, kind));
    TraceQueries(r.now.trace, Event(|r.now.trace| + 1, r.now.state.step, kind), r.now.state.step);
    QueriesBounded(r.now.trace, r.now.state.step);
  }

  /** The result was announced: `q` follows `d` with a committed state, its
      ledger extended, and a boundary event for the step. */
  predicate Announced(d: Disk, q: Disk) {
    && q.state.status.UpdatingEvidence? && q.state.step == d.state.step
    && LatestBudget(q.trace, q.state.step) == LatestBudget(d.trace, d.state.step)
    && LatestBoundary(q.trace, q.state.step) > LatestBudget(q.trace, q.state.step)
  }

  predicate Fits(env: Env, x: Execution, result: ToolResult) {
    result.tool == x.tool && !result.foreign && result.action == x.action
      && env.schema(result.tool, result.params) == Some(x.params)
  }

  function CommitOf(env: Env, d: Disk, result: ToolResult): Disk
    requires d.state.executions != []
  {
    var e := RecordFor(Current(d), result);
    d.(ledger := d.ledger + [e], state := CommittedState(env, d.state, e))
  }

  /** The two durable writes that precede the announcement of a result. */
  lemma CommitWrites(env: Env, r: Run, result: ToolResult)
    requires Good(env, r) && r.exit.Running? && r.now.state.status.RunningTool?
    requires |r.now.ledger| == |r.now.state.evidenceRefs| && |r.now.state.executions| > 0
      && Fits(env, Current(r.now), result)
    ensures var e := RecordFor(Current(r.now), result); var d1 := r.now.(ledger := r.now.ledger + [e]);
      var r2 := Run(r.past + [r.now] + [d1], CommitOf(env, r.now, result), Running);
      Good(env, r2) && Commit(env, r, result) == EmitAll(r2, [ToolEvent, AgentEvent, EvidenceAppended])
  {
    hide EmitAll, Replay, Records, Account, AllAllowed, Truthful, Approvable, Known, UniqueKeys, SumCost,
      CountAdaptive, ProposalOf, ReviewOf, LatestBudget, LatestBoundary, Codes, TestsIn, Distinct, Grows, Provenance,
      CommittedState, Working, Reasons, Verdicts, Authority, Roles, Budgets;
    assert At(r, |r.past|) == r.now;
    var d := r.now;
    RunningFacts(env, d);
    var e := RecordFor(Current(d), result);
    FreshEvidence(env, d, result);
    var d1 := d.(ledger := d.ledger + [e]);
    EvidenceKeeps(env, d, e);
    PushGood(env, r, d1);
    var r1 := AppendEvidence(r, e);
    assert r1 == Run(r.past + [d], d1, Running);
    CommitKeeps(env, d1);
    CommittedStatus(env, d.state, e);
    SaveGood(env, r1, CommittedState(env, d.state, e));
    ProvenanceHolds(env, CommitOf(env, d, result));
  }

  lemma CommittedStatus(env: Env, s: State, e: Evidence)
    ensures CommittedState(env, s, e).status.UpdatingEvidence? && CommittedState(env, s, e).step == s.step
    ensures |CommittedState(env, s, e).evidenceRefs| == |s.evidenceRefs| + 1
    ensures CommittedState(env, s, e).toolCalls == s.toolCalls
  {
  }

  /** Committing a fitting result never faults and is announced. */
  lemma CommitGood(env: Env, r: Run, result: ToolResult)
    requires Good(env, r) && r.exit.Running? && r.now.state.status.RunningTool?
    requires |r.now.ledger| == |r.now.state.evidenceRefs| && |r.now.state.executions| > 0
      && Fits(env, Current(r.now), result)
    ensures var q := Commit(env, r, result);
      && Good(env, q) && q.exit.Running? && Announced(r.now, q.now)
      && q.now.state == CommitOf(env, r.now, result).state && q.now.ledger == CommitOf(env, r.now, result).ledger
  {
    hide Good, CommittedState, LatestBudget, LatestBoundary, Emit, Commit;
    var e := RecordFor(Current(r.now), result);
    var r2 := Run(r.past + [r.now] + [r.now.(ledger := r.now.ledger + [e])], CommitOf(env, r.now, result), Running);
    CommitWrites(env, r, result);
    CommittedStatus(env, r.now.state, e);
    EmitBeside(env, r2, ToolEvent);
    EmitBeside(env, Emit(r2, ToolEvent), AgentEvent);
    var r4 := Emit(Emit(r2, ToolEvent), AgentEvent);
    BoundaryEvent(env, r4, EvidenceAppended);
    Three(r2, ToolEvent, AgentEvent, EvidenceAppended);
  }

  lemma Three(r: Run, a: EventKind, b: EventKind, c: EventKind)
    ensures EmitAll(r, [a, b, c]) == Emit(Emit(Emit(r, a), b), c)
  {
    assert [a, b, c][1..] == [b, c] && [b, c][1..] == [c] && [c][1..] == [];
    assert EmitAll(Emit(Emit(Emit(r, a), b), c), []) == Emit(Emit(Emit(r, a), b), c);
    assert EmitAll(Emit(Emit(r, a), b), [c]) == Emit(Emit(Emit(r, a), b), c);
    assert EmitAll(Emit(r, a), [b, c]) == Emit(Emit(Emit(r, a), b), c);
  }

  lemma Two(r: Run, a: EventKind, b: EventKind)
    ensures EmitAll(r, [a, b]) == Emit(Emit(r, a), b)
  {
    assert [a, b][1..] == [b] && [b][1..] == [];
    assert EmitAll(Emit(Emit(r, a), b), []) == Emit(Emit(r, a), b);
    assert EmitAll(Emit(r, a), [b]) == Emit(Emit(r, a), b);
  }

  lemma RaiseGood(env: Env, r: Run, exit: Exit)
    requires Good(env, r) && r.exit.Running? && Abortable(r.now.state, exit)
    ensures Good(env, Raise(r, exit))
  {
    hide Inv, Grows;
    var q := Raise(r, exit);
    forall i | 0 <= i <= |q.past| ensures Inv(env, At(q, i)) { assert At(q, i) == At(r, i); }
    forall i | 0 <= i < |q.past| ensures Grows(At(q, i), At(q, i + 1)) {
      assert At(q, i) == At(r, i) && At(q, i + 1) == At(r, i + 1);
    }
  }

  /** `q` is `r` with the commit of `result` behind it. */
  ghost predicate CommittedRun(env: Env, r: Run, q: Run, result: ToolResult)
    requires r.now.state.executions != []
  {
    && q.exit.Running? && Announced(r.now, q.now)
    && q.now.state == CommitOf(env, r.now, result).state && q.now.ledger == CommitOf(env, r.now, result).ledger
  }

  /** What an execution was asked to do. */
  function Ran(x: Execution): (bool, Tool, Params, nat) { (x.adaptive, x.tool, x.params, x.action) }

  lemma LastKept(env: Env, s: State, e: Evidence)
    requires s.executions != []
    ensures var xs := CommittedState(env, s, e).executions;
      |xs| == |s.executions| && Ran(xs[|xs| - 1]) == Ran(s.executions[|s.executions| - 1])
  {
    hide UpdatedHypotheses, UpdatedCandidates, CompletedTests;
  }

  /** How an action ends whose tool timed out, raised, or answered something else. */
  function Unfit(outcome: ToolOutcome, action: nat): Exit {
    Aborted(if outcome.TimesOut? then ToolTimeout else ToolInfrastructureFailure, Failed, Some(action))
  }

  /** What a handler's outcome leads to: an abort of the current execution, or a commit. */
  lemma ReceiveGood(env: Env, r: Run, outcome: ToolOutcome)
    requires Good(env, r) && r.exit.Running? && r.now.state.status.RunningTool?
    requires |r.now.ledger| == |r.now.state.evidenceRefs| && |r.now.state.executions| > 0
    ensures var x := Current(r.now); var q := Receive(env, r, x, x.params, outcome);
      && Good(env, q) && !q.exit.Faulted?
      && (q.exit.Running? <==> outcome.Returns? && Fits(env, x, outcome.result))
      && (q.exit.Running? ==> CommittedRun(env, r, q, outcome.result))
      && (!q.exit.Running? ==> q.now == r.now && q.past == r.past && q.exit == Unfit(outcome, x.action))
  {
    hide Inv, Grows, Commit, CommitOf, Announced, Good;
    assert Inv(env, r.now) by { NowGood(env, r); }
    RunningFacts(env, r.now);
    var x := Current(r.now);
    if outcome.Returns? && Fits(env, x, outcome.result) {
      CommitGood(env, r, outcome.result);
    } else {
      RaiseGood(env, r, if outcome.TimesOut? then Aborted(ToolTimeout, Failed, Some(x.action)) else Broken(x.action));
    }
  }

  lemma NowGood(env: Env, r: Run)
    requires Good(env, r)
    ensures Inv(env, r.now) && Abortable(r.now.state, r.exit)
  {
    hide Inv, Grows;
    assert At(r, |r.past|) == r.now;
  }
}
