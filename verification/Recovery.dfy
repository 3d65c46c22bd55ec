/** The recovery node: a prepared execution is committed once, whichever of
    its writes the crash came between. */
module Recovery {
  import opened Domain
  import opened Store
  import opened Policy
  import opened Nodes
  import opened Invariant
  import opened Steps
  import opened Writes
  import opened Committing

  lemma Admissible(env: Env, d: Disk)
    requires Inv(env, d)
    ensures AdmissionOpen(d.state) <==> !Stopped(d.state.status)
    ensures HasPrepared(d.state) <==> d.state.status.RunningTool?
    ensures d.state.status.RunningTool? ==> |d.state.executions| > 0 && Current(d).status.Prepared?
  {
    hide Replay, Account, AllAllowed, Truthful, Approvable, Known, UniqueKeys, SumCost, CountAdaptive, ProposalOf,
      ReviewOf, LatestBudget, LatestBoundary, Codes, TestsIn, Spent, Ledger;
    var xs := d.state.executions;
    if d.state.status.RunningTool? { assert xs[|xs| - 1] in xs; }
  }

  /** Only the last execution can be prepared, so recovery is about it alone. */
  lemma {:induction false} RecoverLast(env: Env, r: Run, xs: seq<Execution>)
    requires r.exit.Running? && forall i :: 0 <= i < |xs| - 1 ==> !xs[i].status.Prepared?
    ensures RecoverEach(env, r, xs) == if xs != []
      && xs[|xs| - 1].status.Prepared? then RecoverOne(env, r, xs[|xs| - 1]) else r
    decreases xs
  {
    if |xs| == 1 {
      assert RecoverEach(env, RecoverOne(env, r, xs[0]), xs[1..]) == RecoverOne(env, r, xs[0]);
    } else if |xs| > 1 {
      RecoverLast(env, r, xs[1..]);
    }
  }

  lemma RecoverIs(env: Env, r: Run)
    requires Good(env, r) && r.exit.Running?
    ensures r.now.state.status.RunningTool? ==> r.now.state.executions != []
    ensures Recover(env, r) == if r.now.state.status.RunningTool? then RecoverOne(env, r, Current(r.now)) else r
  {
    hide Good, RecoverEach, RecoverOne, Ledger, Roles, Proposal, Spent, Working, Account, AllAllowed, Reasons,
      Verdicts, Authority, ValidSnapshot, Budgets;
    NowGood(env, r);
    Admissible(env, r.now);
    if !Stopped(r.now.state.status) { RecoverLast(env, r, r.now.state.executions); }
  }

  /** A record the snapshot does not refer to is committed as if it were new. */
  lemma RecoveredIsCommitted(env: Env, d: Disk)
    requires Inv(env, d) && d.state.status.RunningTool? && |d.ledger| == |d.state.evidenceRefs| + 1
    ensures RecoveredState(env, d.state, d.ledger[|d.ledger| - 1])
            == CommittedState(env, d.state, d.ledger[|d.ledger| - 1])
  {
    hide Replay, Account, AllAllowed, Truthful, Approvable, Known, UniqueKeys, SumCost, CountAdaptive, ProposalOf,
      ReviewOf, LatestBudget, LatestBoundary, Codes, TestsIn, Distinct, Settle, CompletedTests, UpdatedCandidates,
      UpdatedHypotheses, Spent, Proposal, Working, Roles, Reasons, Verdicts, Budgets;
    var n := |d.state.evidenceRefs|;
    var e := d.ledger[n];
    assert Answers(env, e, d.state.executions[n], n);
    forall i | 0 <= i < n ensures d.state.evidenceRefs[i] != e.id {
      assert Referenced(d.state.evidenceRefs[i], d.ledger[i], d.state.executions[i]);
      assert Answers(env, d.ledger[i], d.state.executions[i], i);
    }
  }

  /** Finishing a commit whose record is already in the ledger. */
  lemma CommitRecordedGood(env: Env, r: Run)
    requires Good(env, r) && r.exit.Running? && r.now.state.status.RunningTool?
      && |r.now.ledger| == |r.now.state.evidenceRefs| + 1
    ensures var e := r.now.ledger[|r.now.ledger| - 1]; var q := CommitRecorded(env, r, e);
      && Good(env, q) && q.exit.Running? && Announced(r.now, q.now)
      && q.now.state == CommittedState(env, r.now.state, e) && q.now.ledger == r.now.ledger
  {
    hide Good, Replay, Records, Account, AllAllowed, Truthful, Approvable, Known, UniqueKeys, SumCost, CountAdaptive,
      ProposalOf, ReviewOf, LatestBudget, LatestBoundary, Codes, EmitAll, Emit, TestsIn, Distinct, Grows, Provenance,
      CommittedState, RecoveredState, Working, Reasons, Verdicts, Authority, Roles, Budgets, Proposal, Spent;
    NowGood(env, r);
    var d := r.now;
    var e := d.ledger[|d.ledger| - 1];
    RunningFacts(env, d);
    RecoveredIsCommitted(env, d);
    CommitKeeps(env, d);
    CommittedStatus(env, d.state, e);
    var s := CommittedState(env, d.state, e);
    SaveGood(env, r, s);
    var r1 := Save(r, s);
    ProvenanceHolds(env, r1.now);
    BoundaryEvent(env, r1, RecoveryCompleted);
    EmitBeside(env, Emit(r1, RecoveryCompleted), AgentEvent);
    Two(r1, RecoveryCompleted, AgentEvent);
    assert CommitRecorded(env, r, e) == EmitAll(CheckProvenance(r1), [RecoveryCompleted, AgentEvent]);
  }

  /** The guards of a re-execution, in order. */
  function Reexecutable(env: Env, d: Disk, x: Execution): Option<Exit> {
    match Resolve(env.specs, x.tool)
    case None => Some(Broken(x.action))
    case Some(spec) =>
      if !spec.authorized then Some(Aborted(UnauthorizedAction, Failed, Some(x.action)))
      else if !spec.idempotent then Some(Broken(x.action))
      else if !env.inputsReady(x.tool, d.ledger) then
        Some(Aborted(PreconditionUnmet, InsufficientEvidence, Some(x.action)))
      else None
  }

  /** Re-running a prepared execution: it is refused, or ends as its first run would have. */
  lemma ReexecuteGood(env: Env, r: Run)
    requires Good(env, r) && r.exit.Running? && r.now.state.status.RunningTool?
      && |r.now.ledger| == |r.now.state.evidenceRefs|
    requires |r.now.state.executions| > 0
    ensures var x := Current(r.now); var q := Reexecute(env, r, x);
      var outcome := env.invoke(x.tool, x.params, x.action, r.now.ledger);
      && Good(env, q) && !q.exit.Faulted?
      && (q.exit.Running? <==> Reexecutable(env, r.now, x).None? && outcome.Returns? && Fits(env, x, outcome.result))
      && (q.exit.Running? ==> CommittedRun(env, r, q, outcome.result))
      && (!q.exit.Running? ==> q.now == r.now && q.past == r.past && Unrecovered(env, r.now, q.exit))
  {
    hide Inv, Grows, Receive, CommitOf, Good, Announced, LatestBudget, LatestBoundary, Emit, Fits;
    NowGood(env, r);
    RunningFacts(env, r.now);
    var x := Current(r.now);
    LastValidated(env, r.now);
    var refusal := Reexecutable(env, r.now, x);
    if refusal.Some? {
      RaiseGood(env, r, refusal.value);
      EmitVoid(Raise(r, refusal.value));
      assert Reexecute(env, r, x) == Raise(r, refusal.value);
    } else {
      var outcome := env.invoke(x.tool, x.params, x.action, r.now.ledger);
      ReceiveGood(env, r, outcome);
      var q1 := Receive(env, r, x, x.params, outcome);
      assert Reexecute(env, r, x) == Emit(q1, RecoveryCompleted);
      if q1.exit.Running? { AnnounceAgain(env, r, q1, outcome.result); } else { EmitVoid(q1); }
    }
  }

  lemma LastValidated(env: Env, d: Disk)
    requires Inv(env, d) && d.state.status.RunningTool?
    ensures |d.state.executions| > 0 && env.schema(Current(d).tool, Current(d).params) == Some(Current(d).params)
  {
    hide Replay, Account, AllAllowed, Truthful, Approvable, Known, UniqueKeys, SumCost, CountAdaptive, ProposalOf,
      ReviewOf, LatestBudget, LatestBoundary, Codes, TestsIn, Spent, Proposal, Roles, Reasons, Verdicts;
    RunningFacts(env, d);
  }

  lemma AnnounceAgain(env: Env, r: Run, q: Run, result: ToolResult)
    requires r.now.state.executions != [] && Good(env, q) && CommittedRun(env, r, q, result)
    ensures Good(env, Emit(q, RecoveryCompleted)) && CommittedRun(env, r, Emit(q, RecoveryCompleted), result)
  {
    hide Good, Inv, Grows, CommitOf, LatestBudget, LatestBoundary, Emit;
    BoundaryEvent(env, q, RecoveryCompleted);
  }

  /** The record that recovery commits: the one in the ledger, or the tool's. */
  function RecoveredEvidence(env: Env, d: Disk): Option<Evidence>
    requires d.state.executions != []
  {
    var x := Current(d);
    if |d.ledger| == |d.state.evidenceRefs| + 1 then Some(d.ledger[|d.ledger| - 1])
    else if Reexecutable(env, d, x).Some? then None
    else
      var outcome := env.invoke(x.tool, x.params, x.action, d.ledger);
      if outcome.Returns? && Fits(env, x, outcome.result) then Some(RecordFor(x, outcome.result)) else None
  }

  /** The unfinished execution failed, or its inputs are no longer at hand. */
  predicate Unrecovered(env: Env, d: Disk, exit: Exit) {
    && d.state.executions != [] && exit.Aborted? && exit.action == Some(Current(d).action)
    && (exit.status.Failed? || (exit.status.InsufficientEvidence? && !env.inputsReady(Current(d).tool, d.ledger)))
  }

  /** Recovery commits exactly one record for the unfinished execution, or aborts it. */
  lemma RecoverGood(env: Env, r: Run)
    requires Good(env, r) && r.exit.Running?
    ensures r.now.state.status.RunningTool? ==>
      r.now.state.executions != [] && |r.now.state.evidenceRefs| <= |r.now.ledger|
    ensures var q := Recover(env, r);
      && Good(env, q) && !q.exit.Faulted?
      && (!r.now.state.status.RunningTool? ==> q == r)
      && (q.exit.Running? ==> !q.now.state.status.RunningTool?)
      && (r.now.state.status.RunningTool? ==> (q.exit.Running? <==> RecoveredEvidence(env, r.now).Some?))
      && (r.now.state.status.RunningTool? && q.exit.Running? ==>
            && Announced(r.now, q.now)
            && q.now.state == CommittedState(env, r.now.state, RecoveredEvidence(env, r.now).value)
            && q.now.ledger == r.now.ledger[..|r.now.state.evidenceRefs|] + [RecoveredEvidence(env, r.now).value])
      && (!q.exit.Running? ==> q.now == r.now && Unrecovered(env, r.now, q.exit))
  {
    hide Good, Inv, Grows, LatestBudget, LatestBoundary, CommitRecorded, Reexecute, Reexecutable, CommittedState,
      Unrecovered;
    RecoverIs(env, r);
    if r.now.state.status.RunningTool? {
      NowGood(env, r);
      RunningFacts(env, r.now);
      if |r.now.ledger| == |r.now.state.evidenceRefs| + 1 {
        CommitRecordedGood(env, r);
      } else {
        ReexecuteGood(env, r);
      }
    }
  }
}
