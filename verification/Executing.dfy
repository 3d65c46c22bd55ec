/** Executing an action, and why crashes around it do not matter: recovery
    ends in the state and ledger that the uninterrupted execution ends in. */
module Executing {
  import opened Domain
  import opened Store
  import opened Policy
  import opened Nodes
  import opened Invariant
  import opened Steps
  import opened Writes
  import opened Committing
  import opened Recovery

  /** The state and the ledger a commit of `e` passes through. */
  predicate Staged(env: Env, p: Disk, e: Evidence, f: Disk) {
    || (f.state == p.state && (f.ledger == p.ledger || f.ledger == p.ledger + [e]))
    || (f.state == CommittedState(env, p.state, e) && f.ledger == p.ledger + [e])
  }

  ghost predicate StagedFrom(env: Env, p: Disk, e: Evidence, q: Run, start: nat) {
    forall i :: start <= i <= |q.past| ==> Staged(env, p, e, At(q, i))
  }

  predicate Content(d: Disk, s: State, ledger: seq<Evidence>) { d.state == s && d.ledger == ledger }

  lemma {:induction false} EmitAllStages(env: Env, p: Disk, e: Evidence, r: Run, kinds: seq<EventKind>, start: nat)
    requires StagedFrom(env, p, e, r, start) && start <= |r.past|
    ensures StagedFrom(env, p, e, EmitAll(r, kinds), start) && Content(EmitAll(r, kinds).now, r.now.state, r.now.ledger)
    ensures |EmitAll(r, kinds).past| >= |r.past|
    decreases kinds
  {
    hide CommittedState;
    if kinds != [] {
      var q := Emit(r, kinds[0]);
      assert Staged(env, p, e, At(r, |r.past|));
      forall i | start <= i <= |q.past| ensures Staged(env, p, e, At(q, i)) {
        if i <= |r.past| { assert Staged(env, p, e, At(r, i)); }
      }
      EmitAllStages(env, p, e, q, kinds[1..], start);
    }
  }

  /** A commit from a prepared state passes through its stages only. */
  lemma CommitStages(env: Env, p: Disk, r: Run, result: ToolResult, start: nat)
    requires Good(env, r) && r.exit.Running? && r.now.state.status.RunningTool? && |r.now.state.executions| > 0
    requires |r.now.ledger| == |r.now.state.evidenceRefs| && Fits(env, Current(r.now), result)
    requires Content(p, r.now.state, r.now.ledger) && start <= |r.past|
    requires StagedFrom(env, p, RecordFor(Current(r.now), result), r, start)
    ensures StagedFrom(env, p, RecordFor(Current(r.now), result), Commit(env, r, result), start)
  {
    hide Good, CommittedState, Commit, EmitAll;
    var e := RecordFor(Current(r.now), result);
    CommitWrites(env, r, result);
    var r2 := Run(r.past + [r.now] + [r.now.(ledger := r.now.ledger + [e])], CommitOf(env, r.now, result), Running);
    forall i | start <= i <= |r2.past| ensures Staged(env, p, e, At(r2, i)) {
      if i <= |r.past| { assert Staged(env, p, e, At(r, i)); }
    }
    EmitAllStages(env, p, e, r2, [ToolEvent, AgentEvent, EvidenceAppended], start);
  }

  lemma ReceiveStages(env: Env, p: Disk, r: Run, result: ToolResult, start: nat)
    requires Good(env, r) && r.exit.Running? && r.now.state.status.RunningTool? && |r.now.state.executions| > 0
    requires |r.now.ledger| == |r.now.state.evidenceRefs| && Fits(env, Current(r.now), result)
    requires Content(p, r.now.state, r.now.ledger) && start <= |r.past|
    requires StagedFrom(env, p, RecordFor(Current(r.now), result), r, start)
    ensures StagedFrom(env, p, RecordFor(Current(r.now), result),
        Receive(env, r, Current(r.now), Current(r.now).params, Returns(result)), start)
  {
    hide Good, CommittedState, Commit;
    CommitStages(env, p, r, result, start);
  }

  /** What the prepared execution of `p` is to be committed with. */
  ghost predicate Pending(env: Env, p: Disk, e: Evidence) {
    && Inv(env, p) && p.state.status.RunningTool? && |p.ledger| == |p.state.evidenceRefs| && p.state.executions != []
    && Reexecutable(env, p, Current(p)).None?
    && var x := Current(p);
    var outcome := env.invoke(x.tool, x.params, x.action, p.ledger);
    outcome.Returns? && Fits(env, x, outcome.result) && e == RecordFor(x, outcome.result)
  }

  lemma StartGood(env: Env, d: Disk)
    requires Inv(env, d)
    ensures Good(env, Start(d))
  {
    hide Inv, Grows;
  }

  lemma StartStaged(env: Env, p: Disk, e: Evidence, f: Disk)
    requires Staged(env, p, e, f)
    ensures StagedFrom(env, p, e, Start(f), 0)
  {
    hide CommittedState;
  }

  /** Recovery from any stage passes through the stages, and ends in the last. */
  lemma RecoverStages(env: Env, p: Disk, e: Evidence, f: Disk)
    requires Pending(env, p, e) && Inv(env, f) && Staged(env, p, e, f)
    ensures var q := Recover(env, Start(f));
      StagedFrom(env, p, e, q, 0) && q.exit.Running? && Content(q.now, CommittedState(env, p.state, e), p.ledger + [e])
  {
    hide Good, Inv, Grows, LatestBudget, LatestBoundary, CommittedState, Reexecute, CommitRecorded, RecoverEach,
      Recover, Receive, Emit, EmitAll, Announced;
    StartGood(env, f);
    StartStaged(env, p, e, f);
    RecoverIs(env, Start(f));
    CommittedStatus(env, p.state, e);
    if f.state == p.state {
      RunningFacts(env, f);
      RunningFacts(env, p);
      RecoverGood(env, Start(f));
      if f.ledger == p.ledger { ReexecuteStages(env, p, e, f); } else { CommitRecordedStages(env, p, e, f); }
    }
  }

  lemma ReexecuteStages(env: Env, p: Disk, e: Evidence, f: Disk)
    requires Pending(env, p, e) && Inv(env, f) && Content(f, p.state, p.ledger)
    ensures StagedFrom(env, p, e, Reexecute(env, Start(f), Current(f)), 0)
  {
    hide Good, Inv, Grows, LatestBudget, LatestBoundary, CommittedState, Receive, CommitRecorded, Recover;
    StartGood(env, f);
    StartStaged(env, p, e, f);
    LastValidated(env, f);
    var x := Current(f);
    var result := env.invoke(x.tool, x.params, x.action, f.ledger).result;
    ReceiveStages(env, p, Start(f), result, 0);
    var q := Receive(env, Start(f), x, x.params, Returns(result));
    ReceiveGood(env, Start(f), Returns(result));
    EmitAllStages(env, p, e, q, [RecoveryCompleted], 0);
    assert [RecoveryCompleted][1..] == [];
    assert EmitAll(q, [RecoveryCompleted]) == EmitAll(Emit(q, RecoveryCompleted), []) == Emit(q, RecoveryCompleted);
  }

  lemma CommitRecordedStages(env: Env, p: Disk, e: Evidence, f: Disk)
    requires Pending(env, p, e) && Inv(env, f) && Content(f, p.state, p.ledger + [e])
    ensures StagedFrom(env, p, e, CommitRecorded(env, Start(f), e), 0)
  {
    hide Good, Grows, LatestBudget, LatestBoundary, CommittedState, RecoveredState, Receive, Recover, EmitAll,
      Provenance, Settle, Ledger, Roles, Proposal, Spent, Working, Account, AllAllowed, Reasons, Verdicts, Authority,
      ValidSnapshot, Budgets, Executions;
    StartGood(env, f);
    StartStaged(env, p, e, f);
    RunningFacts(env, p);
    CommitRecordedGood(env, Start(f));
    RunningFacts(env, f);
    RecoveredIsCommitted(env, f);
    var s := CommittedState(env, f.state, e);
    var r1 := Save(Start(f), s);
    if r1.exit.Running? {
      forall i | 0 <= i <= |r1.past| ensures Staged(env, p, e, At(r1, i)) { }
      EmitAllStages(env, p, e, CheckProvenance(r1), [RecoveryCompleted, AgentEvent], 0);
    } else {
      VoidAll(r1, [RecoveryCompleted, AgentEvent]);
    }
  }

  /** A process that recovers from `f` may die in `g`. */
  predicate DiesIn(q: Run, g: Disk) { g in q.past + [q.now] }

  ghost predicate CrashChain(env: Env, chain: seq<Disk>) {
    forall k :: 0 <= k < |chain| - 1 ==> DiesIn(Recover(env, Start(chain[k])), chain[k + 1])
  }

  lemma DiesInStage(env: Env, p: Disk, e: Evidence, q: Run, g: Disk)
    requires DiesIn(q, g) && Good(env, q) && StagedFrom(env, p, e, q, 0)
    ensures Inv(env, g) && Staged(env, p, e, g)
  {
    hide Inv, Grows, CommittedState;
    var i :| 0 <= i < |q.past + [q.now]| && (q.past + [q.now])[i] == g;
    assert g == At(q, i);
  }

  lemma {:induction false} ChainStaged(env: Env, p: Disk, e: Evidence, chain: seq<Disk>)
    requires Pending(env, p, e) && chain != [] && CrashChain(env, chain)
    requires Inv(env, chain[0]) && Staged(env, p, e, chain[0])
    ensures Inv(env, chain[|chain| - 1]) && Staged(env, p, e, chain[|chain| - 1])
    decreases chain
  {
    hide Inv, Good, Recover, CommittedState;
    if |chain| > 1 {
      RecoverStages(env, p, e, chain[0]);
      StartGood(env, chain[0]);
      RecoverGood(env, Start(chain[0]));
      DiesInStage(env, p, e, Recover(env, Start(chain[0])), chain[1]);
      var rest := chain[1..];
      forall k | 0 <= k < |rest| - 1 ensures DiesIn(Recover(env, Start(rest[k])), rest[k + 1]) {
        assert rest[k] == chain[k + 1] && rest[k + 1] == chain[k + 2];
      }
      ChainStaged(env, p, e, rest);
    }
  }

  /** The execution of the prepared action of `p`, if it is not interrupted. */
  function Whole(env: Env, p: Disk): Run
    requires p.state.executions != []
  {
    var x := Current(p);
    Receive(env, Start(p), x, x.params, env.invoke(x.tool, x.params, x.action, p.ledger))
  }

  /** A tool that answered: crashes end in the commit of its answer. */
  lemma CommitsSurvive(env: Env, p: Disk, e: Evidence, chain: seq<Disk>)
    requires Pending(env, p, e) && chain != [] && CrashChain(env, chain) && DiesIn(Whole(env, p), chain[0])
    ensures var whole := Whole(env, p); var last := Recover(env, Start(chain[|chain| - 1]));
      && whole.exit.Running? && last.exit.Running?
      && last.now.state == whole.now.state && last.now.ledger == whole.now.ledger
  {
    hide Inv, Good, Recover, CommittedState, Receive, Announced, LatestBudget, LatestBoundary, Fits, Grows, First,
      Extends;
    var x := Current(p);
    var outcome := env.invoke(x.tool, x.params, x.action, p.ledger);
    StartGood(env, p);
    StartStaged(env, p, e, p);
    ReceiveGood(env, Start(p), outcome);
    ReceiveStages(env, p, Start(p), outcome.result, 0);
    DiesInStage(env, p, e, Whole(env, p), chain[0]);
    ChainStaged(env, p, e, chain);
    RecoverStages(env, p, e, chain[|chain| - 1]);
  }

  /** The prepared action of `p` may be run, and run again. */
  ghost predicate Rerunnable(env: Env, p: Disk) {
    && Inv(env, p) && p.state.status.RunningTool? && |p.ledger| == |p.state.evidenceRefs| && p.state.executions != []
    && Reexecutable(env, p, Current(p)).None?
  }

  /** The tool raises, runs into its deadline, or answers what does not fit. */
  predicate Unfit(env: Env, p: Disk)
    requires p.state.executions != []
  {
    var x := Current(p);
    var outcome := env.invoke(x.tool, x.params, x.action, p.ledger);
    !(outcome.Returns? && Fits(env, x, outcome.result))
  }

  /** The abort of an unfit outcome does not depend on who receives it. */
  lemma UnfitAborts(env: Env, p: Disk, f: Disk, x: Execution, outcome: ToolOutcome)
    requires !(outcome.Returns? && Fits(env, x, outcome.result))
    ensures Receive(env, Start(f), x, x.params, outcome).exit == Receive(env, Start(p), x, x.params, outcome).exit
    ensures Receive(env, Start(p), x, x.params, outcome).exit.Aborted?
  {
    hide Commit;
  }

  /** A recovery that runs such a tool again writes nothing, and aborts alike. */
  lemma RecoverUnfit(env: Env, p: Disk, f: Disk)
    requires Rerunnable(env, p) && Unfit(env, p) && Inv(env, f) && Content(f, p.state, p.ledger)
    ensures var q := Recover(env, Start(f));
      q.now == f && q.past == [] && q.exit == Whole(env, p).exit && q.exit.Aborted?
  {
    hide Inv, Good, Grows, LatestBudget, LatestBoundary, Receive, CommitRecorded, Recover, Fits, First, Extends,
      RecordOf, Emit, Resolve;
    StartGood(env, f);
    RecoverIs(env, Start(f));
    RunningFacts(env, f);
    LastValidated(env, f);
    ReexecuteGood(env, Start(f));
    var x := Current(f);
    var outcome := env.invoke(x.tool, x.params, x.action, f.ledger);
    UnfitAborts(env, p, f, x, outcome);
    ReceiveGood(env, Start(f), outcome);
    EmitVoid(Receive(env, Start(f), x, x.params, outcome));
  }

  lemma DiesAtStart(q: Run, f: Disk, g: Disk)
    requires q.now == f && q.past == [] && DiesIn(q, g)
    ensures g == f
  {
  }

  lemma {:induction false} ChainUnfit(env: Env, p: Disk, chain: seq<Disk>)
    requires Rerunnable(env, p) && Unfit(env, p) && chain != [] && CrashChain(env, chain)
    requires Inv(env, chain[0]) && Content(chain[0], p.state, p.ledger)
    ensures chain[|chain| - 1] == chain[0]
    decreases chain
  {
    hide Inv, Recover, Reexecutable, Whole, First, Extends, Fits;
    if |chain| > 1 {
      RecoverUnfit(env, p, chain[0]);
      assert DiesIn(Recover(env, Start(chain[0])), chain[0 + 1]);
      DiesAtStart(Recover(env, Start(chain[0])), chain[0], chain[1]);
      var rest := chain[1..];
      forall k | 0 <= k < |rest| - 1 ensures DiesIn(Recover(env, Start(rest[k])), rest[k + 1]) {
        assert rest[k] == chain[k + 1] && rest[k + 1] == chain[k + 2];
      }
      ChainUnfit(env, p, rest);
    }
  }

  /** However often the process dies while it executes and recovers one action,
      and whatever the tool does, the recovery that is allowed to finish ends as
      the execution that was never interrupted: with the same abort, or in the
      same state and ledger. */
  lemma CrashesDoNotMatter(env: Env, p: Disk, chain: seq<Disk>)
    requires Rerunnable(env, p) && chain != [] && CrashChain(env, chain) && DiesIn(Whole(env, p), chain[0])
    ensures var whole := Whole(env, p); var last := Recover(env, Start(chain[|chain| - 1]));
      && last.exit == whole.exit && !whole.exit.Faulted?
      && last.now.state == whole.now.state && last.now.ledger == whole.now.ledger
  {
    hide Inv, Good, Recover, CommittedState, Receive, Announced, LatestBudget, LatestBoundary, Grows, First, Extends,
      Reexecutable;
    var x := Current(p);
    var outcome := env.invoke(x.tool, x.params, x.action, p.ledger);
    if Unfit(env, p) {
      StartGood(env, p);
      ReceiveGood(env, Start(p), outcome);
      DiesAtStart(Whole(env, p), p, chain[0]);
      ChainUnfit(env, p, chain);
      RecoverUnfit(env, p, chain[|chain| - 1]);
    } else {
      CommitsSurvive(env, p, RecordFor(x, outcome.result), chain);
    }
  }

  // ---- executing an action ----

  lemma RefusalAborts(env: Env, d: Disk, tool: Tool, params: Params, adaptive: bool)
    requires !Stopped(d.state.status) && !d.state.status.RunningTool? && Refusal(env, d, tool, params, adaptive).Some?
    ensures Refusal(env, d, tool, params, adaptive).value.Aborted?
      && Abortable(d.state, Refusal(env, d, tool, params, adaptive).value)
  {
  }

  /** The action was charged, run and committed in the same step. */
  predicate Performed(d: Disk, q: Disk) {
    && Announced(d, q) && q.state.toolCalls == d.state.toolCalls + 1 && |q.ledger| == |d.ledger| + 1
    && q.state.adaptiveUsed >= d.state.adaptiveUsed && q.state.limits == d.state.limits
  }

  /** Within its step, a node makes at most one tool call and adds at most one record. */
  predicate AtMostOne(d: Disk, q: Disk) {
    && q.state.step == d.state.step && q.state.limits == d.state.limits
    && d.state.toolCalls <= q.state.toolCalls <= d.state.toolCalls + 1
    && |d.ledger| <= |q.ledger| <= |d.ledger| + 1
  }

  /** A request from a status that may run tools. */
  ghost predicate Requestable(env: Env, d: Disk, tool: Tool, params: Params, adaptive: bool) {
    && Inv(env, d) && (d.state.status.VettingMandatory? || d.state.status.WaitingForCritic?) && Charged(d)
    && Revisions(d.state.critics) == d.state.revisions
    && Registered(env) && (CurrentSkeptic(d.state).Some? ==> Elected(d.state, tool, params))
    && Purposeful(env, d.state, tool, adaptive)
  }

  function PreparedRun(env: Env, r: Run, tool: Tool, params: Params, adaptive: bool): Run
    requires env.schema(tool, params).Some? && Resolve(env.specs, tool).Some?
  {
    Emit(Save(r, PreparedState(r.now.state, NextExecution(env, r.now.state, tool, params, adaptive))), ToolEvent)
  }

  /** The two writes before the tool runs. */
  lemma PreparedGood(env: Env, r: Run, tool: Tool, params: Params, adaptive: bool)
    requires Good(env, r) && r.exit.Running? && Requestable(env, r.now, tool, params, adaptive)
      && Refusal(env, r.now, tool, params, adaptive).None?
    ensures env.schema(tool, params).Some? && Resolve(env.specs, tool).Some?
    ensures var q := PreparedRun(env, r, tool, params, adaptive);
      && Good(env, q) && q.exit.Running?
      && Aside(Extended(r.now, NextExecution(env, r.now.state, tool, params, adaptive)), q.now)
      && q.now.state == PreparedState(r.now.state, NextExecution(env, r.now.state, tool, params, adaptive))
      && q.now.ledger == r.now.ledger
      && |r.now.ledger| == |r.now.state.evidenceRefs|
  {
    hide Inv, Good, Grows, Refusal, LatestBudget, LatestBoundary, Emit;
    NowGood(env, r);
    RefusalMeans(env, r.now, tool, params, adaptive);
    PrepareKeeps(env, r.now, tool, params, adaptive);
    AllCompleted(env, r.now);
    var s := PreparedState(r.now.state, NextExecution(env, r.now.state, tool, params, adaptive));
    SaveGood(env, r, s);
    EmitBeside(env, Save(r, s), ToolEvent);
  }

  /** One more execution, of this tool, with what its schema makes of these parameters. */
  predicate RanFor(env: Env, s: State, q: State, tool: Tool, params: Params, adaptive: bool) {
    && |q.executions| == |s.executions| + 1
    && var x := q.executions[|s.executions|];
    && x.tool == tool && env.schema(tool, params) == Some(x.params) && x.adaptive == adaptive
    && x.action == |s.executions|
  }

  /** From a status that may run tools, an execution never faults. */
  lemma ExecuteGood(env: Env, r: Run, tool: Tool, params: Params, adaptive: bool)
    requires Good(env, r) && r.exit.Running? && Requestable(env, r.now, tool, params, adaptive)
    ensures var q := Execute(env, r, tool, params, adaptive);
      && Good(env, q) && !q.exit.Faulted?
      && (Refusal(env, r.now, tool, params, adaptive).Some? ==> q.exit.Aborted? && q.now == r.now)
      && (q.exit.Running? ==> Performed(r.now, q.now)) && AtMostOne(r.now, q.now)
      && (q.exit.Running? ==> q.now.state.adaptiveUsed == r.now.state.adaptiveUsed + (if adaptive then 1 else 0))
      && (Refusal(env, r.now, tool, params, adaptive).None? ==>
          RanFor(env, r.now.state, q.now.state, tool, params, adaptive))
  {
    hide Inv, Good, Grows, Refusal, LatestBudget, LatestBoundary, Emit, Save, Receive, CommittedState, Fits;
    NowGood(env, r);
    var refusal := Refusal(env, r.now, tool, params, adaptive);
    if refusal.Some? {
      RefusalAborts(env, r.now, tool, params, adaptive);
      RaiseGood(env, r, refusal.value);
    } else {
      PreparedGood(env, r, tool, params, adaptive);
      var q := PreparedRun(env, r, tool, params, adaptive);
      var x := NextExecution(env, r.now.state, tool, params, adaptive);
      assert Current(q.now) == x;
      var outcome := env.invoke(tool, x.params, x.action, q.now.ledger);
      ReceiveGood(env, q, outcome);
      if outcome.Returns? {
        CommittedStatus(env, q.now.state, RecordFor(x, outcome.result));
        CommittedRest(env, q.now.state, RecordFor(x, outcome.result));
        LastKept(env, q.now.state, RecordFor(x, outcome.result));
      }
    }
  }

  /** A finished execution was, when it had been prepared, one that any number of
      crashes leaves recoverable, if its tool may be run again. */
  lemma ExecutionIsRecoverable(env: Env, r: Run, tool: Tool, params: Params, adaptive: bool)
      returns (p: Disk, e: Evidence)
    requires Good(env, r) && r.exit.Running? && Requestable(env, r.now, tool, params, adaptive)
      && Execute(env, r, tool, params, adaptive).exit.Running?
    requires Resolve(env.specs, tool).Some? && Resolve(env.specs, tool).value.idempotent
    ensures Pending(env, p, e) && p.state.toolCalls == r.now.state.toolCalls + 1
    ensures Content(Execute(env, r, tool, params, adaptive).now, CommittedState(env, p.state, e), p.ledger + [e])
  {
    hide Inv, Good, Grows, LatestBudget, LatestBoundary, Emit, Save, Receive, CommittedState, Fits;
    NowGood(env, r);
    AuthorizedWhenRun(env, r.now, tool, params, adaptive);
    PreparedGood(env, r, tool, params, adaptive);
    var q := PreparedRun(env, r, tool, params, adaptive);
    NowGood(env, q);
    var x := NextExecution(env, r.now.state, tool, params, adaptive);
    p := q.now;
    assert Current(p) == x;
    var outcome := env.invoke(tool, x.params, x.action, p.ledger);
    ReceiveGood(env, q, outcome);
    assert Execute(env, r, tool, params, adaptive) == Receive(env, q, x, x.params, outcome) by {
      Unrefused(env, r, tool, params, adaptive);
    }
    e := RecordFor(x, outcome.result);
  }

  /** Every prepared execution of a tool that may be run again is one that any
      number of crashes leaves recoverable. */
  lemma PreparedIsRerunnable(env: Env, r: Run, tool: Tool, params: Params, adaptive: bool) returns (p: Run)
    requires Good(env, r) && r.exit.Running? && Requestable(env, r.now, tool, params, adaptive)
    requires Refusal(env, r.now, tool, params, adaptive).None?
    requires Resolve(env.specs, tool).Some? && Resolve(env.specs, tool).value.idempotent
    ensures Rerunnable(env, p.now) && p.now.state.toolCalls == r.now.state.toolCalls + 1
      && Extends(p, Execute(env, r, tool, params, adaptive))
    ensures Execute(env, r, tool, params, adaptive).exit == Whole(env, p.now).exit
  {
    hide Inv, Good, Grows, LatestBudget, LatestBoundary, Emit, Save, CommittedState, Commit, Refusal, Extends, First;
    AuthorizedWhenRun(env, r.now, tool, params, adaptive);
    PreparedGood(env, r, tool, params, adaptive);
    p := PreparedRun(env, r, tool, params, adaptive);
    NowGood(env, p);
    var x := NextExecution(env, r.now.state, tool, params, adaptive);
    assert Current(p.now) == x;
    RunningFacts(env, p.now);
    Unrefused(env, r, tool, params, adaptive);
    var outcome := env.invoke(tool, x.params, x.action, p.now.ledger);
    StartGood(env, p.now);
    ReceiveGood(env, p, outcome);
    ReceiveGood(env, Start(p.now), outcome);
    UnfitSame(env, p, x, outcome);
  }

  lemma UnfitSame(env: Env, p: Run, x: Execution, outcome: ToolOutcome)
    requires p.exit.Running?
    ensures !(outcome.Returns? && Fits(env, x, outcome.result)) ==>
      Receive(env, Start(p.now), x, x.params, outcome).exit == Receive(env, p, x, x.params, outcome).exit
  {
    hide Commit;
  }

  lemma Unrefused(env: Env, r: Run, tool: Tool, params: Params, adaptive: bool)
    requires Refusal(env, r.now, tool, params, adaptive).None? && env.schema(tool, params).Some?
      && Resolve(env.specs, tool).Some?
    requires PreparedRun(env, r, tool, params, adaptive).exit.Running?
    ensures var q := PreparedRun(env, r, tool, params, adaptive);
      var x := NextExecution(env, r.now.state, tool, params, adaptive);
      Execute(env, r, tool, params, adaptive) == Receive(env, q, x, x.params,
          env.invoke(tool, x.params, x.action, q.now.ledger))
  {
    hide Refusal, Receive, Emit, Save;
  }

  lemma AuthorizedWhenRun(env: Env, d: Disk, tool: Tool, params: Params, adaptive: bool)
    ensures Refusal(env, d, tool, params, adaptive).None? ==>
      Resolve(env.specs, tool).Some? && Resolve(env.specs, tool).value.authorized && env.inputsReady(tool, d.ledger)
  {
  }

  lemma CommittedRest(env: Env, s: State, e: Evidence)
    ensures var t := CommittedState(env, s, e);
      t == s.(status := t.status, evidenceRefs := t.evidenceRefs, completed := t.completed, candidates := t.candidates,
              hypotheses := t.hypotheses, strongest := t.strongest, executions := t.executions,
                  context := s.context + 1)
  {
  }
}
