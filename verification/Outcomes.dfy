/** The nodes that act on a decision: executing an approved experiment,
    evaluating a committed result, and ending the run. */
module Outcomes {
  import opened Domain
  import opened Store
  import opened Policy
  import opened Nodes
  import opened Invariant
  import opened Accounting
  import opened Steps
  import opened Writes
  import opened Committing
  import opened Recovery
  import opened Executing
  import opened Routing
  import opened Rules
  import opened NodeSafety

  // ---- the approved experiment ----

  /** The request that a decided proposal stands for. */
  function Request(s: State): (Tool, Params)
    requires ForExecution(s)
  {
    var (action, params) := Chosen(CurrentSkeptic(s).value, CurrentCritic(s).value);
    (action.tool, params)
  }

  /** Approval was judged by the guards that the execution applies again. */
  lemma ApprovedPasses(env: Env, d: Disk)
    requires Inv(env, d) && Open(d.state) && ForExecution(d.state)
    ensures var (tool, params) := Request(d.state);
      Refusal(env, d, tool, params, true) == if env.inputsReady(tool, d.ledger) then None
        else Some(Aborted(PreconditionUnmet, InsufficientEvidence, None))
  {
    hide Ledger, Roles, Spent, Account, AllAllowed, Reasons, Verdicts, Authority, ValidSnapshot, Executions,
      ProposalOf, ReviewOf, Revisions, NoAdaptive, Proposed, Reviewed, LatestBudget, LatestBoundary, Offer, Resolve,
      Executed;
    Admissible(env, d);
  }

  /** A proposal whose experiment has already run is refused. */
  lemma SpentRefused(env: Env, d: Disk)
    requires Inv(env, d) && !Open(d.state) && ForExecution(d.state) && !Stopped(d.state.status)
    ensures var (tool, params) := Request(d.state); Refusal(env, d, tool, params, true).Some?
  {
    hide Ledger, Roles, Proposal, Working, Account, AllAllowed, Reasons, Verdicts, Authority, ValidSnapshot,
      ProposalOf, ReviewOf, Revisions, LatestBudget, LatestBoundary, Offer, Resolve, Budgets, Open;
    var xs := d.state.executions;
    assert xs[|xs| - 1] in xs && xs[|xs| - 1].status.Completed?;
    assert Executed(xs, xs[|xs| - 1].signature);
  }

  /** The proposal was accepted, but the crash came before its status: the one
      state in which an approved experiment cannot be started. */
  predicate Stranded(s: State) { s.status.SelectingAdaptive? && Live(s) }

  /** The approved experiment runs in its step, unless the step is stranded. */
  lemma AdaptiveGood(env: Env, r: Run)
    requires Good(env, r) && r.exit.Running? && ForExecution(r.now.state) && Charged(r.now) && Registered(env)
    ensures var q := ExecuteAdaptive(env, r);
      && Good(env, q) && (q.exit.Running? ==> Performed(r.now, q.now)) && AtMostOne(r.now, q.now)
      && (q.exit.Faulted? <==> Stranded(r.now.state) && env.inputsReady(Request(r.now.state).0, r.now.ledger))
      && (q.exit.Faulted? ==> q == r.(exit := Faulted(IllegalTransition)))
      && (!Open(r.now.state) ==> q.exit.Aborted?)
      && (Open(r.now.state) && !env.inputsReady(Request(r.now.state).0, r.now.ledger) ==>
          q.exit.Aborted? && q.exit.kind.PreconditionUnmet?)
  {
    hide Good, Inv, Grows, LatestBudget, LatestBoundary, Refusal, Execute, Revisions, Live, CurrentSkeptic,
      CurrentCritic, Chosen, Performed, Charged, Missing;
    NowGood(env, r);
    var (tool, params) := Request(r.now.state);
    assert ExecuteAdaptive(env, r) == Execute(env, r, tool, params, true);
    if Open(r.now.state) { ApprovedPasses(env, r.now); } else { SpentRefused(env, r.now); }
    WorkingStatus(env, r.now);
    if r.now.state.status.WaitingForCritic? {
      ExecuteGood(env, r, tool, params, true);
      ReadyPasses(env, r, tool, params);
    } else {
      SelectingRefused(env, r, tool, params);
    }
  }

  lemma ReadyPasses(env: Env, r: Run, tool: Tool, params: Params)
    requires r.exit.Running?
    ensures Refusal(env, r.now, tool, params, true).Some? ==>
      Execute(env, r, tool, params, true) == Raise(r, Refusal(env, r.now, tool, params, true).value)
  {
    hide Refusal;
  }

  lemma SelectingRefused(env: Env, r: Run, tool: Tool, params: Params)
    requires Good(env, r) && r.exit.Running? && r.now.state.status.SelectingAdaptive?
    ensures var refusal := Refusal(env, r.now, tool, params, true); var q := Execute(env, r, tool, params, true);
      && Good(env, q)
      && q == (if refusal.Some? then r.(exit := refusal.value) else r.(exit := Faulted(IllegalTransition)))
      && (refusal.Some? ==> refusal.value.Aborted?)
  {
    hide Good, Inv, Grows, Refusal;
    var refusal := Refusal(env, r.now, tool, params, true);
    if refusal.Some? {
      RefusalAborts(env, r.now, tool, params, true);
      RaiseGood(env, r, refusal.value);
    } else {
      RefusalMeans(env, r.now, tool, params, true);
      RaiseGood(env, r, Faulted(IllegalTransition));
    }
  }

  // ---- evaluation ----

  lemma {:induction false} LatestIsLast(xs: seq<Execution>, step: nat)
    requires |xs| > 0 && xs[|xs| - 1].step == step && xs[|xs| - 1].evidence.Some?
    ensures LatestResulted(xs, step) == Some(xs[|xs| - 1])
  {
  }

  lemma LastById(ledger: seq<Evidence>)
    requires |ledger| > 0
    ensures RecordById(ledger, ledger[|ledger| - 1].id) == Some(ledger[|ledger| - 1])
  {
  }

  /** What is being evaluated: the last execution and the last record. */
  lemma UpdatingFacts(env: Env, d: Disk)
    requires Inv(env, d) && d.state.status.UpdatingEvidence?
    ensures var n := |d.state.executions|;
      && n > 0 && |d.ledger| == n && Charged(d) && d.ledger[n - 1].result.action == n - 1
      && d.ledger[n - 1].result.tool == d.state.executions[n - 1].tool
      && LastEnded(d.state.executions, d.ledger[n - 1].result.status)
      && (d.state.executions[n - 1].adaptive || Succeeds(d.ledger[n - 1].result.status) ==>
          Counts(d.state.executions[n - 1]))
      && LatestResulted(d.state.executions, d.state.step) == Some(d.state.executions[n - 1])
      && d.state.executions[n - 1].evidence.Some?
      && RecordById(d.ledger, d.state.executions[n - 1].evidence.value) == Some(d.ledger[n - 1])
      && FindExecution(d.state.executions, n - 1) == Some(d.state.executions[n - 1])
      && (d.state.executions[n - 1].status.Completed? || d.ledger[n - 1].result.status.ToolFailed?)
      && (d.state.executions[n - 1].adaptive ==> Missing(d.state) == {})
  {
    hide Roles, Proposal, Spent, Account, AllAllowed, Reasons, Verdicts, Authority, ValidSnapshot, Budgets,
      ProposalOf, ReviewOf, Revisions, LatestBudget, LatestBoundary, Missing, Proposed, Reviewed, Replay,
      LatestResulted, RecordById, FindExecution, Counted, Live;
    var n := |d.state.executions|;
    assert Referenced(d.state.evidenceRefs[n - 1], d.ledger[n - 1], d.state.executions[n - 1]);
    assert Answers(env, d.ledger[n - 1], d.state.executions[n - 1], n - 1);
    LatestIsLast(d.state.executions, d.state.step);
    LastById(d.ledger);
    FindByIndex(d.state.executions, 0, n - 1);
    assert d.state.executions[n - 1] in d.state.executions;
  }

  /** An evaluation changes the status, not the work done. */
  predicate Evaluated(d: Disk, q: Disk) {
    && q.ledger == d.ledger && q.state.toolCalls == d.state.toolCalls && q.state.step == d.state.step
    && q.state.limits == d.state.limits
    && q.state.adaptiveUsed == d.state.adaptiveUsed
    && LatestBudget(q.trace, q.state.step) == LatestBudget(d.trace, d.state.step)
    && LatestBoundary(q.trace, q.state.step) == LatestBoundary(d.trace, d.state.step)
    && (Stopped(q.state.status) || q.state.status.VettingMandatory? || q.state.status.SelectingAdaptive?
        || q.state.status.Finalizing?)
  }

  lemma EvaluatedTermination(env: Env, r: Run, kind: FailureKind, status: Status, action: Option<nat>)
    requires Good(env, r) && r.exit.Running? && !Stopped(r.now.state.status) && !r.now.state.status.RunningTool?
      && Failing(status)
    requires action.Some? ==> |r.now.state.executions| > 0 && action.value == |r.now.state.executions| - 1
    ensures var q := TerminateRun(r, kind, status, action);
      Good(env, q) && q.exit.Running? && Evaluated(r.now, q.now) && q.now.state.status == status
  {
    hide Inv, Good, Grows, FailExecution, LatestBudget, LatestBoundary, EmitAll;
    NowGood(env, r);
    TerminatedKeeps(env, r.now, kind, status, action);
    var s := TerminatedState(r.now.state, kind, status, action);
    WorkingStatus(env, r.now);
    SaveGood(env, r, s);
    EmitAllBeside(env, Save(r, s), [InferenceEvent] + (if action.Some? then [ToolEvent] else []) + [StatusChanged]);
  }

  // ---- reasons ----

  lemma BudgetTruth(env: Env, s: State, ledger: seq<Evidence>)
    requires BudgetReason(s).Some?
    ensures Truthful(env, BudgetReason(s).value, GroundsOf(s, ledger))
  {
    hide CurrentSkeptic, CurrentCritic, Codes, Decisive;
  }

  lemma NothingOffered(env: Env, s: State, ledger: seq<Evidence>, tool: Tool)
    requires Available(env, s) == []
    ensures Truthful(env, NoAvailableAction, GroundsOf(s, ledger))
    ensures HasUnaffordable(env, s) ==> Truthful(env, NoAffordableExperiment, GroundsOf(s, ledger))
    ensures LastEnded(s.executions, PreconditionFailed) && s.executions[|s.executions| - 1].tool == tool ==>
      Truthful(env, ReplanExhausted(tool), GroundsOf(s, ledger))
  {
    hide CurrentSkeptic, CurrentCritic, Codes, Decisive, Offer, Unaffordable;
  }

  lemma OutcomeTruth(env: Env, s: State, ledger: seq<Evidence>, status: ToolStatus)
    requires LastEnded(s.executions, status) && !status.Success? && s.limits.adaptive <= s.adaptiveUsed
    ensures Truthful(env, ScientificOutcome(status), GroundsOf(s, ledger))
  {
    hide CurrentSkeptic, CurrentCritic, Codes, Decisive;
  }

  lemma SameGrounds(d: Disk, e: Disk)
    requires Aside(d, e)
    ensures GroundsOf(d.state, d.ledger) == GroundsOf(e.state, e.ledger)
  {
    hide ProposalOf, ReviewOf, Codes, Decisive, LatestBudget, LatestBoundary;
  }

  ghost predicate Evaluation(env: Env, r: Run, q: Run) {
    Good(env, q) && q.exit.Running? && Evaluated(r.now, q.now)
  }

  lemma PrepareFinalizationGood(env: Env, r: Run, reason: Reason)
    requires Good(env, r) && r.exit.Running? && r.now.state.status.UpdatingEvidence? && Missing(r.now.state) == {}
    requires r.now.state.executions != [] && r.now.state.executions[|r.now.state.executions| - 1].status.Completed?
    requires Truthful(env, reason, GroundsOf(r.now.state, r.now.ledger))
    requires Counts(r.now.state.executions[|r.now.state.executions| - 1])
    ensures Evaluation(env, r, PrepareFinalization(r, reason))
      && PrepareFinalization(r, reason).now.state.status.Finalizing?
  {
    hide Inv, Good, Grows, LatestBudget, LatestBoundary, Emit, Missing;
    NowGood(env, r);
    FinalizingKeeps(env, r.now, reason);
    var s := r.now.state.(status := Finalizing, pendingFinal := Some(reason));
    SaveGood(env, r, s);
    EmitBeside(env, Save(r, s), StatusChanged);
  }

  lemma ReselectGood(env: Env, r: Run, failures: seq<FailureKind>)
    requires Good(env, r) && r.exit.Running? && r.now.state.status.UpdatingEvidence? && Missing(r.now.state) == {}
    requires r.now.state.executions != [] && r.now.state.executions[|r.now.state.executions| - 1].status.Completed?
    requires NoAdaptive(r.now.state.executions) ==> Decisive(Codes(r.now.ledger)).None?
    requires Counts(r.now.state.executions[|r.now.state.executions| - 1])
    requires NoAdaptive(r.now.state.executions) || Available(env, r.now.state) != []
    ensures Evaluation(env, r, Save(r, r.now.state.(status := SelectingAdaptive, failures := failures)))
    ensures Evaluation(env, r,
        Emit(Save(r, r.now.state.(status := SelectingAdaptive, failures := failures)), StatusChanged))
  {
    hide Inv, Good, Grows, LatestBudget, LatestBoundary, Emit, Missing;
    NowGood(env, r);
    ReselectKeeps(env, r.now, failures);
    var s := r.now.state.(status := SelectingAdaptive, failures := failures);
    SaveGood(env, r, s);
    EmitBeside(env, Save(r, s), StatusChanged);
  }

  lemma NotedFailure(env: Env, r: Run, failures: seq<FailureKind>)
    requires Good(env, r) && r.exit.Running?
    ensures var q := Save(r, r.now.state.(failures := failures));
      Good(env, q) && q.exit.Running? && q.now == r.now.(state := r.now.state.(failures := failures))
  {
    hide Inv, Good, Grows;
    NowGood(env, r);
    TrafficKeepsFrom(env, r, r.now.state.(failures := failures));
  }

  lemma BackToVetting(env: Env, r: Run)
    requires Good(env, r) && r.exit.Running? && r.now.state.status.UpdatingEvidence? && Missing(r.now.state) != {}
    requires r.now.state.executions != [] && r.now.state.executions[|r.now.state.executions| - 1].status.Completed?
    requires Counts(r.now.state.executions[|r.now.state.executions| - 1])
    ensures Evaluation(env, r, Save(r, r.now.state.(status := VettingMandatory)))
  {
    hide Inv, Good, Grows, LatestBudget, LatestBoundary, Missing;
    NowGood(env, r);
    VettingKeeps(env, r.now);
    SaveGood(env, r, r.now.state.(status := VettingMandatory));
  }

  lemma AfterResultGood(env: Env, r: Run)
    requires Good(env, r) && r.exit.Running? && r.now.state.status.UpdatingEvidence? && |r.now.ledger| > 0
    requires r.now.state.executions != [] && |r.now.ledger| == |r.now.state.executions|
    ensures var x := r.now.state.executions[|r.now.state.executions| - 1];
      Evaluation(env, r, AfterResult(env, r, Some(x), r.now.ledger[|r.now.ledger| - 1].result))
  {
    hide Inv, Good, Grows, LatestBudget, LatestBoundary, Missing, Emit, TerminateRun, PrepareFinalization, Available,
      BudgetReason, Evaluated, Codes, Decisive, Truthful, GroundsOf;
    NowGood(env, r);
    UpdatingFacts(env, r.now);
    var s := r.now.state;
    var x := s.executions[|s.executions| - 1];
    var result := r.now.ledger[|r.now.ledger| - 1].result;
    match result.status
    case ToolFailed => EvaluatedTermination(env, r, ToolInfrastructureFailure, Failed, Some(result.action));
    case NotImplemented => EvaluatedTermination(env, r, NotEnoughEvidence, InsufficientEvidence, None);
    case PreconditionFailed =>
      if !x.adaptive {
        EvaluatedTermination(env, r, PreconditionUnmet, InsufficientEvidence, None);
      } else if Available(env, s) != [] {
        assert x in s.executions;
        ReselectGood(env, r, s.failures + [PreconditionUnmet]);
      } else {
        NotedFailure(env, r, s.failures + [PreconditionUnmet]);
        var r1 := Save(r, s.(failures := s.failures + [PreconditionUnmet]));
        SameMissing(s, r1.now.state);
        NothingOffered(env, s, r.now.ledger, result.tool);
        SameGrounds(r.now, r1.now);
        PrepareFinalizationGood(env, r1, ReplanExhausted(result.tool));
        EvaluatedFrom(r.now, r1.now, PrepareFinalization(r1, ReplanExhausted(result.tool)).now);
      }
    case _ => DecidedNext(env, r);
  }

  lemma SameMissing(s: State, t: State)
    requires t == s.(failures := t.failures)
    ensures Missing(s) == Missing(t)
  {
  }

  lemma EvaluatedFrom(d: Disk, e: Disk, q: Disk)
    requires e == d.(state := d.state.(failures := e.state.failures)) && Evaluated(e, q)
    ensures Evaluated(d, q)
  {
    hide LatestBudget, LatestBoundary;
  }

  lemma BaselineOrMore(env: Env, d: Disk)
    requires Inv(env, d) && d.state.executions != []
    ensures !d.state.executions[|d.state.executions| - 1].adaptive ==> NoAdaptive(d.state.executions)
  {
    hide Ledger, Roles, Proposal, Spent, Working, Verdicts, Reasons, AllAllowed, Authority, Budgets, ValidSnapshot,
      Executions, Tally, Finals, Choosable, NoAdaptive, Decisive, BaselineCodes;
    var xs := d.state.executions;
    if !xs[|xs| - 1].adaptive { LastBaseline(xs); }
  }

  /** A conclusive, absent or inconclusive result. */
  lemma DecidedNext(env: Env, r: Run)
    requires Good(env, r) && r.exit.Running? && r.now.state.status.UpdatingEvidence? && |r.now.ledger| > 0
    requires r.now.state.executions != [] && |r.now.ledger| == |r.now.state.executions|
    requires Succeeds(r.now.ledger[|r.now.ledger| - 1].result.status)
    ensures var x := r.now.state.executions[|r.now.state.executions| - 1];
      Evaluation(env, r, AfterResult(env, r, Some(x), r.now.ledger[|r.now.ledger| - 1].result))
  {
    hide Inv, Good, Grows, LatestBudget, LatestBoundary, Missing, Emit, PrepareFinalization, Available, BudgetReason,
      Evaluated, Codes, Decisive, Save, CurrentSkeptic, CurrentCritic;
    NowGood(env, r);
    UpdatingFacts(env, r.now);
    var s := r.now.state;
    var x := s.executions[|s.executions| - 1];
    var result := r.now.ledger[|r.now.ledger| - 1].result;
    if Missing(s) != {} {
      BackToVetting(env, r);
    } else {
      BaselineOrMore(env, r.now);
      if Decisive(Codes(r.now.ledger)).None? && (x.adaptive ==> Available(env, s) != []) {
        ReselectGood(env, r, s.failures);
      }
      if Decisive(Codes(r.now.ledger)).Some? {
        PrepareFinalizationGood(env, r, DeterministicEvidence(Decisive(Codes(r.now.ledger)).value));
      } else if x.adaptive {
        if BudgetReason(s).Some? {
          BudgetTruth(env, s, r.now.ledger);
          PrepareFinalizationGood(env, r, BudgetReason(s).value);
        } else if Available(env, s) == [] {
          NothingOffered(env, s, r.now.ledger, result.tool);
          PrepareFinalizationGood(env, r, NoAvailableAction);
        }
      } else if !result.status.Success? && s.limits.adaptive <= s.adaptiveUsed {
        OutcomeTruth(env, s, r.now.ledger, result.status);
        PrepareFinalizationGood(env, r, ScientificOutcome(result.status));
      }
    }
  }

  /** An evaluation never aborts; it ends the run, prepares its end, or goes on. */
  lemma EvaluateGood(env: Env, r: Run)
    requires Good(env, r) && r.exit.Running? && Reached(env, EvaluateNode, r.now)
    ensures var step := Evaluate(env, r);
      && Good(env, step.r) && step.r.exit.Running?
      && (Stopped(r.now.state.status) ==> step == Step(r, None))
      && (!Stopped(r.now.state.status) ==> Evaluated(r.now, step.r.now))
      && (!Stopped(r.now.state.status) ==>
          step.route == Some(if step.r.now.state.status.Finalizing? then Finalize else NoopTerminal))
  {
    hide Inv, Good, Grows, LatestBudget, LatestBoundary, AfterResult, Evaluated;
    NowGood(env, r);
    if r.now.state.status.UpdatingEvidence? {
      UpdatingFacts(env, r.now);
      AfterResultGood(env, r);
    }
  }

  /** The newest record and the execution it answers. */
  function Latest(d: Disk): (Execution, ToolResult)
    requires d.state.executions != [] && d.ledger != []
  {
    (d.state.executions[|d.state.executions| - 1], d.ledger[|d.ledger| - 1].result)
  }

  /** Another experiment may still be chosen after this one. */
  predicate MayChoose(env: Env, s: State, adaptive: bool, status: ToolStatus) {
    if adaptive then s.adaptiveUsed < s.limits.adaptive && s.costLeft != 0 && Available(env, s) != []
    else status.Success? || s.adaptiveUsed < s.limits.adaptive
  }

  lemma {:induction false} EmitAllState(r: Run, kinds: seq<EventKind>)
    ensures EmitAll(r, kinds).now.state == r.now.state && EmitAll(r, kinds).exit == r.exit
    decreases kinds
  {
    if kinds != [] { EmitAllState(Emit(r, kinds[0]), kinds[1..]); }
  }

  lemma TerminateState(r: Run, kind: FailureKind, status: Status, action: Option<nat>)
    requires r.exit.Running? && TerminateRun(r, kind, status, action).exit.Running?
    ensures TerminateRun(r, kind, status, action).now.state == TerminatedState(r.now.state, kind, status, action)
  {
    hide FailExecution, ValidSnapshot, EmitAll, First, Extends;
    EmitAllState(Save(r, TerminatedState(r.now.state, kind, status, action)),
        [InferenceEvent] + (if action.Some? then [ToolEvent] else []) + [StatusChanged]);
  }

  /** What a saved evaluation leaves in the snapshot. */
  predicate DecidedAs(env: Env, s: State, q: State, adaptive: bool, result: ToolResult, decisive: Option<Code>) {
    && (Stopped(q.status) <==>
        result.status.ToolFailed? || result.status.NotImplemented? || (result.status.PreconditionFailed? && !adaptive))
    && (q.status.VettingMandatory? <==> Succeeds(result.status) && Missing(s) != {})
    && (q.status.SelectingAdaptive? <==>
          || (result.status.PreconditionFailed? && adaptive && Available(env, s) != [])
          || (Succeeds(result.status) && Missing(s) == {} && decisive.None?
              && MayChoose(env, s, adaptive, result.status)))
    && (Stopped(q.status) || q.status.VettingMandatory? || q.status.SelectingAdaptive? || q.status.Finalizing?)
    && (Succeeds(result.status) ==> q.failures == s.failures)
    && (!Succeeds(result.status) ==>
        q.failures == s.failures + [if result.status.PreconditionFailed? then PreconditionUnmet
          else if result.status.NotImplemented? then NotEnoughEvidence else ToolInfrastructureFailure])
    && (!Stopped(q.status) ==> q == s.(status := q.status, failures := q.failures, pendingFinal := q.pendingFinal))
    && (Stopped(q.status) ==>
          && q.status == (if result.status.ToolFailed? then Failed else InsufficientEvidence)
          && q.terminalReason == Some(Failure(q.failures[|q.failures| - 1])))
    && (q.status.Finalizing? ==> q.pendingFinal == Some(ReasonAfter(s, adaptive, result, decisive)))
  }

  /** Why an evaluated result prepares the end. */
  function ReasonAfter(s: State, adaptive: bool, result: ToolResult, decisive: Option<Code>): Reason {
    if result.status.PreconditionFailed? then ReplanExhausted(result.tool)
    else if decisive.Some? then DeterministicEvidence(decisive.value)
    else if !adaptive then ScientificOutcome(result.status)
    else if s.limits.adaptive <= s.adaptiveUsed then CountBudgetReached
    else if s.costLeft == 0 then CostBudgetExhausted
    else NoAvailableAction
  }

  lemma SavedState(r: Run, s: State, kind: EventKind)
    requires r.exit.Running?
    ensures Save(r, s).exit.Running? ==> Save(r, s).now.state == s
    ensures Emit(Save(r, s), kind).exit == Save(r, s).exit && Emit(Save(r, s), kind).now.state == Save(r, s).now.state
  {
    hide ValidSnapshot, MayMove;
  }

  lemma FinalizingState(r: Run, reason: Reason)
    requires r.exit.Running? && PrepareFinalization(r, reason).exit.Running?
    ensures PrepareFinalization(r, reason).now.state == r.now.state.(status := Finalizing, pendingFinal := Some(reason))
  {
    hide Save, Emit;
    SavedState(r, r.now.state.(status := Finalizing, pendingFinal := Some(reason)), StatusChanged);
  }

  lemma PreparedVoid(r: Run, reason: Reason)
    requires !r.exit.Running?
    ensures PrepareFinalization(r, reason) == r
  {
  }

  lemma AfterStatus(env: Env, r: Run, x: Execution, result: ToolResult)
    requires r.exit.Running? && AfterResult(env, r, Some(x), result).exit.Running?
    ensures DecidedAs(env, r.now.state, AfterResult(env, r, Some(x), result).now.state, x.adaptive, result,
        Decisive(Codes(r.now.ledger)))
  {
    hide Missing, Available, Codes, Decisive, TerminateRun, First, Extends, Save, Emit, PrepareFinalization,
      MayChoose;
    var s := r.now.state;
    match result.status
    case ToolFailed => TerminateState(r, ToolInfrastructureFailure, Failed, Some(result.action));
    case NotImplemented => TerminateState(r, NotEnoughEvidence, InsufficientEvidence, None);
    case PreconditionFailed =>
      var failures := s.failures + [PreconditionUnmet];
      if !x.adaptive {
        TerminateState(r, PreconditionUnmet, InsufficientEvidence, None);
      } else if Available(env, s) != [] {
        SavedState(r, s.(status := SelectingAdaptive, failures := failures), StatusChanged);
      } else {
        SavedState(r, s.(failures := failures), StatusChanged);
        var r1 := Save(r, s.(failures := failures));
        if r1.exit.Running? { FinalizingState(r1, ReplanExhausted(result.tool)); }
          else { PreparedVoid(r1, ReplanExhausted(result.tool)); }
      }
    case _ => SucceededStatus(env, r, x, result);
  }

  lemma SucceededStatus(env: Env, r: Run, x: Execution, result: ToolResult)
    requires r.exit.Running? && AfterResult(env, r, Some(x), result).exit.Running? && Succeeds(result.status)
    ensures DecidedAs(env, r.now.state, AfterResult(env, r, Some(x), result).now.state, x.adaptive, result,
        Decisive(Codes(r.now.ledger)))
  {
    hide Missing, Available, Codes, Decisive, First, Extends, Save, Emit, PrepareFinalization, TerminateRun;
    var s := r.now.state;
    SavedState(r, s.(status := VettingMandatory), StatusChanged);
    SavedState(r, s.(status := SelectingAdaptive), StatusChanged);
    forall reason: Reason | PrepareFinalization(r, reason).exit.Running?
      ensures PrepareFinalization(r, reason).now.state == s.(status := Finalizing, pendingFinal := Some(reason))
    {
      FinalizingState(r, reason);
    }
  }

  /** Exactly when an evaluation stops the run, returns to the baseline, goes on
      to choose an experiment, or prepares the end. */
  lemma EvaluationDecides(env: Env, r: Run)
    requires Good(env, r) && r.exit.Running? && r.now.state.status.UpdatingEvidence?
    ensures r.now.state.executions != [] && r.now.ledger != []
    ensures var (x, result) := Latest(r.now);
      DecidedAs(env, r.now.state, Evaluate(env, r).r.now.state, x.adaptive, result, Decisive(Codes(r.now.ledger)))
    ensures DecisiveIs(r.now.ledger, Decisive(Codes(r.now.ledger)))
  {
    hide Inv, Good, Grows, LatestBudget, LatestBoundary, LatestResulted, RecordById, FindExecution, First, Extends,
      AfterResult, DecidedAs;
    NowGood(env, r);
    UpdatingFacts(env, r.now);
    EvaluateGood(env, r);
    var (x, result) := Latest(r.now);
    assert Evaluate(env, r).r == AfterResult(env, r, Some(x), result);
    AfterStatus(env, r, x, result);
    DecisiveMeans(r.now.ledger);
  }

  // ---- the end ----

  /** The run is ready with the verdict of its ledger and its true reason, or has
      no verdict and ends for want of evidence. */
  predicate ConcludedAs(env: Env, d: Disk, q: Disk) {
    || (q.state.status.ReadyToLock? && q.state.disposition.Some?
        && VerdictIs(d.ledger, d.state.candidates != [], q.state.disposition)
        && ReasonIs(env, d.state, q.state.terminalReason))
    || (q.state.status.InsufficientEvidence? && VerdictIs(d.ledger, d.state.candidates != [], None)
        && q.state.terminalReason == Some(Failure(NotEnoughEvidence)))
  }

  lemma ConcludedFrom(env: Env, d: Disk, q: Disk)
    requires var disposition := DispositionOf(Codes(d.ledger), d.state.candidates != []);
      if disposition.Some? then
        q.state.status.ReadyToLock? && q.state.disposition == disposition
          && q.state.terminalReason == FinalReason(env, d.state)
      else q.state.status.InsufficientEvidence? && q.state.terminalReason == Some(Failure(NotEnoughEvidence))
    ensures ConcludedAs(env, d, q)
  {
    hide Codes, DispositionOf, FinalReason, VerdictIs, ReasonIs;
    DispositionMeans(d.ledger, d.state.candidates != []);
    ReasonMeans(env, d.state);
  }

  /** `finalize` always ends the run: ready to lock, or without enough evidence. */
  lemma FinalGood(env: Env, r: Run, o: Oracle)
    requires Good(env, r) && r.exit.Running? && Reached(env, FinalNode, r.now)
    ensures var q := FinalizeNode(env, r, o);
      var disposition := DispositionOf(Codes(r.now.ledger), r.now.state.candidates != []);
      && Good(env, q) && q.exit.Running? && q.now.ledger == r.now.ledger && q.now.state.step == r.now.state.step
      && q.now.state.toolCalls == r.now.state.toolCalls && q.now.state.limits == r.now.state.limits
      && (disposition.Some? ==> q.now.state.status.ReadyToLock? && q.now.state.disposition == disposition)
      && (disposition.None? ==>
          q.now.state.status.InsufficientEvidence? && q.now.state.disposition == r.now.state.disposition)
      && (disposition.Some? ==> q.now.state.terminalReason == FinalReason(env, r.now.state))
      && ConcludedAs(env, r.now, q.now)
      && (env.multiAgent ==>
            q.now.decisions == WithRole(r.now.decisions, r.now.state.context, Director, Final, o.final))
      && (!env.multiAgent ==> q.now.decisions == r.now.decisions)
  {
    hide Inv, Good, Grows, LatestBudget, LatestBoundary, OptionalRole, Conclude, Codes, DispositionOf, Available,
      BudgetReason, CurrentSkeptic, CurrentCritic, Open, AvailabilityReason, ConcludedAs, Known;
    NowGood(env, r);
    FinalFacts(env, r.now);
    var reason := FinalReason(env, r.now.state).value;
    OptionalRoleBeside(env, r, Director, Final, o.finalLog, o.final);
    var r1 := if env.multiAgent then OptionalRole(r, Director, Final, o.finalLog, o.final) else r;
    BesideReached(env, FinalNode, r, OptionalRole(r, Director, Final, o.finalLog, o.final));
    SameGrounds(r.now, OptionalRole(r, Director, Final, o.finalLog, o.final).now);
    ConcludeGood(env, r1, reason);
    SameContext(env, r, OptionalRole(r, Director, Final, o.finalLog, o.final));
    ConcludedFrom(env, r.now, FinalizeNode(env, r, o).now);
  }

  /** There is always a reason to end, and it is true. */
  lemma FinalFacts(env: Env, d: Disk)
    requires Inv(env, d) && Reached(env, FinalNode, d)
    ensures FinalReason(env, d.state).Some?
      && Truthful(env, FinalReason(env, d.state).value, GroundsOf(d.state, d.ledger))
    ensures d.state.status.SelectingAdaptive? || d.state.status.WaitingForCritic? || d.state.status.Finalizing?
  {
    hide Ledger, Roles, Proposal, Spent, Working, Verdicts, Authority, Budgets, Executions, ProposalOf, ReviewOf,
      Available, HasUnaffordable, BudgetReason, Codes, Decisive, MeansOf, Offer, Unaffordable;
    var s := d.state;
    if s.status.SelectingAdaptive? && CurrentSkeptic(s).None? {
      if BudgetReason(s).Some? { BudgetTruth(env, s, d.ledger); } else { NothingOffered(env, s, d.ledger, SearchBls); }
    }
  }

  lemma ConcludeGood(env: Env, r: Run, reason: Reason)
    requires Good(env, r) && r.exit.Running?
    requires r.now.state.status.SelectingAdaptive? || r.now.state.status.WaitingForCritic?
      || r.now.state.status.Finalizing?
    requires Truthful(env, reason, GroundsOf(r.now.state, r.now.ledger))
    ensures var q := Conclude(r, reason);
      var disposition := DispositionOf(Codes(r.now.ledger), r.now.state.candidates != []);
      && Good(env, q) && q.exit.Running? && q.now.ledger == r.now.ledger && q.now.state.step == r.now.state.step
      && q.now.state.toolCalls == r.now.state.toolCalls && q.now.state.limits == r.now.state.limits
      && (disposition.Some? ==> q.now.state.status.ReadyToLock? && q.now.state.disposition == disposition)
      && (disposition.None? ==>
          q.now.state.status.InsufficientEvidence? && q.now.state.disposition == r.now.state.disposition)
      && q.now.state.terminalReason == Some(if disposition.Some? then reason else Failure(NotEnoughEvidence))
      && q.now.decisions == r.now.decisions
  {
    hide Inv, Good, Grows, EmitAll, Codes, DispositionOf, TerminateRun, Missing, Truthful, GroundsOf, First, Extends,
      Save;
    NowGood(env, r);
    WorkingStatus(env, r.now);
    if DispositionOf(Codes(r.now.ledger), r.now.state.candidates != []).Some? {
      ReadyGood(env, r, reason);
    } else {
      TerminateGood(env, r, NotEnoughEvidence, InsufficientEvidence, None);
    }
  }

  function ReadyState(s: State, disposition: Option<Disposition>, reason: Reason): State {
    s.(status := ReadyToLock, disposition := disposition, pendingFinal := None, terminalReason := Some(reason))
  }

  lemma ReadyGood(env: Env, r: Run, reason: Reason)
    requires Good(env, r) && r.exit.Running?
    requires r.now.state.status.SelectingAdaptive? || r.now.state.status.WaitingForCritic?
      || r.now.state.status.Finalizing?
    requires Truthful(env, reason, GroundsOf(r.now.state, r.now.ledger))
      && DispositionOf(Codes(r.now.ledger), r.now.state.candidates != []).Some?
    ensures var s := ReadyState(r.now.state, DispositionOf(Codes(r.now.ledger), r.now.state.candidates != []), reason);
      var q := EmitAll(Save(r, s), [InferenceEvent, StatusChanged]);
      Good(env, q) && q.exit.Running? && q.now.ledger == r.now.ledger && q.now.state == s
        && q.now.decisions == r.now.decisions
  {
    hide Inv, Good, Grows, LatestBudget, LatestBoundary, EmitAll, Codes, DispositionOf, Truthful, GroundsOf, First,
      Extends;
    NowGood(env, r);
    ReadyKeeps(env, r.now, reason);
    var s := ReadyState(r.now.state, DispositionOf(Codes(r.now.ledger), r.now.state.candidates != []), reason);
    SaveGood(env, r, s);
    EmitAllBeside(env, Save(r, s), [InferenceEvent, StatusChanged]);
  }
}
