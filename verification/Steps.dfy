/** Each kind of durable write keeps the invariant. */
module Steps {
  import opened Domain
  import opened Store
  import opened Policy
  import opened Nodes
  import opened Invariant
  import opened Accounting

  function WithEvent(d: Disk, kind: EventKind): Disk {
    d.(trace := d.trace + [Event(|d.trace| + 1, d.state.step, kind)])
  }

  predicate Neutral(kind: EventKind) { !kind.BudgetUpdated? && !Boundary(kind) }

  lemma TraceQueries(trace: seq<Event>, e: Event, step: nat)
    ensures LatestBudget(trace + [e], step) ==
      if e.step == step && e.kind.BudgetUpdated? then
        Max(LatestBudget(trace, step), e.sequence) else LatestBudget(trace, step)
    ensures LatestBoundary(trace + [e], step) ==
      if e.step == step && Boundary(e.kind) then
        Max(LatestBoundary(trace, step), e.sequence) else LatestBoundary(trace, step)
  {
    assert (trace + [e])[..|trace|] == trace;
  }

  /** Nothing is known of a step the trace has not reached. */
  lemma {:induction false} FutureStep(trace: seq<Event>, step: nat)
    requires forall i :: 0 <= i < |trace| ==> trace[i].step < step
    ensures LatestBudget(trace, step) == 0 && LatestBoundary(trace, step) == 0
  {
    if trace != [] { FutureStep(trace[..|trace| - 1], step); }
  }

  /** Sequence numbers never exceed the length of the trace. */
  lemma {:induction false} QueriesBounded(trace: seq<Event>, step: nat)
    requires forall i :: 0 <= i < |trace| ==> trace[i].sequence == i + 1
    ensures LatestBudget(trace, step) <= |trace| && LatestBoundary(trace, step) <= |trace|
  {
    if trace != [] { QueriesBounded(trace[..|trace| - 1], step); }
  }

  lemma NoteKeeps(env: Env, d: Disk, kind: EventKind)
    requires Inv(env, d) && Neutral(kind)
    ensures Inv(env, WithEvent(d, kind)) && Grows(d, WithEvent(d, kind))
  {
    hide Records, Replay, Account, AllAllowed, Truthful, Approvable, Distinct, Known, UniqueKeys, SumCost,
      CountAdaptive, ProposalOf, ReviewOf, LatestBudget, LatestBoundary, Codes;
    AccountFiles(env, d, WithEvent(d, kind));
    TraceQueries(d.trace, Event(|d.trace| + 1, d.state.step, kind), d.state.step);
  }

  /** Announcing a result is safe once its proposal is no longer open. */
  lemma BoundaryKeeps(env: Env, d: Disk, kind: EventKind)
    requires Inv(env, d) && Boundary(kind) && !Open(d.state)
    ensures Inv(env, WithEvent(d, kind)) && Grows(d, WithEvent(d, kind))
  {
    hide Records, Replay, Account, AllAllowed, Truthful, Approvable, Distinct, Known, UniqueKeys, SumCost,
      CountAdaptive, ProposalOf, ReviewOf, LatestBudget, LatestBoundary, Codes;
    AccountFiles(env, d, WithEvent(d, kind));
    TraceQueries(d.trace, Event(|d.trace| + 1, d.state.step, kind), d.state.step);
  }

  lemma BudgetEventKeeps(env: Env, d: Disk)
    requires Inv(env, d)
    ensures Inv(env, WithEvent(d, BudgetUpdated)) && Grows(d, WithEvent(d, BudgetUpdated))
      && Fresh(WithEvent(d, BudgetUpdated))
  {
    hide Records, Replay, Account, AllAllowed, Truthful, Approvable, Distinct, Known, UniqueKeys, SumCost,
      CountAdaptive, ProposalOf, ReviewOf, LatestBudget, LatestBoundary, Codes;
    AccountFiles(env, d, WithEvent(d, BudgetUpdated));
    TraceQueries(d.trace, Event(|d.trace| + 1, d.state.step, BudgetUpdated), d.state.step);
    QueriesBounded(d.trace, d.state.step);
  }

  lemma {:induction false} NoProposalAhead(ks: seq<Skeptic>, step: nat)
    requires forall k :: k in ks ==> k.step < step
    ensures ProposalOf(ks, step).None?
  {
    if ks != [] { NoProposalAhead(ks[..|ks| - 1], step); }
  }

  /** Charging a step: nothing of the new step exists yet. */
  lemma ChargeKeeps(env: Env, d: Disk)
    requires Inv(env, d) && !Stopped(d.state.status) && RequiresBegin(d) && !PendingEvaluation(d)
      && d.state.step < d.state.limits.steps
    ensures var e := d.(state := d.state.(step := d.state.step + 1));
      Inv(env, e) && Grows(d, e) && CurrentSkeptic(e.state).None? && !e.state.status.UpdatingEvidence?
  {
    hide Records, Replay, Account, AllAllowed, Truthful, Approvable, Distinct, UniqueKeys, SumCost, CountAdaptive,
      ProposalOf, ReviewOf, LatestBudget, LatestBoundary, Codes;
    var e := d.(state := d.state.(step := d.state.step + 1));
    NoProposalAhead(d.state.accepted, e.state.step);
    assert !Open(d.state);
    AccountCharge(env, d, e.state);
    if d.state.status.UpdatingEvidence? { ChargedPending(d); assert false; }
  }

  /** A charged step with a committed result is pending evaluation. */
  lemma ChargedPending(d: Disk)
    requires d.state.status.UpdatingEvidence? && Charged(d)
    ensures PendingEvaluation(d)
  {
    BudgetWitness(d.trace, d.state.step);
  }

  lemma {:induction false} BudgetWitness(trace: seq<Event>, step: nat)
    requires LatestBudget(trace, step) > 0
    ensures exists e :: e in trace && e.step == step && e.kind.BudgetUpdated?
  {
    var e := trace[|trace| - 1];
    if !(e.step == step && e.kind.BudgetUpdated?) { BudgetWitness(trace[..|trace| - 1], step); }
  }

  lemma SideRecords(env: Env, d: Disk, s: State)
    requires Inv(env, d) && SideOnly(d, s)
    ensures ValidSnapshot(s) && Executions(s) && Ledger(env, s, d.ledger) && Verdicts(s, d.ledger)
      && Authority(s, d.result, d.digest, d.catalog)
  {
    hide Records, Replay, Distinct, SumCost, CountAdaptive, Codes, DispositionOf, TestsIn, Decisive, Budgets, Roles,
      Proposal, Spent, Working, Reasons, LatestBudget, LatestBoundary;
  }

  lemma SideProposals(env: Env, d: Disk, s: State)
    requires Inv(env, d) && SideOnly(d, s)
    ensures Proposal(env, s, Fresh(d)) && Spent(env, s) && Working(s, Charged(d)) && Reasons(env, s, d.ledger)
  {
    hide Account, AllAllowed, Truthful, Approvable, ProposalOf, ReviewOf, Codes, Decisive, TestsIn, NoAdaptive,
      Revisions, Proposed, Reviewed, Budgets, Roles, Ledger, Executions, ValidSnapshot, Verdicts, Authority,
      LatestBudget, LatestBoundary;
  }

  /** Counters of inference traffic. */
  lemma TrafficKeeps(env: Env, d: Disk, s: State)
    requires Inv(env, d)
    requires s == d.state.(modelCalls := s.modelCalls, retries := s.retries, failures := s.failures)
    requires s.modelCalls <= s.limits.modelCalls && s.retries <= s.limits.retries
    ensures Inv(env, d.(state := s)) && Grows(d, d.(state := s))
  {
    hide Account, AllAllowed, TestsIn, Known, UniqueKeys, SumCost, CountAdaptive, ProposalOf, ReviewOf, LatestBudget,
      LatestBoundary, Executions, Ledger, Verdicts, Authority, Proposal, Spent, Working, Reasons, ValidSnapshot;
    AccountSide(env, d, s);
    SideRecords(env, d, s);
    SideProposals(env, d, s);
  }

  lemma CheckpointsKeep(env: Env, d: Disk, cs: seq<Checkpoint>)
    requires Inv(env, d)
    requires forall i, j :: 0 <= i < j < |cs| ==> !SameKey(cs[i], cs[j])
    requires forall c :: c in cs ==> c in d.decisions
    ensures var e := d.(state := d.state.(checkpoints := cs)); Inv(env, e) && Grows(d, e)
  {
    hide Account, AllAllowed, TestsIn, Known, SumCost, CountAdaptive, ProposalOf, ReviewOf, LatestBudget,
      LatestBoundary, Executions, Ledger, Verdicts, Authority, Proposal, Spent, Working, Reasons, ValidSnapshot;
    AccountSide(env, d, d.state.(checkpoints := cs));
    SideRecords(env, d, d.state.(checkpoints := cs));
    SideProposals(env, d, d.state.(checkpoints := cs));
  }

  /** A decision record with a new key; skeptic and critic keys need their decision. */
  lemma DecisionKeeps(env: Env, d: Disk, c: Checkpoint)
    requires Inv(env, d) && !Stopped(d.state.status) && c.context == d.state.context
    requires !Known(d.decisions, c.role, c.phase, c.context)
    requires c.role.SkepticRole? ==> Live(d.state)
    requires c.role.CriticRole? ==> Live(d.state) && CurrentCritic(d.state).Some?
    requires c.role.Director? && c.phase.Final? ==> ForFinal(env, d.state)
    ensures var e := d.(decisions := d.decisions + [c]); Inv(env, e) && Grows(d, e)
  {
    hide ForFinal, Records, Replay, Account, AllAllowed, Truthful, Approvable, Distinct, SumCost, CountAdaptive,
      ProposalOf, ReviewOf, LatestBudget, LatestBoundary, Codes;
    var e := d.(decisions := d.decisions + [c]);
    AccountDecision(env, d, c);
    forall i, j | 0 <= i < j < |e.decisions| ensures !SameKey(e.decisions[i], e.decisions[j]) {
      assert e.decisions[i] in d.decisions;
    }
    assert Known(e.decisions, SkepticRole, Decision, c.context) ==>
      Known(d.decisions, SkepticRole, Decision, c.context) || c.role.SkepticRole?;
    assert Known(e.decisions, CriticRole, Review, c.context) ==>
      Known(d.decisions, CriticRole, Review, c.context) || c.role.CriticRole?;
  }

  lemma SelectingKeeps(env: Env, d: Disk)
    requires Inv(env, d) && d.state.status.SelectingAdaptive? && CurrentSkeptic(d.state).None?
    ensures var e := d.(state := Selecting(env, d.state)); Inv(env, e) && Grows(d, e)
  {
    hide Records, Replay, Account, AllAllowed, Truthful, Approvable, Distinct, UniqueKeys, Revisions, SumCost,
      CountAdaptive, ProposalOf, ReviewOf, LatestBudget, LatestBoundary, Codes;
    AccountSelecting(env, d);
  }

  lemma ProposalPushed(ks: seq<Skeptic>, k: Skeptic)
    ensures ProposalOf(ks + [k], k.step) == Some(k)
  {
  }

  lemma {:induction false} NoReview(cs: seq<Critic>, k: Skeptic)
    requires forall c :: c in cs ==> c.step != k.step
    ensures ReviewOf(cs, k).None?
  {
    if cs != [] { NoReview(cs[..|cs| - 1], k); }
  }

  lemma AcceptMeans(env: Env, s: State, k: Skeptic)
    requires JudgeSkeptic(env, s, k, s.available).Accept?
    ensures s.available != [] && !k.foreign && k.sound && k.declaredBudget == s.costLeft && CostDeclared(env, k)
  {
    hide Resolve;
  }

  lemma AcceptKeeps(env: Env, d: Disk, k: Skeptic)
    requires Inv(env, d) && d.state.status.SelectingAdaptive? && CurrentSkeptic(d.state).None? && Fresh(d)
    requires d.state.available == Available(env, d.state) && BudgetReason(d.state).None?
    requires JudgeSkeptic(env, d.state, k, d.state.available).Accept?
    requires env.multiAgent ==> BriefedFor(d.decisions, d.state.context)
    ensures var e := d.(state := d.state.(accepted := d.state.accepted + [k]));
      Inv(env, e) && Grows(d, e) && CurrentSkeptic(e.state) == Some(k) && Live(e.state) && CurrentCritic(e.state).None?
  {
    hide Account, AllAllowed, Truthful, TestsIn, Records, Replay, Distinct, UniqueKeys, Offer, Resolve, SumCost,
      CountAdaptive, ProposalOf, ReviewOf, LatestBudget, LatestBoundary, Codes;
    var e := d.(state := d.state.(accepted := d.state.accepted + [k]));
    AcceptMeans(env, d.state, k);
    AccountAccept(env, d, k);
    ProposalPushed(d.state.accepted, k);
    NoReview(d.state.critics, k);
  }

  lemma WaitingKeeps(env: Env, d: Disk)
    requires Inv(env, d) && d.state.status.SelectingAdaptive? && Live(d.state)
    ensures var e := d.(state := d.state.(status := WaitingForCritic)); Inv(env, e) && Grows(d, e)
  {
    hide Records, Replay, Account, AllAllowed, Truthful, Approvable, Distinct, Known, UniqueKeys, SumCost,
      CountAdaptive, ProposalOf, ReviewOf, LatestBudget, LatestBoundary, Codes;
    var e := d.(state := d.state.(status := WaitingForCritic));
    AccountWaiting(env, d);
    var k := CurrentSkeptic(d.state).value;
  }

  lemma ReviewPushed(cs: seq<Critic>, c: Critic, k: Skeptic)
    requires c.step == k.step && c.proposal == k.id
    ensures ReviewOf(cs + [c], k) == Some(c)
    ensures Revisions(cs + [c]) == Revisions(cs) + (if c.verdict.Revise? then 1 else 0)
  {
    assert (cs + [c])[..|cs|] == cs;
  }

  lemma ReviewMeans(env: Env, s: State, k: Skeptic, c: Critic)
    requires JudgeCritic(env, s, k, c, s.available).Accept?
    ensures c.step == k.step && c.proposal == k.id && c.context == s.context && !c.foreign && c.sound
    ensures c.verdict.Revise? ==>
      s.revisions < s.limits.revisions && JudgeAction(env, MeansOf(s), c.action, c.params, s.available).Accept?
  {
  }

  lemma ReviewKeeps(env: Env, d: Disk, c: Critic)
    requires Inv(env, d) && Open(d.state) && CurrentCritic(d.state).None?
    requires JudgeCritic(env, d.state, CurrentSkeptic(d.state).value, c, d.state.available).Accept?
    ensures var e := d.(state := d.state.(critics := d.state.critics + [c]));
      Inv(env, e) && Grows(d, e) && CurrentSkeptic(e.state) == CurrentSkeptic(d.state)
        && CurrentCritic(e.state) == Some(c)
  {
    hide Account, AllAllowed, Truthful, TestsIn, Records, Replay, Distinct, UniqueKeys, Offer, JudgeAction,
      JudgeCritic, Revisions, SumCost, CountAdaptive, ProposalOf, ReviewOf, LatestBudget, LatestBoundary, Codes;
    var e := d.(state := d.state.(critics := d.state.critics + [c]));
    var k := CurrentSkeptic(d.state).value;
    AccountReview(env, d, c);
    ReviewMeans(env, d.state, k, c);
    ReviewPushed(d.state.critics, c, k);
  }

  lemma ResolvedKeeps(env: Env, d: Disk)
    requires Inv(env, d) && Open(d.state) && d.state.revisions < Revisions(d.state.critics)
    ensures var e := d.(state := d.state.(revisions := Revisions(d.state.critics))); Inv(env, e) && Grows(d, e)
  {
    hide Records, Replay, Account, AllAllowed, Truthful, Approvable, Distinct, Known, UniqueKeys, SumCost,
      CountAdaptive, ProposalOf, ReviewOf, LatestBudget, LatestBoundary, Codes;
    AccountResolved(env, d);
  }

  lemma Sums(xs: seq<Execution>, x: Execution)
    ensures SumCost(xs + [x]) == SumCost(xs) + x.cost
    ensures CountAdaptive(xs + [x]) == CountAdaptive(xs) + (if x.adaptive then 1 else 0)
  {
    assert (xs + [x])[..|xs|] == xs;
  }

  /** Executions that differ only in how they ended cost the same. */
  lemma {:induction false} SameSums(xs: seq<Execution>, ys: seq<Execution>)
    requires |xs| == |ys| && forall i :: 0 <= i < |xs| ==> ys[i].cost == xs[i].cost && ys[i].adaptive == xs[i].adaptive
    ensures SumCost(xs) == SumCost(ys) && CountAdaptive(xs) == CountAdaptive(ys)
  {
    if xs != [] { SameSums(xs[..|xs| - 1], ys[..|ys| - 1]); }
  }

  lemma RefusalMeans(env: Env, d: Disk, tool: Tool, params: Params, adaptive: bool)
    requires Refusal(env, d, tool, params, adaptive).None?
    ensures AdmissionOpen(d.state) && d.state.toolCalls < d.state.limits.toolCalls
    ensures Resolve(env.specs, tool).Some? && env.schema(tool, params).Some?
    ensures var spec := Resolve(env.specs, tool).value;
      && spec.authorized && spec.required <= CompletedSet(d.state)
      && (if adaptive then spec.adaptive && Use(tool) in Available(env, d.state) else spec.mandatory.Some?)
    ensures adaptive ==>
      d.state.adaptiveUsed < d.state.limits.adaptive && Resolve(env.specs, tool).value.cost <= d.state.costLeft
        && Missing(d.state) == {}
    ensures !Executed(d.state.executions, Signature(tool, env.schema(tool, params).value))
    ensures env.inputsReady(tool, d.ledger)
  {
  }

  function Extended(d: Disk, x: Execution): Disk { d.(state := PreparedState(d.state, x)) }

  lemma NewSignature(xs: seq<Execution>, x: Execution)
    requires Distinct(xs) && x.action == |xs| && x.signature == Signature(x.tool, x.params)
    requires !Executed(xs, x.signature) && forall y :: y in xs ==> y.status.Completed?
    ensures Distinct(xs + [x])
  {
    var ys := xs + [x];
    forall i, j | 0 <= i < j < |ys| ensures ys[i].signature != ys[j].signature {
      if j == |xs| { assert xs[i] in xs; }
    }
  }

  lemma ExtendedLists(xs: seq<Execution>, x: Execution, step: nat)
    requires AllValid(xs) && WithinStep(xs, step) && ValidExecution(x) && x.step <= step
    ensures AllValid(xs + [x]) && WithinStep(xs + [x], step)
    ensures NoAdaptive(xs + [x]) <==> NoAdaptive(xs) && !x.adaptive
  {
    assert x in xs + [x];
    assert forall y :: y in xs ==> y in xs + [x];
  }

  lemma ExtendedRecords(env: Env, xs: seq<Execution>, x: Execution, refs: seq<EvidenceId>, ledger: seq<Evidence>)
    requires Records(env, xs, refs, ledger) && |xs| == |refs| && x.evidence.None? && Validated(env, x)
    ensures Records(env, xs + [x], refs, ledger)
  {
  }

  lemma AllCompleted(env: Env, d: Disk)
    requires Inv(env, d) && !Stopped(d.state.status) && !d.state.status.RunningTool?
      && !d.state.status.UpdatingEvidence?
    ensures |d.state.executions| == |d.state.evidenceRefs| == |d.ledger|
    ensures forall y :: y in d.state.executions ==> y.status.Completed?
  {
    hide Replay, Account, AllAllowed, Truthful, Approvable, Known, UniqueKeys, SumCost, CountAdaptive, ProposalOf,
      ReviewOf, LatestBudget, LatestBoundary, Codes;
  }

  /** The reviewed proposal of this step stands for this request. */
  predicate Elected(s: State, tool: Tool, params: Params)
    requires CurrentSkeptic(s).Some?
  {
    && CurrentCritic(s).Some? && !CurrentCritic(s).value.verdict.Veto?
    && Chosen(CurrentSkeptic(s).value, CurrentCritic(s).value) == (Use(tool), params)
  }

  function NextExecution(env: Env, s: State, tool: Tool, params: Params, adaptive: bool): Execution
    requires env.schema(tool, params).Some? && Resolve(env.specs, tool).Some?
  {
    NewExecution(s, tool, env.schema(tool, params).value, adaptive, Resolve(env.specs, tool).value.cost)
  }

  /** What a request must meet to be prepared. */
  ghost predicate Preparable(env: Env, d: Disk, tool: Tool, params: Params, adaptive: bool) {
    && Inv(env, d) && (d.state.status.VettingMandatory? || d.state.status.WaitingForCritic?)
    && Refusal(env, d, tool, params, adaptive).None? && Charged(d) && Revisions(d.state.critics) == d.state.revisions
    && Registered(env) && (CurrentSkeptic(d.state).Some? ==> Elected(d.state, tool, params))
    && Purposeful(env, d.state, tool, adaptive)
  }

  /** A baseline request is for a test still missing; an experiment was reviewed. */
  predicate Purposeful(env: Env, s: State, tool: Tool, adaptive: bool) {
    if adaptive then s.status.WaitingForCritic?
    else TestOf(env, tool).Some? && TestOf(env, tool).value !in s.completed
  }

  /** The charge fits every budget and the records. */
  lemma PreparedCounts(env: Env, d: Disk, tool: Tool, params: Params, adaptive: bool)
    requires Preparable(env, d, tool, params, adaptive)
    ensures env.schema(tool, params).Some? && Resolve(env.specs, tool).Some?
    ensures var s := PreparedState(d.state, NextExecution(env, d.state, tool, params, adaptive));
      ValidSnapshot(s) && Budgets(s) && Executions(s) && Ledger(env, s, d.ledger)
  {
    hide TestsIn, Replay, Account, AllAllowed, Truthful, Approvable, Known, UniqueKeys, Refusal, Resolve, Distinct,
      AllValid, WithinStep, NoAdaptive, Records, Revisions, SumCost, CountAdaptive, ProposalOf, ReviewOf,
      LatestBudget, LatestBoundary, Codes, Spent, Proposal, Working, Reasons, Verdicts, Authority, Roles, Elected;
    RefusalMeans(env, d, tool, params, adaptive);
    AllCompleted(env, d);
    var x := NextExecution(env, d.state, tool, params, adaptive);
    assert Idempotent(env, tool, params);
    ExtendedLists(d.state.executions, x, d.state.step);
    ExtendedRecords(env, d.state.executions, x, d.state.evidenceRefs, d.ledger);
    NewSignature(d.state.executions, x);
    Sums(d.state.executions, x);
  }

  /** The PREPARED snapshot: charged before anything runs. */
  lemma PrepareKeeps(env: Env, d: Disk, tool: Tool, params: Params, adaptive: bool)
    requires Preparable(env, d, tool, params, adaptive)
    ensures env.schema(tool, params).Some? && Resolve(env.specs, tool).Some?
    ensures var e := Extended(d, NextExecution(env, d.state, tool, params, adaptive)); Inv(env, e) && Grows(d, e)
  {
    hide TestsIn, DispositionOf, LockedContent, Replay, Account, AllAllowed, Truthful, Approvable, Known, UniqueKeys,
      Refusal, Resolve, Distinct, AllValid, WithinStep, NoAdaptive, Records, Revisions, SumCost, CountAdaptive,
      ProposalOf, ReviewOf, LatestBudget, LatestBoundary, Codes, Budgets, Ledger, Executions;
    RefusalMeans(env, d, tool, params, adaptive);
    PreparedCounts(env, d, tool, params, adaptive);
    var x := NextExecution(env, d.state, tool, params, adaptive);
    ExtendedLists(d.state.executions, x, d.state.step) by { assert Executions(d.state); UnfoldLists(d.state); }
    assert Extended(d, x).state.executions[|d.state.executions|] == x;
    ExtendedAllowed(env, d, tool, params, adaptive);
    ExtendedAccount(env, d, tool, params, adaptive);
  }

  lemma NotMissing(s: State, t: Test)
    requires t !in s.completed
    ensures Missing(s) != {}
  {
    assert t in MANDATORY_TESTS;
    assert t in Missing(s);
  }

  lemma ExtendedAccount(env: Env, d: Disk, tool: Tool, params: Params, adaptive: bool)
    requires Preparable(env, d, tool, params, adaptive) && env.schema(tool, params).Some?
      && Resolve(env.specs, tool).Some?
    ensures Account(env, Extended(d, NextExecution(env, d.state, tool, params, adaptive)))
    ensures Missing(d.state) == {} ==> adaptive
  {
    hide Refusal, Resolve, Budgets, Ledger, Executions, ValidSnapshot, Proposal, Spent, Roles, Reasons, Authority,
      LatestBudget, LatestBoundary, NoAdaptive, ProposalOf, ReviewOf, Revisions, Codes, Decisive, TestOf, Offer,
      AllCovered, Unswayed, Missing, Known, Chosen, Counted, Proposed, Reviewed, DispositionOf;
    AllCompleted(env, d);
    var x := NextExecution(env, d.state, tool, params, adaptive);
    if !adaptive { NotMissing(d.state, TestOf(env, tool).value); }
    UnswayedPush(d.state.executions, x, d.ledger);
    TallyPush(env, d.state.status, Baselines(d.state), d.state.executions, x, d.state.completed);
    PreparedUnfinal(env, d, tool, params);
  }

  /** What is about to be executed is not about to be concluded. */
  lemma PreparedUnfinal(env: Env, d: Disk, tool: Tool, params: Params)
    requires d.state.status.VettingMandatory? || d.state.status.WaitingForCritic?
    requires Account(env, d) && (CurrentSkeptic(d.state).Some? ==> Elected(d.state, tool, params))
    ensures !Known(d.decisions, Director, Final, d.state.context)
  {
    hide Tally, Unswayed, ProposalOf, ReviewOf, Revisions, Known, Offer;
  }

  lemma ExtendedAllowed(env: Env, d: Disk, tool: Tool, params: Params, adaptive: bool)
    requires Preparable(env, d, tool, params, adaptive) && env.schema(tool, params).Some?
      && Resolve(env.specs, tool).Some?
    ensures AllAllowed(env, Extended(d, NextExecution(env, d.state, tool, params, adaptive)).state.executions,
        CompletedSet(d.state))
  {
    hide Account, Purposeful, TestsIn, Refusal, Resolve, Budgets, Ledger, Executions, ValidSnapshot, Roles, Proposal,
      Spent, Working, Reasons, Verdicts, Authority, LatestBudget, LatestBoundary, NoAdaptive, Elected, CurrentSkeptic;
    RefusalMeans(env, d, tool, params, adaptive);
    var x := NextExecution(env, d.state, tool, params, adaptive);
    if adaptive { NoneMissing(d.state); OfferedResolves(env, MeansOf(d.state), tool); }
    assert Allowed(env, x, CompletedSet(d.state));
  }

  lemma NoneMissing(s: State)
    ensures Missing(s) == {} <==> MANDATORY_TESTS <= CompletedSet(s)
  {
    hide TestsIn;
    assert forall t :: t in MANDATORY_TESTS ==> t in CompletedSet(s) || t in Missing(s);
  }

  /** Executions stay allowed as tests complete and as they end. */
  lemma StillAllowed(env: Env, xs: seq<Execution>, ys: seq<Execution>, before: set<Test>, after: set<Test>)
    requires AllAllowed(env, xs, before) && before <= after && |xs| == |ys|
    requires forall i :: 0 <= i < |xs| ==>
      ys[i].tool == xs[i].tool && ys[i].adaptive == xs[i].adaptive && ys[i].cost == xs[i].cost
    ensures AllAllowed(env, ys, after)
  {
    forall i | 0 <= i < |ys| ensures Allowed(env, ys[i], after) {
      assert xs[i] in xs;
      assert Allowed(env, xs[i], before);
    }
  }

  lemma CompletedGrows(env: Env, s: State, e: Evidence)
    ensures CompletedSet(s) <= CompletedSet(CommittedState(env, s, e))
  {
  }

  lemma UnfoldLists(s: State)
    requires ValidSnapshot(s) && Executions(s)
    ensures AllValid(s.executions) && WithinStep(s.executions, s.step)
  {
  }

  lemma EvidenceKeeps(env: Env, d: Disk, e: Evidence)
    requires Inv(env, d) && d.state.status.RunningTool? && |d.ledger| == |d.state.evidenceRefs|
    requires Answers(env, e, d.state.executions[|d.state.executions| - 1], |d.state.executions| - 1)
    ensures var f := d.(ledger := d.ledger + [e]); Inv(env, f) && Grows(d, f)
  {
    hide Replay, Account, AllAllowed, Truthful, Approvable, Known, UniqueKeys, Distinct, SumCost, CountAdaptive,
      ProposalOf, ReviewOf, LatestBudget, LatestBoundary, Codes;
    var f := d.(ledger := d.ledger + [e]);
    assert Committed(d.state.evidenceRefs, f.ledger) == Committed(d.state.evidenceRefs, d.ledger);
    EvidenceAccount(env, d, e);
  }

  lemma EvidenceAccount(env: Env, d: Disk, e: Evidence)
    requires Account(env, d) && |d.state.executions| == |d.ledger| + 1
    ensures Account(env, d.(ledger := d.ledger + [e]))
  {
    hide Tally, Unswayed, Choosable, Finals;
    UnswayedRecord(d.state.executions, d.ledger, e);
  }

  /** Committing a record teaches exactly what replaying it teaches. */
  lemma CommitLearns(env: Env, s: State, es: seq<Evidence>, e: Evidence)
    requires ScienceOf(s) == Replay(env, es)
    ensures ScienceOf(CommittedState(env, s, e)) == Replay(env, es + [e])
  {
    assert (es + [e])[..|es|] == es;
  }

  lemma Settled(xs: seq<Execution>, action: nat, status: ToolStatus, id: EvidenceId)
    requires Distinct(xs) && |xs| == action + 1
    ensures var ys := Settle(xs, action, status, id);
      Distinct(ys) && SumCost(ys) == SumCost(xs) && CountAdaptive(ys) == CountAdaptive(xs)
      && |ys| == |xs| && ys[action].status == (if status.ToolFailed? then ExecutionFailed else Completed)
      && ys[action].step == xs[action].step && ys[action].adaptive == xs[action].adaptive
      && ys[action].signature == xs[action].signature && ys[action].resultStatus == Some(status)
  {
    SameSums(xs, Settle(xs, action, status, id));
  }

  lemma SettledLists(xs: seq<Execution>, action: nat, status: ToolStatus, id: EvidenceId, step: nat)
    requires AllValid(xs) && WithinStep(xs, step)
    ensures var ys := Settle(xs, action, status, id);
      AllValid(ys) && WithinStep(ys, step) && (NoAdaptive(xs) ==> NoAdaptive(ys))
  {
    var ys := Settle(xs, action, status, id);
    forall i | 0 <= i < |ys| ensures ValidExecution(ys[i]) && ys[i].step <= step { assert xs[i] in xs; }
    if NoAdaptive(xs) { forall i | 0 <= i < |ys| ensures !ys[i].adaptive { assert xs[i] in xs; } }
  }

  lemma SettledRecords(env: Env, xs: seq<Execution>, refs: seq<EvidenceId>, ledger: seq<Evidence>, e: Evidence)
    requires Records(env, xs, refs, ledger) && |xs| == |ledger| == |refs| + 1 && e == ledger[|refs|] && Distinct(xs)
    ensures Records(env, Settle(xs, |refs|, e.result.status, e.id), refs + [e.id], ledger)
  {
    var ys, ids := Settle(xs, |refs|, e.result.status, e.id), refs + [e.id];
    forall i | 0 <= i < |ids| ensures Referenced(ids[i], ledger[i], ys[i]) {
      if i < |refs| { assert Referenced(refs[i], ledger[i], xs[i]); }
    }
    forall i | 0 <= i < |ledger| ensures Answers(env, ledger[i], ys[i], i) { assert Answers(env, ledger[i], xs[i], i); }
  }

  lemma MissingShrinks(env: Env, s: State, e: Evidence)
    ensures Missing(CommittedState(env, s, e)) <= Missing(s)
  {
  }

  lemma CommitLedger(env: Env, s: State, ledger: seq<Evidence>)
    requires Ledger(env, s, ledger) && Distinct(s.executions) && |ledger| == |s.evidenceRefs| + 1
    ensures Ledger(env, CommittedState(env, s, ledger[|ledger| - 1]), ledger)
  {
    hide Replay, Distinct, Records, SumCost, Completes, UpdatedHypotheses, UpdatedCandidates;
    var n := |s.evidenceRefs|;
    LastRecord(env, s.executions, s.evidenceRefs, ledger);
    CommitLearns(env, s, ledger[..n], ledger[n]);
    assert ledger[..n] + [ledger[n]] == ledger == ledger[..n + 1];
    SettledRecords(env, s.executions, s.evidenceRefs, ledger, ledger[n]);
  }

  /** The commit of the record that answers the unfinished execution. */
  lemma CommitKeeps(env: Env, d: Disk)
    requires Inv(env, d) && d.state.status.RunningTool? && |d.ledger| == |d.state.evidenceRefs| + 1
    ensures var f := d.(state := CommittedState(env, d.state, d.ledger[|d.ledger| - 1])); Inv(env, f) && Grows(d, f)
  {
    hide Replay, Account, AllAllowed, Truthful, Approvable, UniqueKeys, Distinct, Completes, Revisions, Known,
      AllValid, WithinStep, NoAdaptive, Records, SumCost, CountAdaptive, ProposalOf, ReviewOf, LatestBudget,
      LatestBoundary, Codes, UpdatedHypotheses, UpdatedCandidates, CompletedTests, TestsIn, Settle, DispositionOf;
    var s, n := d.state, |d.state.evidenceRefs|;
    LastRecord(env, s.executions, s.evidenceRefs, d.ledger);
    var e := d.ledger[n];
    CommitLedger(env, s, d.ledger);
    Settled(s.executions, n, e.result.status, e.id);
    SettledLists(s.executions, n, e.result.status, e.id, s.step);
    MissingShrinks(env, s, e);
    CommitAllowed(env, s, e);
    CommitAccount(env, d, e);
    NoKeyAhead(d.decisions, s.context);
  }

  lemma CommitAccount(env: Env, d: Disk, e: Evidence)
    requires Account(env, d) && d.state.status.RunningTool? && d.state.executions != []
      && NoLater(d.decisions, d.state.context)
    requires Distinct(d.state.executions)
    requires Answers(env, e, d.state.executions[|d.state.executions| - 1], |d.state.executions| - 1)
    ensures Account(env, d.(state := CommittedState(env, d.state, e)))
    ensures d.state.completed <= CommittedState(env, d.state, e).completed
    ensures Missing(d.state) == {} ==> Baselines(CommittedState(env, d.state, e)) == Baselines(d.state)
  {
    hide Tally, Unswayed, Known, UpdatedHypotheses, UpdatedCandidates, CompletedTests, Missing, NoLater;
    var s, n := d.state, |d.state.executions| - 1;
    var x := s.executions[n];
    var ys := Settle(s.executions, e.result.action, e.result.status, e.id);
    TestsGrow(env, s, e);
    UnswayedEnds(s.executions, ys, d.ledger);
    if Succeeds(e.result.status) && !x.adaptive {
      RunningTest(env, d);
      CommitTests(env, s, e, x);
    }
    TallyCommit(env, Baselines(s), s.executions, ys, s.completed, CompletedTests(env, s, e));
    NoFinalAhead(d.decisions, s.context);
  }

  lemma RunningTest(env: Env, d: Disk)
    requires Account(env, d) && d.state.status.RunningTool? && d.state.executions != []
    requires !d.state.executions[|d.state.executions| - 1].adaptive
    ensures TestOf(env, d.state.executions[|d.state.executions| - 1].tool).Some?
  {
  }

  lemma CommitAllowed(env: Env, s: State, e: Evidence)
    requires AllAllowed(env, s.executions, CompletedSet(s))
    ensures AllAllowed(env, CommittedState(env, s, e).executions, CompletedSet(CommittedState(env, s, e)))
  {
    hide Account, AllAllowed, CompletedSet, CompletedTests, UpdatedHypotheses, UpdatedCandidates;
    CompletedGrows(env, s, e);
    StillAllowed(env, s.executions, CommittedState(env, s, e).executions, CompletedSet(s),
        CompletedSet(CommittedState(env, s, e)));
  }

  lemma LastRecord(env: Env, xs: seq<Execution>, refs: seq<EvidenceId>, ledger: seq<Evidence>)
    requires Records(env, xs, refs, ledger) && |ledger| == |refs| + 1
    ensures |xs| == |ledger| && Answers(env, ledger[|refs|], xs[|refs|], |refs|)
  {
  }

  lemma NoKeyAhead(ds: seq<Checkpoint>, context: nat)
    requires NoLater(ds, context)
    ensures NoLater(ds, context + 1) && !Known(ds, SkepticRole, Decision, context + 1)
      && !Known(ds, CriticRole, Review, context + 1)
  {
  }

  lemma FailedLists(
      env: Env, xs: seq<Execution>, action: Option<nat>, step: nat, refs: seq<EvidenceId>, ledger: seq<Evidence>)
    requires AllValid(xs) && WithinStep(xs, step) && Records(env, xs, refs, ledger)
    ensures var ys := FailExecution(xs, action);
      AllValid(ys) && WithinStep(ys, step) && Records(env, ys, refs, ledger) && (NoAdaptive(xs) ==> NoAdaptive(ys))
  {
    var ys := FailExecution(xs, action);
    forall i | 0 <= i < |ys| ensures ValidExecution(ys[i]) && ys[i].step <= step { assert xs[i] in xs; }
    if NoAdaptive(xs) { forall i | 0 <= i < |ys| ensures !ys[i].adaptive { assert xs[i] in xs; } }
    forall i | 0 <= i < |ledger| ensures Answers(env, ledger[i], ys[i], i) { assert Answers(env, ledger[i], xs[i], i); }
    forall i | 0 <= i < |refs| ensures Referenced(refs[i], ledger[i], ys[i]) {
      assert Referenced(refs[i], ledger[i], xs[i]);
    }
  }

  lemma FailedSums(xs: seq<Execution>, action: Option<nat>)
    requires Distinct(xs) && (action.Some? ==> |xs| > 0 && action.value == |xs| - 1)
    ensures var ys := FailExecution(xs, action);
      Distinct(ys) && SumCost(ys) == SumCost(xs) && CountAdaptive(ys) == CountAdaptive(xs)
    ensures |FailExecution(xs, action)| == |xs|
    ensures |xs| > 0 ==>
      FailExecution(xs, action)[|xs| - 1].status == if action.Some? then ExecutionFailed else xs[|xs| - 1].status
  {
    SameSums(xs, FailExecution(xs, action));
  }

  lemma FailedAllowed(env: Env, xs: seq<Execution>, action: Option<nat>, completed: set<Test>)
    requires AllAllowed(env, xs, completed)
    ensures AllAllowed(env, FailExecution(xs, action), completed)
  {
    hide Account, AllAllowed;
    StillAllowed(env, xs, FailExecution(xs, action), completed, completed);
  }

  lemma FailedAccount(env: Env, d: Disk, xs: seq<Execution>, action: Option<nat>)
    requires Account(env, d) && xs == d.state.executions
    ensures Unswayed(FailExecution(xs, action), d.ledger)
  {
    hide Tally, Unswayed, Choosable, Finals;
    UnswayedEnds(xs, FailExecution(xs, action), d.ledger);
  }

  /** Termination from any working status; an unfinished execution is failed with it. */
  lemma TerminatedKeeps(env: Env, d: Disk, kind: FailureKind, status: Status, action: Option<nat>)
    requires Inv(env, d) && !Stopped(d.state.status) && Failing(status)
    requires action.Some? ==> |d.state.executions| > 0 && action.value == |d.state.executions| - 1
    requires d.state.status.RunningTool? ==> action.Some? && !status.BudgetExhausted?
    ensures var e := d.(state := TerminatedState(d.state, kind, status, action)); Inv(env, e) && Grows(d, e)
  {
    hide Unswayed, DispositionOf, FailExecution, TestsIn, LockedContent, Replay, Account, AllAllowed, Truthful,
      Approvable, UniqueKeys, Distinct, Revisions, Known, AllValid, WithinStep, NoAdaptive, Records, Codes, SumCost,
      CountAdaptive, ProposalOf, ReviewOf, LatestBudget, LatestBoundary;
    FailedSums(d.state.executions, action);
    FailedAllowed(env, d.state.executions, action, CompletedSet(d.state));
    FailedAccount(env, d, d.state.executions, action);
    StoppedAccount(env, d.(state := TerminatedState(d.state, kind, status, action)));
    FailedLists(env, d.state.executions, action, d.state.step, d.state.evidenceRefs, d.ledger);
  }

  /** What follows an evaluation that counts, or the baseline before it. */
  lemma EvaluatedAccount(env: Env, d: Disk, s: State)
    requires Account(env, d)
      && s == d.state.(status := s.status, failures := s.failures, pendingFinal := s.pendingFinal)
    requires d.state.status.Initialized? || d.state.status.VettingMandatory? || d.state.status.UpdatingEvidence?
    requires d.state.status.UpdatingEvidence? ==>
      d.state.executions != [] && Counts(d.state.executions[|d.state.executions| - 1])
    requires s.status.VettingMandatory? || s.status.Finalizing?
      || (s.status.SelectingAdaptive? && (NoAdaptive(s.executions) || Available(env, s) != []))
    ensures Account(env, d.(state := s))
  {
    hide Unswayed, AllCovered, Known, ProposalOf, ReviewOf, Revisions, NoAdaptive, Covered;
    if d.state.status.UpdatingEvidence? {
      TallyEvaluated(env, s.status, Baselines(d.state), d.state.executions, d.state.completed);
    }
  }

  lemma VettingKeeps(env: Env, d: Disk)
    requires Inv(env, d) && Missing(d.state) != {}
    requires d.state.status.Initialized? || d.state.status.VettingMandatory? || d.state.status.UpdatingEvidence?
    requires d.state.executions == [] || d.state.executions[|d.state.executions| - 1].status.Completed?
    requires d.state.status.UpdatingEvidence? ==>
      d.state.executions != [] && Counts(d.state.executions[|d.state.executions| - 1])
    ensures var e := d.(state := d.state.(status := VettingMandatory)); Inv(env, e) && Grows(d, e)
  {
    hide Records, Replay, Account, AllAllowed, Truthful, Approvable, Distinct, Known, UniqueKeys, Revisions, AllValid,
      WithinStep, NoAdaptive, SumCost, CountAdaptive, ProposalOf, ReviewOf, LatestBudget, LatestBoundary, Codes,
      TestsIn;
    EvaluatedAccount(env, d, d.state.(status := VettingMandatory));
  }

  /** Back to selection: the executed proposal belongs to an older context. */
  lemma ReselectKeeps(env: Env, d: Disk, failures: seq<FailureKind>)
    requires Inv(env, d) && d.state.status.UpdatingEvidence? && Missing(d.state) == {}
    requires d.state.executions[|d.state.executions| - 1].status.Completed?
    requires NoAdaptive(d.state.executions) ==> Decisive(Codes(d.ledger)).None?
    requires d.state.executions != [] && Counts(d.state.executions[|d.state.executions| - 1])
    requires NoAdaptive(d.state.executions) || Available(env, d.state) != []
    ensures var e := d.(state := d.state.(status := SelectingAdaptive, failures := failures));
      Inv(env, e) && Grows(d, e)
  {
    hide Records, Replay, Account, AllAllowed, Truthful, Approvable, Distinct, Known, UniqueKeys, Revisions, AllValid,
      WithinStep, NoAdaptive, SumCost, CountAdaptive, ProposalOf, ReviewOf, LatestBudget, LatestBoundary, Codes,
      TestsIn;
    EvaluatedAccount(env, d, d.state.(status := SelectingAdaptive, failures := failures));
  }

  lemma FinalizingKeeps(env: Env, d: Disk, reason: Reason)
    requires Inv(env, d) && d.state.status.UpdatingEvidence? && Missing(d.state) == {}
    requires d.state.executions[|d.state.executions| - 1].status.Completed?
    requires Truthful(env, reason, GroundsOf(d.state, d.ledger))
    requires d.state.executions != [] && Counts(d.state.executions[|d.state.executions| - 1])
    ensures var e := d.(state := d.state.(status := Finalizing, pendingFinal := Some(reason)));
      Inv(env, e) && Grows(d, e)
  {
    hide Records, Replay, Account, AllAllowed, Truthful, Approvable, Distinct, Known, UniqueKeys, Revisions, AllValid,
      WithinStep, NoAdaptive, SumCost, CountAdaptive, ProposalOf, ReviewOf, LatestBudget, LatestBoundary, Codes,
      TestsIn;
    EvaluatedAccount(env, d, d.state.(status := Finalizing, pendingFinal := Some(reason)));
  }

  lemma ReadyKeeps(env: Env, d: Disk, reason: Reason)
    requires Inv(env, d)
      && (d.state.status.SelectingAdaptive? || d.state.status.WaitingForCritic? || d.state.status.Finalizing?)
    requires DispositionOf(Codes(d.ledger), d.state.candidates != []).Some?
      && Truthful(env, reason, GroundsOf(d.state, d.ledger))
    ensures var e := d.(state := d.state.(status := ReadyToLock, pendingFinal := None, terminalReason := Some(reason),
        disposition := DispositionOf(Codes(d.ledger), d.state.candidates != [])));
      Inv(env, e) && Grows(d, e)
  {
    hide Unswayed, DispositionOf, LockedContent, Records, Replay, Account, AllAllowed, Truthful, Approvable, Distinct,
      Known, UniqueKeys, Revisions, AllValid, WithinStep, NoAdaptive, SumCost, CountAdaptive, ProposalOf, ReviewOf,
      LatestBudget, LatestBoundary, Codes, TestsIn;
    UnswayedOf(env, d);
    StoppedAccount(env,
      d.(state := d.state.(status := ReadyToLock, pendingFinal := None, terminalReason := Some(reason),
                           disposition := DispositionOf(Codes(d.ledger), d.state.candidates != []))));
    AllCompleted(env, d);
  }
}
