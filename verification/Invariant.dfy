/** What holds of every durable state, however the process that wrote it died. */
module Invariant {
  import opened Domain
  import opened Store
  import opened Policy
  import opened Nodes

  /** The registry's promises: tools are registered once, and strict schemas
      accept what they produced. */
  ghost predicate Registered(env: Env) {
    UniqueTools(env.specs) && forall t, p :: Idempotent(env, t, p)
  }

  predicate UniqueTools(specs: seq<Spec>) {
    forall i, j :: 0 <= i < j < |specs| ==> specs[i].tool != specs[j].tool
  }

  predicate Idempotent(env: Env, t: Tool, p: Params) {
    env.schema(t, p).Some? ==> env.schema(t, env.schema(t, p).value) == env.schema(t, p)
  }

  function CountAdaptive(xs: seq<Execution>): nat {
    if xs == [] then 0 else CountAdaptive(xs[..|xs| - 1]) + (if xs[|xs| - 1].adaptive then 1 else 0)
  }

  /** Every counter agrees with the records it counts and stays in its limit. */
  predicate Budgets(s: State) {
    && s.toolCalls == |s.executions| <= s.limits.toolCalls
    && s.adaptiveUsed == CountAdaptive(s.executions) <= s.limits.adaptive
    && s.costUsed == SumCost(s.executions) <= s.limits.cost
    && s.costLeft == s.limits.cost - s.costUsed
    && s.step <= s.limits.steps
    && s.modelCalls <= s.limits.modelCalls
    && s.retries <= s.limits.retries
    && s.revisions <= s.limits.revisions
  }

  /** Executions are numbered, belong to charged steps, and never repeat a
      signature; all but the last are complete. */
  predicate Distinct(xs: seq<Execution>) {
    && (forall i :: 0 <= i < |xs| ==> xs[i].action == i && xs[i].signature == Signature(xs[i].tool, xs[i].params))
    && (forall i :: 0 <= i < |xs| - 1 ==> xs[i].status.Completed?)
    && (forall i, j :: 0 <= i < j < |xs| ==> xs[i].signature != xs[j].signature)
  }

  predicate WithinStep(xs: seq<Execution>, step: nat) { forall x :: x in xs ==> x.step <= step }

  predicate Executions(s: State) {
    var xs := s.executions;
    && Distinct(xs) && WithinStep(xs, s.step)
    && (s.status.RunningTool? <==> |xs| > 0 && xs[|xs| - 1].status.Prepared?)
    && (|xs| > 0 && xs[|xs| - 1].status.ExecutionFailed? ==>
          Stopped(s.status) || (s.status.UpdatingEvidence? && xs[|xs| - 1].resultStatus == Some(ToolFailed)))
  }

  /** The scientific part of the snapshot. */
  datatype Science = Science(
    completed: seq<Test>, candidates: seq<Candidate>, hypotheses: seq<Hypothesis>, strongest: Option<Hypothesis>)

  /** The science that a ledger justifies, record by record. */
  function Replay(env: Env, es: seq<Evidence>): Science {
    if es == [] then Science([], [], [], None)
    else Learn(env, Replay(env, es[..|es| - 1]), es[|es| - 1])
  }

  function Learn(env: Env, k: Science, e: Evidence): Science {
    var completed := match Completes(env, e)
      case None => k.completed
      case Some(t) => if t in k.completed then k.completed else k.completed + [t];
    var candidates := if e.result.tool.SearchBls? && e.result.status.Success?
      then [Candidate(Quote(EvidenceId(e.result), e.result.measurements))] else k.candidates;
    match e.result.code
    case Some(CleanPlanetLike) => Science(completed, candidates, [PlanetaryTransit], Some(EclipsingBinary))
    case Some(OddEvenMismatch) => Science(completed, candidates, [EclipsingBinary], Some(PlanetaryTransit))
    case Some(ContaminationLikely) => Science(completed, candidates, [BackgroundContamination], Some(PlanetaryTransit))
    case Some(WeakNoisy) => Science(completed, candidates, [InstrumentalOrVariableNoise], Some(PlanetaryTransit))
    case _ => Science(completed, candidates, k.hypotheses, k.strongest)
  }

  function ScienceOf(s: State): Science { Science(s.completed, s.candidates, s.hypotheses, s.strongest) }

  /** An evidence record is the answer to one execution. */
  predicate Answers(env: Env, e: Evidence, x: Execution, i: nat) {
    && e.action == i && e.result.action == i && e.id == EvidenceId(e.result) && !e.result.foreign
    && e.result.tool == x.tool && e.step == x.step && env.schema(x.tool, e.result.params) == Some(x.params)
  }

  predicate Referenced(id: EvidenceId, e: Evidence, x: Execution) {
    id == e.id && x.evidence == Some(id) && x.resultStatus == Some(e.result.status)
  }

  /** The i-th record answers the i-th execution; the snapshot refers to all
      records but perhaps the last. */
  predicate Records(env: Env, xs: seq<Execution>, refs: seq<EvidenceId>, ledger: seq<Evidence>) {
    && |refs| <= |ledger| <= |xs| <= |refs| + 1
    && (forall i :: 0 <= i < |ledger| ==> Answers(env, ledger[i], xs[i], i))
    && (forall i :: 0 <= i < |refs| ==> Referenced(refs[i], ledger[i], xs[i]))
    && (|xs| == |refs| + 1 ==> xs[|refs|].evidence.None? && Validated(env, xs[|refs|]))
  }

  predicate Validated(env: Env, x: Execution) { env.schema(x.tool, x.params) == Some(x.params) }

  function Committed(refs: seq<EvidenceId>, ledger: seq<Evidence>): seq<Evidence> {
    if |refs| <= |ledger| then ledger[..|refs|] else ledger
  }

  /** The snapshot's science is the replay of the records it refers to. */
  predicate Ledger(env: Env, s: State, ledger: seq<Evidence>) {
    && Records(env, s.executions, s.evidenceRefs, ledger)
    && (|s.executions| == |s.evidenceRefs| + 1 ==>
        s.status.RunningTool? || s.status.Failed? || s.status.InsufficientEvidence?)
    && ScienceOf(s) == Replay(env, Committed(s.evidenceRefs, ledger))
    && s.context == |s.evidenceRefs| + 1
  }

  predicate Live(s: State) { CurrentSkeptic(s).Some? && CurrentSkeptic(s).value.context == s.context }

  /** A proposal of the current context that has not been executed. */
  predicate Open(s: State) { (s.status.SelectingAdaptive? || s.status.WaitingForCritic?) && Live(s) }

  predicate UniqueKeys(cs: seq<Checkpoint>) {
    forall i, j :: 0 <= i < j < |cs| ==> !SameKey(cs[i], cs[j])
  }

  predicate AllIn(cs: seq<Checkpoint>, ds: seq<Checkpoint>) { forall c :: c in cs ==> c in ds }

  predicate NoLater(cs: seq<Checkpoint>, context: nat) { forall c :: c in cs ==> c.context <= context }

  /** Role records have unique keys, and every checkpoint is one of them. */
  predicate Roles(s: State, ds: seq<Checkpoint>) {
    && UniqueKeys(ds) && UniqueKeys(s.checkpoints) && AllIn(s.checkpoints, ds) && NoLater(ds, s.context)
    && (!Stopped(s.status) && Known(ds, SkepticRole, Decision, s.context) ==> Live(s))
    && (!Stopped(s.status) && Known(ds, CriticRole, Review, s.context) ==> Live(s) && CurrentCritic(s).Some?)
  }

  predicate Numbered(trace: seq<Event>) {
    forall i :: 0 <= i < |trace| ==> trace[i].sequence == i + 1
  }

  predicate NoneAhead(trace: seq<Event>, step: nat) {
    forall i :: 0 <= i < |trace| ==> trace[i].step <= step
  }

  predicate Charged(d: Disk) { LatestBudget(d.trace, d.state.step) > 0 }

  /** The step is charged and no result of it has been announced. */
  predicate Fresh(d: Disk) { LatestBoundary(d.trace, d.state.step) < LatestBudget(d.trace, d.state.step) }

  predicate Approvable(env: Env, m: Means, action: Action, params: Params) {
    JudgeAction(env, m, action, params, Offer(env, m)).Accept?
  }

  /** What an open proposal and its review have been checked for. */
  predicate Proposal(env: Env, s: State, unannounced: bool) {
    Open(s) ==>
      && s.available == Offer(env, MeansOf(s)) && s.adaptiveUsed < s.limits.adaptive && unannounced
      && Approvable(env, MeansOf(s), CurrentSkeptic(s).value.action, CurrentSkeptic(s).value.params)
      && CurrentSkeptic(s).value.declaredBudget == s.costLeft && CostDeclared(env, CurrentSkeptic(s).value)
      && (CurrentCritic(s).Some? ==> CurrentCritic(s).value.context == s.context)
      && (CurrentCritic(s).Some? && CurrentCritic(s).value.verdict.Revise? ==>
            Approvable(env, MeansOf(s), CurrentCritic(s).value.action, CurrentCritic(s).value.params))
  }

  /** A proposal of the current step that is no longer open is the one executed last. */
  predicate Spent(env: Env, s: State) {
    !Stopped(s.status) && !Open(s) && CurrentSkeptic(s).Some? ==>
      s.executions != [] && WasLast(env, s, s.executions[|s.executions| - 1])
  }

  predicate WasLast(env: Env, s: State, x: Execution)
    requires CurrentSkeptic(s).Some?
  {
    && x.adaptive && CurrentCritic(s).Some? && !CurrentCritic(s).value.verdict.Veto?
    && Stands(env, Chosen(CurrentSkeptic(s).value, CurrentCritic(s).value), x.signature)
  }

  predicate Stands(env: Env, chosen: (Action, Params), sig: Signature) {
    && chosen.0.Use? && env.schema(chosen.0.tool, chosen.1).Some?
    && sig == Signature(chosen.0.tool, env.schema(chosen.0.tool, chosen.1).value)
  }

  /** Revisions are counted once the verdict is resolved. */
  predicate Counted(s: State) {
    || Revisions(s.critics) == s.revisions
    || (Open(s) && CurrentCritic(s).Some? && CurrentCritic(s).value.verdict.Revise?
        && Revisions(s.critics) == s.revisions + 1 <= s.limits.revisions)
  }

  predicate Proposed(ks: seq<Skeptic>, step: nat, context: nat) {
    forall k :: k in ks ==> k.step <= step && k.context <= context
  }

  /** Reviews belong to proposals: none is waiting for a proposal yet to come. */
  predicate Reviewed(cs: seq<Critic>, step: nat, proposed: bool) {
    forall c :: c in cs ==> c.step <= step && (c.step == step ==> proposed)
  }

  predicate NoAdaptive(xs: seq<Execution>) { forall x :: x in xs ==> !x.adaptive }

  /** How the working statuses relate to the rest of the snapshot. */
  predicate Working(s: State, charged: bool) {
    var xs := s.executions;
    && !s.status.Preparing? && !s.status.Searching? && !s.status.Rejected?
    && (s.status.Initialized? || s.status.VettingMandatory? ==> Missing(s) != {})
    && (s.status.SelectingAdaptive? || s.status.WaitingForCritic? ==> Missing(s) == {})
    && (s.status.Finalizing? || s.status.ReadyToLock? ==> Missing(s) == {})
    && (NoAdaptive(xs) || Missing(s) == {})
    && (Missing(s) != {} ==> s.accepted == [])
    && Proposed(s.accepted, s.step, s.context)
    && Reviewed(s.critics, s.step, CurrentSkeptic(s).Some?)
    && (s.status.WaitingForCritic? ==> Live(s))
    && (s.status.UpdatingEvidence? || s.status.Finalizing? ==> !Live(s))
    && (s.status.WaitingForCritic? || s.status.RunningTool? ==> charged)
    && (s.status.UpdatingEvidence? || s.status.Finalizing? ==> charged)
    && (s.status.UpdatingEvidence? ==> |xs| == |s.evidenceRefs| > 0)
    && (s.status.RunningTool? || s.status.UpdatingEvidence? ==> |xs| > 0 && xs[|xs| - 1].step == s.step)
    && (Stopped(s.status) || Counted(s))
  }

  predicate Sealed(s: State) { !s.lock.GroundTruthLocked? }

  /** A run that may be or has been locked carries the verdict of its ledger;
      experiments are chosen only if the baseline evidence decided nothing. */
  predicate Verdicts(s: State, ledger: seq<Evidence>) {
    && (s.status.ReadyToLock? || Sealed(s) ==>
          && Missing(s) == {} && s.disposition.Some? && s.terminalReason.Some?
          && s.disposition == DispositionOf(Codes(ledger), s.candidates != [])
          && |ledger| == |s.evidenceRefs|)
    && ((s.status.SelectingAdaptive? || s.status.WaitingForCritic?) && NoAdaptive(s.executions) ==>
        Decisive(Codes(ledger)).None?)
    && (s.lock.ResultSealed? <==> s.status.ResultLocked?)
    && (s.lock.CatalogRevealed? <==> s.status.Revealed?)
  }

  function LockedContent(s: State, at: nat): LockedResult
    requires s.disposition.Some? && s.terminalReason.Some?
  {
    LockedResult(s.disposition.value, s.evidenceRefs, s.terminalReason.value, at)
  }

  /** The authority files: no reveal before the lock; afterwards the exact
      bytes of the snapshot's verdict, their digest, and reveals that name it. */
  predicate Authority(s: State, result: Option<Bytes>, digest: Option<Digest>, catalog: Option<CatalogReveal>) {
    && (!Sealed(s) ==> catalog.None?)
    && (Sealed(s) && s.disposition.Some? && s.terminalReason.Some? ==>
          && result.Some? && result.value.result == LockedContent(s, result.value.result.lockedAt)
          && digest == Some(Sha(result.value))
          && (catalog.Some? ==> !catalog.value.foreign && catalog.value.lockedDigest == digest.value))
    && (s.lock.CatalogRevealed? ==> catalog.Some?)
  }

  /** An execution that the registry and the tests completed so far allow. */
  predicate Allowed(env: Env, x: Execution, completed: set<Test>) {
    var found := Resolve(env.specs, x.tool);
    && found.Some? && found.value.authorized && found.value.required <= completed
    && (if x.adaptive then found.value.adaptive && found.value.supported && x.cost == found.value.cost
        && MANDATORY_TESTS <= completed
        else found.value.mandatory.Some?)
  }

  predicate AllAllowed(env: Env, xs: seq<Execution>, completed: set<Test>) {
    forall x :: x in xs ==> Allowed(env, x, completed)
  }

  /** What a reason for stopping may rest on. */
  datatype Grounds = Grounds(
    means: Means, adaptiveUsed: nat, maxAdaptive: nat, skeptic: Option<Skeptic>, critic: Option<Critic>,
        decisive: Option<Code>)

  function GroundsOf(s: State, ledger: seq<Evidence>): Grounds {
    Grounds(MeansOf(s), s.adaptiveUsed, s.limits.adaptive, CurrentSkeptic(s), CurrentCritic(s), Decisive(Codes(ledger)))
  }

  /** The newest execution ended with this status. */
  predicate LastEnded(xs: seq<Execution>, status: ToolStatus) { xs != [] && xs[|xs| - 1].resultStatus == Some(status) }

  /** The reason is true of its grounds. */
  predicate Truthful(env: Env, reason: Reason, g: Grounds) {
    match reason
    case DeterministicEvidence(code) => g.decisive == Some(code)
    case CountBudgetReached => g.maxAdaptive <= g.adaptiveUsed
    case CostBudgetExhausted => g.means.costLeft == 0
    case NoAvailableAction => Offer(env, g.means) == []
    case NoAffordableExperiment => Offer(env, g.means) == [] && Unaffordable(env, g.means)
    case ReplanExhausted(tool) =>
      Offer(env, g.means) == [] && LastEnded(g.means.executions, PreconditionFailed)
        && g.means.executions[|g.means.executions| - 1].tool == tool
    case ScientificOutcome(status) => !status.Success? && LastEnded(g.means.executions, status)
      && g.maxAdaptive <= g.adaptiveUsed
    case CriticVeto => g.critic.Some? && g.critic.value.verdict.Veto?
    case AgentStop =>
      g.skeptic.Some? && g.critic.Some? && !g.critic.value.verdict.Veto?
        && (g.skeptic.value.action.Stop? || (g.critic.value.verdict.Revise? && g.critic.value.action.Stop?))
    case Failure(_) => false
  }

  /** A run that is being finalized, is ready, or is locked says truly why. */
  predicate Reasons(env: Env, s: State, ledger: seq<Evidence>) {
    && (s.status.Finalizing? && s.pendingFinal.Some? ==> Truthful(env, s.pendingFinal.value, GroundsOf(s, ledger)))
    && ((s.status.ReadyToLock? || s.status.ResultLocked? || s.status.Revealed?) && s.terminalReason.Some? ==>
          Truthful(env, s.terminalReason.value, GroundsOf(s, ledger)))
  }

  // ---- the baseline and its end ----

  /** The number of executions that are not adaptive. */
  function Baselines(s: State): int { s.toolCalls - s.adaptiveUsed }

  /** The mandatory test that a tool is registered for. */
  function TestOf(env: Env, tool: Tool): Option<Test> {
    match Resolve(env.specs, tool)
    case None => None
    case Some(spec) => spec.mandatory
  }

  /** A baseline execution has completed its test. */
  predicate Covered(env: Env, x: Execution, completed: seq<Test>) {
    x.adaptive || (TestOf(env, x.tool).Some? && TestOf(env, x.tool).value in completed)
  }

  predicate AllCovered(env: Env, xs: seq<Execution>, completed: seq<Test>) {
    forall x :: x in xs ==> Covered(env, x, completed)
  }

  /** The execution was adaptive, or its result counts for its test. */
  predicate Counts(x: Execution) {
    x.adaptive || (x.resultStatus.Some? && Succeeds(x.resultStatus.value))
  }

  /** Every baseline execution completes a test of its own; the unfinished one
      is about to, and one that is being evaluated did if it succeeded. */
  predicate Tally(env: Env, status: Status, baselines: int, xs: seq<Execution>, completed: seq<Test>) {
    if Stopped(status) then true
    else if (status.RunningTool? || status.UpdatingEvidence?) && xs != [] then
      var last := xs[|xs| - 1];
      && AllCovered(env, xs[..|xs| - 1], completed)
      && (if status.RunningTool? then
            baselines <= |completed| + (if last.adaptive then 0 else 1)
            && (!last.adaptive ==> TestOf(env, last.tool).Some? && TestOf(env, last.tool).value !in completed)
          else Counts(last) ==> baselines <= |completed| && Covered(env, last, completed))
    else baselines <= |completed| && AllCovered(env, xs, completed)
  }

  /** No baseline execution follows an adaptive one. */
  predicate BaselineFirst(xs: seq<Execution>) {
    forall i, j :: 0 <= i < j < |xs| && xs[i].adaptive ==> xs[j].adaptive
  }

  /** The codes of the baseline evidence. */
  function BaselineCodes(xs: seq<Execution>, ledger: seq<Evidence>): set<Code> {
    set i | 0 <= i < |ledger| && i < |xs| && !xs[i].adaptive
      && ledger[i].result.code.Some? :: ledger[i].result.code.value
  }

  /** Experiments were made only if the baseline evidence decides nothing. */
  predicate Unswayed(xs: seq<Execution>, ledger: seq<Evidence>) {
    BaselineFirst(xs) && (NoAdaptive(xs) || Decisive(BaselineCodes(xs, ledger)).None?)
  }

  /** After an experiment another is selected only while something is on offer. */
  predicate Choosable(env: Env, s: State) {
    s.status.SelectingAdaptive? && !NoAdaptive(s.executions) ==> Available(env, s) != []
  }

  /** A reviewed proposal with a decided outcome. */
  predicate Decided(s: State) { CurrentCritic(s).Some? && Revisions(s.critics) == s.revisions }

  /** The run is about to be concluded. */
  predicate ForFinal(env: Env, s: State) {
    || s.status.Finalizing?
    || (s.status.SelectingAdaptive? && CurrentSkeptic(s).None? && s.candidates != []
        && (BudgetReason(s).Some? || Available(env, s) == []))
    || (Open(s) && Decided(s)
        && (CurrentCritic(s).value.verdict.Veto? || Chosen(CurrentSkeptic(s).value, CurrentCritic(s).value).0.Stop?))
  }

  /** The Director's last word is recorded only for a run about to be concluded. */
  predicate Finals(env: Env, s: State, ds: seq<Checkpoint>) {
    !Stopped(s.status) && Known(ds, Director, Final, s.context) ==> ForFinal(env, s)
  }

  /** The three specialists have spoken in this context, or were skipped. */
  predicate Heard(ds: seq<Checkpoint>, context: nat) {
    && Known(ds, Observer, Briefing, context) && Known(ds, Signal, Briefing, context)
    && Known(ds, TransitHunter, Briefing, context)
  }

  /** And so has the Director: an experiment may be proposed. */
  predicate BriefedFor(ds: seq<Checkpoint>, context: nat) {
    Heard(ds, context) && Known(ds, Director, Briefing, context)
  }

  /** Every accepted decision was its own role's and well founded, and followed
      the briefings of its context. */
  predicate Voices(multiAgent: bool, ks: seq<Skeptic>, cs: seq<Critic>, ds: seq<Checkpoint>) {
    && (forall k :: k in ks ==> !k.foreign && k.sound && (multiAgent ==> BriefedFor(ds, k.context)))
    && (forall c :: c in cs ==> !c.foreign && c.sound)
  }

  predicate Account(env: Env, d: Disk) {
    && Tally(env, d.state.status, Baselines(d.state), d.state.executions, d.state.completed)
    && Unswayed(d.state.executions, d.ledger) && Choosable(env, d.state) && Finals(env, d.state, d.decisions)
  }

  predicate Inv(env: Env, d: Disk) {
    && ValidSnapshot(d.state) && Budgets(d.state) && Executions(d.state) && Ledger(env, d.state, d.ledger)
    && Roles(d.state, d.decisions) && Numbered(d.trace) && NoneAhead(d.trace, d.state.step)
    && Proposal(env, d.state, Fresh(d)) && Spent(env, d.state) && Working(d.state, Charged(d))
    && Verdicts(d.state, d.ledger) && Reasons(env, d.state, d.ledger)
    && AllAllowed(env, d.state.executions, CompletedSet(d.state)) && Account(env, d)
    && Voices(env.multiAgent, d.state.accepted, d.state.critics, d.decisions)
    && Authority(d.state, d.result, d.digest, d.catalog)
  }

  /** What no later durable state takes back. */
  predicate Grows(d: Disk, e: Disk) {
    && d.trace <= e.trace && d.ledger <= e.ledger && d.decisions <= e.decisions
    && d.state.evidenceRefs <= e.state.evidenceRefs && d.state.completed <= e.state.completed
    && (Missing(d.state) == {} ==> Baselines(e.state) == Baselines(d.state))
    && d.state.step <= e.state.step && d.state.toolCalls <= e.state.toolCalls
    && (Stopped(d.state.status) && !d.state.status.ReadyToLock? ==>
          e.ledger == d.ledger
            && (e.state.status == d.state.status || (d.state.status.ResultLocked? && e.state.status.Revealed?)))
    && (d.state.status.ReadyToLock? ==> e.state.status.ReadyToLock? || Sealed(e.state))
    && (Sealed(d.state) ==>
          && Sealed(e.state) && e.result == d.result && e.digest == d.digest
          && e.state.evidenceRefs == d.state.evidenceRefs && e.state.disposition == d.state.disposition
          && (d.catalog.Some? ==> e.catalog == d.catalog))
  }

  /** An abort that `advance` can turn into a legal termination. */
  predicate Abortable(s: State, exit: Exit) {
    exit.Aborted? ==>
      && !Stopped(s.status) && Failing(exit.status)
      && (s.status.RunningTool? ==> exit.action == Some(|s.executions| - 1) && !exit.status.BudgetExhausted?)
      && (!s.status.RunningTool? ==> exit.action.None?)
  }

  function At(r: Run, i: nat): Disk
    requires i <= |r.past|
  {
    if i < |r.past| then r.past[i] else r.now
  }

  /** Every durable state of the run is good, and each grows from the one before. */
  ghost predicate Good(env: Env, r: Run) {
    && (forall i :: 0 <= i <= |r.past| ==> Inv(env, At(r, i)))
    && (forall i :: 0 <= i < |r.past| ==> Grows(At(r, i), At(r, i + 1)))
    && Abortable(r.now.state, r.exit)
  }

  lemma PushGood(env: Env, r: Run, d: Disk)
    requires Good(env, r) && r.exit.Running? && Inv(env, d) && Grows(r.now, d)
    ensures Good(env, Push(r, d)) && Push(r, d) == Run(r.past + [r.now], d, Running)
  {
    hide Inv, Grows;
    var p := Push(r, d);
    assert At(r, |r.past|) == r.now;
    forall i | 0 <= i <= |p.past| ensures Inv(env, At(p, i)) {
      if i < |p.past| { assert At(p, i) == At(r, i); }
    }
    forall i | 0 <= i < |p.past| ensures Grows(At(p, i), At(p, i + 1)) {
      assert At(p, i) == At(r, i);
      if i < |r.past| { assert At(p, i + 1) == At(r, i + 1); }
    }
  }

  lemma SaveGood(env: Env, r: Run, s: State)
    requires Good(env, r) && r.exit.Running?
    requires MayMove(r.now.state.status, s.status) && Inv(env, r.now.(state := s)) && Grows(r.now, r.now.(state := s))
    ensures Good(env, Save(r, s)) && Save(r, s) == Run(r.past + [r.now], r.now.(state := s), Running)
  {
    hide Grows, Budgets, Executions, Ledger, Roles, Proposal, Spent, Working, Account, AllAllowed, Reasons, Verdicts,
      Authority, ValidSnapshot;
    PushGood(env, r, r.now.(state := s));
  }
}
