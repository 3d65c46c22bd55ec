/** The deterministic rules: what is missing, what is available, what a
    proposal must satisfy, and what the evidence decides. */
module Policy {
  import opened Domain
  import opened Store

  /** A registry entry. `supported`: implemented, and the target has what it needs. */
  datatype Spec = Spec(
    tool: Tool, mandatory: Option<Test>, adaptive: bool, cost: nat,
    required: set<Test>, supported: bool, authorized: bool, idempotent: bool)

  /** What the controller cannot decide itself. Tools are functions of their
      inputs; `specs` is the registry in its (order, name) order. */
  datatype Env = Env(
    specs: seq<Spec>,
    schema: (Tool, Params) -> Option<Params>,
    inputsReady: (Tool, seq<Evidence>) -> bool,
    invoke: (Tool, Params, nat, seq<Evidence>) -> ToolOutcome,
    multiAgent: bool)

  function Resolve(specs: seq<Spec>, tool: Tool): Option<Spec> {
    if specs == [] then None
    else if specs[0].tool == tool then Some(specs[0])
    else Resolve(specs[1..], tool)
  }

  function TestsIn(ts: seq<Test>): set<Test> { set t | t in ts }

  function CompletedSet(s: State): set<Test> { TestsIn(s.completed) }

  function Missing(s: State): set<Test> { MANDATORY_TESTS - TestsIn(s.completed) }

  predicate Executed(xs: seq<Execution>, sig: Signature) {
    exists x :: x in xs && x.signature == sig && !x.status.ExecutionFailed?
  }

  predicate Offered(spec: Spec, completed: set<Test>, costLeft: int, xs: seq<Execution>) {
    && spec.adaptive && spec.supported && spec.cost <= costLeft
    && spec.required <= completed && !Executed(xs, Signature(spec.tool, NO_PARAMS))
  }

  function OfferedTools(specs: seq<Spec>, completed: set<Test>, costLeft: int, xs: seq<Execution>): seq<Action> {
    if specs == [] then []
    else (if Offered(specs[0], completed, costLeft, xs) then [Use(specs[0].tool)] else [])
         + OfferedTools(specs[1..], completed, costLeft, xs)
  }

  /** The part of a snapshot on which the offer of actions depends. */
  datatype Means = Means(toolCalls: nat, maxToolCalls: nat, executions: seq<Execution>, costLeft: int,
      completed: seq<Test>)

  function MeansOf(s: State): Means { Means(s.toolCalls, s.limits.toolCalls, s.executions, s.costLeft, s.completed) }

  /** The adaptive actions a model may choose now; stopping is one of them. */
  function Available(env: Env, s: State): seq<Action> { Offer(env, MeansOf(s)) }

  function Offer(env: Env, m: Means): seq<Action> {
    WithStop(OfferedTools(env.specs, TestsIn(m.completed), m.costLeft, m.executions))
  }

  function WithStop(tools: seq<Action>): seq<Action> { if tools == [] then [] else tools + [Stop] }

  predicate HasUnaffordable(env: Env, s: State) { Unaffordable(env, MeansOf(s)) }

  /** Something could be offered if only it could be paid. */
  predicate Unaffordable(env: Env, m: Means) {
    exists spec :: spec in env.specs && spec.adaptive && spec.supported && m.costLeft < spec.cost
      && spec.required <= TestsIn(m.completed) && !Executed(m.executions, Signature(spec.tool, NO_PARAMS))
  }

  datatype Judgement = Accept | Reject | OverBudget

  /** `_validate_inferred_action`. */
  function JudgeAction(env: Env, s: Means, action: Action, params: Params, available: seq<Action>): Judgement {
    if action.Stop? then
      if action !in available || params != NO_PARAMS then Reject else Accept
    else if s.maxToolCalls <= s.toolCalls then OverBudget
    else match Resolve(env.specs, action.tool)
      case None => Reject
      case Some(spec) =>
        if !spec.authorized || env.schema(action.tool, params).None? then Reject
        else if Executed(s.executions, Signature(action.tool, env.schema(action.tool, params).value)) then Reject
        else if !spec.adaptive || action !in available then Reject
        else if s.costLeft < spec.cost then OverBudget
        else if MANDATORY_TESTS - TestsIn(s.completed) != {} then Reject
        else if !(spec.required <= TestsIn(s.completed)) then Reject
        else Accept
  }

  predicate CostDeclared(env: Env, k: Skeptic) {
    match k.action
    case Stop => k.declaredCost == 0
    case Use(tool) =>
      match Resolve(env.specs, tool)
      case None => true
      case Some(spec) => spec.adaptive ==> k.declaredCost == spec.cost
  }

  /** What the inference layer demands of a Skeptic proposal. */
  function JudgeSkeptic(env: Env, s: State, k: Skeptic, available: seq<Action>): Judgement {
    if k.foreign || k.step != s.step || k.context != s.context then Reject
    else if k.declaredBudget != s.costLeft || !CostDeclared(env, k) then Reject
    else
      var j := JudgeAction(env, MeansOf(s), k.action, k.params, available);
      if j.Accept? && !k.sound then Reject else j
  }

  /** What it demands of a Critic review of proposal `k`. */
  function JudgeCritic(env: Env, s: State, k: Skeptic, c: Critic, available: seq<Action>): Judgement {
    if c.foreign || c.step != k.step || c.context != s.context || c.proposal != k.id then Reject
    else if c.verdict.Revise? && s.limits.revisions <= s.revisions then OverBudget
    else
      var j := if c.verdict.Revise? then JudgeAction(env, MeansOf(s), c.action, c.params, available) else Accept;
      if j.Accept? && !c.sound then Reject else j
  }

  /** The newest accepted proposal of a step. */
  function ProposalOf(ks: seq<Skeptic>, step: nat): (k: Option<Skeptic>)
    ensures k.Some? ==> k.value in ks && k.value.step == step
  {
    if ks == [] then None
    else if ks[|ks| - 1].step == step then Some(ks[|ks| - 1])
    else ProposalOf(ks[..|ks| - 1], step)
  }

  function ReviewOf(cs: seq<Critic>, k: Skeptic): (c: Option<Critic>)
    ensures c.Some? ==> c.value in cs && c.value.step == k.step && c.value.proposal == k.id
  {
    if cs == [] then None
    else if cs[|cs| - 1].step == k.step && cs[|cs| - 1].proposal == k.id then Some(cs[|cs| - 1])
    else ReviewOf(cs[..|cs| - 1], k)
  }

  function CurrentSkeptic(s: State): Option<Skeptic> { ProposalOf(s.accepted, s.step) }

  function CurrentCritic(s: State): Option<Critic> {
    match CurrentSkeptic(s)
    case None => None
    case Some(k) => ReviewOf(s.critics, k)
  }

  function Revisions(cs: seq<Critic>): nat {
    if cs == [] then 0
    else Revisions(cs[..|cs| - 1]) + (if cs[|cs| - 1].verdict.Revise? then 1 else 0)
  }

  /** The action and parameters a reviewed proposal stands for. */
  function Chosen(k: Skeptic, c: Critic): (Action, Params) {
    if c.verdict.Revise? then (c.action, c.params) else (k.action, k.params)
  }

  function Codes(ledger: seq<Evidence>): set<Code> {
    set e | e in ledger && e.result.code.Some? :: e.result.code.value
  }

  /** The first decisive code in name order. */
  function Decisive(codes: set<Code>): Option<Code> {
    if CleanPlanetLike in codes then Some(CleanPlanetLike)
    else if ContaminationLikely in codes then Some(ContaminationLikely)
    else if OddEvenMismatch in codes then Some(OddEvenMismatch)
    else if WeakNoisy in codes then Some(WeakNoisy)
    else None
  }

  function DispositionOf(codes: set<Code>, candidate: bool): Option<Disposition> {
    if OddEvenMismatch in codes || ContaminationLikely in codes then Some(PlanetaryRejected)
    else if WeakNoisy in codes then None
    else if SecondaryEclipseDetected in codes || ContaminationPossible in codes
      || HarmonicAliasPreferred in codes then Some(Weak)
    else if CleanPlanetLike in codes || candidate then Some(Survives)
    else None
  }

  function UpdatedHypotheses(s: State, code: Option<Code>): (seq<Hypothesis>, Option<Hypothesis>) {
    match code
    case Some(CleanPlanetLike) => ([PlanetaryTransit], Some(EclipsingBinary))
    case Some(OddEvenMismatch) => ([EclipsingBinary], Some(PlanetaryTransit))
    case Some(ContaminationLikely) => ([BackgroundContamination], Some(PlanetaryTransit))
    case Some(WeakNoisy) => ([InstrumentalOrVariableNoise], Some(PlanetaryTransit))
    case _ => (s.hypotheses, s.strongest)
  }

  function BudgetReason(s: State): Option<Reason> {
    if s.limits.adaptive <= s.adaptiveUsed then Some(CountBudgetReached)
    else if s.costLeft == 0 then Some(CostBudgetExhausted)
    else None
  }

  function AvailabilityReason(env: Env, s: State): Option<Reason> {
    if Available(env, s) != [] then None
    else if HasUnaffordable(env, s) then Some(NoAffordableExperiment)
    else Some(NoAvailableAction)
  }

  predicate Succeeds(status: ToolStatus) {
    status.Success? || status.NoEvidence? || status.Indeterminate?
  }

  /** The mandatory test that an evidence record completes, if any. */
  function Completes(env: Env, e: Evidence): Option<Test> {
    match Resolve(env.specs, e.result.tool)
    case None => None
    case Some(spec) => if Succeeds(e.result.status) then spec.mandatory else None
  }

  function Quote(id: EvidenceId, ms: map<string, Quantity>): map<string, Quoted> {
    map n | n in ms :: Quoted(ms[n], id)
  }

  function UpdatedCandidates(s: State, r: ToolResult): seq<Candidate> {
    if r.tool.SearchBls? && r.status.Success? then [Candidate(Quote(EvidenceId(r), r.measurements))]
    else s.candidates
  }

  /** Every candidate measurement equals the measurement it quotes. */
  predicate Provenance(s: State, ledger: seq<Evidence>) {
    forall c, n :: c in s.candidates && n in c.measurements ==> QuotedIn(c.measurements[n], n, ledger)
  }

  predicate QuotedIn(q: Quoted, name: string, ledger: seq<Evidence>) {
    exists e :: e in ledger && e.id == q.source && name in e.result.measurements
      && e.result.measurements[name] == q.quantity
  }
}
