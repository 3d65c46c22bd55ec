/** The graph nodes of one controller cycle, each as the writes it makes.

    A node reads the newest durable state and extends the run by its writes in
    order; an abort or a fault makes every later write of the node void. */
module Nodes {
  import opened Domain
  import opened Store
  import opened Policy

  datatype Route =
    | RecoverPrepared | RunMandatory | CallSkeptic | RunSpecialists | CallDirectorBriefing
    | ResumeCritic | ExecuteApproved | EvaluateResult | Finalize | Terminate | NoopTerminal

  /** What one inference call does to the run besides its answer. */
  datatype Tele = Started | Recorded | Retried(kind: FailureKind) | Noted

  /** The result of a required inference call. */
  datatype Answer<+T> = Accepted(decision: T) | GaveUp(kind: FailureKind, status: Status)

  /** The result of an optional role: a decision id, or a skip. */
  datatype RoleResult = Spoke(decision: string) | Skipped

  /** Everything the inference clients do during one `advance`. The specialist
      log is any interleaving of the two concurrent specialists. */
  datatype Oracle = Oracle(
    specialistLog: seq<Tele>, observer: RoleResult, signal: RoleResult,
    hunterLog: seq<Tele>, hunter: RoleResult, briefLog: seq<Tele>, brief: RoleResult,
    skepticLog: seq<Tele>, skeptic: Answer<Skeptic>, criticLog: seq<Tele>, critic: Answer<Critic>,
    finalLog: seq<Tele>, final: RoleResult)

  // ---- trace queries ----

  predicate Boundary(k: EventKind) { k.EvidenceAppended? || k.RecoveryCompleted? }

  /** The highest sequence of a budget charge of this step, or 0. */
  function LatestBudget(trace: seq<Event>, step: nat): nat {
    if trace == [] then 0
    else
      var e := trace[|trace| - 1];
      var m := LatestBudget(trace[..|trace| - 1], step);
      if e.step == step && e.kind.BudgetUpdated? then Max(m, e.sequence) else m
  }

  /** The highest sequence of a result boundary of this step, or 0. */
  function LatestBoundary(trace: seq<Event>, step: nat): nat {
    if trace == [] then 0
    else
      var e := trace[|trace| - 1];
      var m := LatestBoundary(trace[..|trace| - 1], step);
      if e.step == step && Boundary(e.kind) then Max(m, e.sequence) else m
  }

  predicate PendingEvaluation(d: Disk) {
    d.state.status.UpdatingEvidence? &&
    exists e :: e in d.trace && e.step == d.state.step && (e.kind.BudgetUpdated? || e.kind.RecoveryCompleted?)
  }

  predicate RequiresBegin(d: Disk) {
    var s := d.state;
    && !s.status.WaitingForCritic? && !s.status.RunningTool? && !s.status.Finalizing?
    && !PendingEvaluation(d)
    && (LatestBudget(d.trace, s.step) == 0 || LatestBudget(d.trace, s.step) < LatestBoundary(d.trace, s.step))
  }

  predicate HasPrepared(s: State) { exists x :: x in s.executions && x.status.Prepared? }

  predicate AdmissionOpen(s: State) { s.lock.GroundTruthLocked? && !Stopped(s.status) }

  function FindExecution(xs: seq<Execution>, action: nat): Option<Execution> {
    if xs == [] then None
    else if xs[0].action == action then Some(xs[0])
    else FindExecution(xs[1..], action)
  }

  function RecordOf(ledger: seq<Evidence>, action: nat): Option<Evidence> {
    if ledger == [] then None
    else if ledger[|ledger| - 1].action == action then Some(ledger[|ledger| - 1])
    else RecordOf(ledger[..|ledger| - 1], action)
  }

  function RecordById(ledger: seq<Evidence>, id: EvidenceId): Option<Evidence> {
    if ledger == [] then None
    else if ledger[|ledger| - 1].id == id then Some(ledger[|ledger| - 1])
    else RecordById(ledger[..|ledger| - 1], id)
  }

  function LatestResulted(xs: seq<Execution>, step: nat): (x: Option<Execution>)
    ensures x.Some? ==> x.value.step == step && x.value.evidence.Some?
  {
    if xs == [] then None
    else if xs[|xs| - 1].step == step && xs[|xs| - 1].evidence.Some? then Some(xs[|xs| - 1])
    else LatestResulted(xs[..|xs| - 1], step)
  }

  // ---- termination ----

  function FailExecution(xs: seq<Execution>, action: Option<nat>): seq<Execution> {
    seq(|xs|, i requires 0 <= i < |xs| =>
      if action == Some(xs[i].action) then xs[i].(status := ExecutionFailed) else xs[i])
  }

  function TerminatedState(s: State, kind: FailureKind, status: Status, action: Option<nat>): State {
    s.(status := status, pendingFinal := None, terminalReason := Some(Failure(kind)),
       failures := s.failures + [kind], executions := FailExecution(s.executions, action))
  }

  function TerminateRun(r: Run, kind: FailureKind, status: Status, action: Option<nat>): (q: Run)
    ensures First(q) == First(r) && Extends(r, q)
  {
    EmitAll(Save(r, TerminatedState(r.now.state, kind, status, action)),
            [InferenceEvent] + (if action.Some? then [ToolEvent] else []) + [StatusChanged])
  }

  /** `advance` turns an abort of any node into a termination. */
  function Catch(r: Run): (q: Run)
    ensures First(q) == First(r) && Extends(r, q)
  {
    if r.exit.Aborted? then TerminateRun(r.(exit := Running), r.exit.kind, r.exit.status, r.exit.action) else r
  }

  function PreparedAction(xs: seq<Execution>): Option<nat> {
    if xs == [] then None
    else if xs[|xs| - 1].status.Prepared? then Some(xs[|xs| - 1].action)
    else PreparedAction(xs[..|xs| - 1])
  }

  /** `fail_run`: the runner gives the run up. */
  function FailRun(r: Run): (q: Run)
    ensures First(q) == First(r) && Extends(r, q)
  {
    if Stopped(r.now.state.status) then r
    else TerminateRun(r, ToolInfrastructureFailure, Failed, PreparedAction(r.now.state.executions))
  }

  // ---- committing a result ----

  function CompletedTests(env: Env, s: State, e: Evidence): seq<Test> {
    match Completes(env, e)
    case None => s.completed
    case Some(t) => if t in s.completed then s.completed else s.completed + [t]
  }

  function Settle(xs: seq<Execution>, action: nat, status: ToolStatus, id: EvidenceId): seq<Execution> {
    seq(|xs|, i requires 0 <= i < |xs| =>
      if xs[i].action == action
      then xs[i].(status := if status.ToolFailed? then ExecutionFailed else Completed,
                  resultStatus := Some(status), evidence := Some(id))
      else xs[i])
  }

  function RecordFor(x: Execution, result: ToolResult): Evidence {
    Evidence(EvidenceId(result), x.step, result.action, result)
  }

  function CommittedState(env: Env, s: State, e: Evidence): State {
    var (hypotheses, strongest) := UpdatedHypotheses(s, e.result.code);
    s.(status := UpdatingEvidence, evidenceRefs := s.evidenceRefs + [e.id],
       completed := CompletedTests(env, s, e), candidates := UpdatedCandidates(s, e.result),
       hypotheses := hypotheses, strongest := strongest,
       executions := Settle(s.executions, e.result.action, e.result.status, e.id),
       context := s.context + 1)
  }

  function CheckProvenance(r: Run): (q: Run)
    ensures First(q) == First(r) && Extends(r, q)
  {
    if Provenance(r.now.state, r.now.ledger) then r else Raise(r, Faulted(ProvenanceBroken))
  }

  /** `_commit_result`: ledger first, then the snapshot, then the events. */
  function Commit(env: Env, r: Run, result: ToolResult): (q: Run)
    ensures First(q) == First(r) && Extends(r, q)
  {
    var s := r.now.state;
    if !AdmissionOpen(s) then Raise(r, Faulted(AdmissionClosed))
    else match FindExecution(s.executions, result.action)
      case None => Raise(r, Faulted(UnmatchedResult))
      case Some(x) =>
        if !x.status.Prepared? || result.tool != x.tool || result.foreign
            || env.schema(result.tool, result.params) != Some(x.params)
        then Raise(r, Faulted(UnmatchedResult))
        else
          var e := RecordFor(x, result);
          hide Extends;
          var r1 := AppendEvidence(r, e);
          var r2 := Save(r1, CommittedState(env, s, e));
          var r3 := CheckProvenance(r2);
          var q := EmitAll(r3, [ToolEvent, AgentEvent, EvidenceAppended]);
          Onward(r, r1, r2);
          Onward(r, r2, r3);
          Onward(r, r3, q);
          q
  }

  function RecoveredState(env: Env, s: State, e: Evidence): State {
    var (hypotheses, strongest) := UpdatedHypotheses(s, e.result.code);
    s.(status := UpdatingEvidence,
       evidenceRefs := if e.id in s.evidenceRefs then s.evidenceRefs else s.evidenceRefs + [e.id],
       completed := CompletedTests(env, s, e), candidates := UpdatedCandidates(s, e.result),
       hypotheses := hypotheses, strongest := strongest,
       executions := Settle(s.executions, e.action, e.result.status, e.id),
       context := s.context + 1)
  }

  function Broken(action: nat): Exit { Aborted(ToolInfrastructureFailure, Failed, Some(action)) }

  /** `_commit_recovered_record`: the ledger already has the record. */
  function CommitRecorded(env: Env, r: Run, e: Evidence): (q: Run)
    ensures First(q) == First(r) && Extends(r, q)
  {
    var s := r.now.state;
    if !AdmissionOpen(s) then Raise(r, Broken(e.action))
    else match FindExecution(s.executions, e.action)
      case None => Raise(r, Broken(e.action))
      case Some(x) =>
        if !x.status.Prepared? || x.tool != e.result.tool || e.result.foreign
            || env.schema(e.result.tool, e.result.params) != Some(x.params)
        then Raise(r, Broken(e.action))
        else
          hide Extends;
          var r1 := Save(r, RecoveredState(env, s, e));
          var r2 := CheckProvenance(r1);
          var q := EmitAll(r2, [RecoveryCompleted, AgentEvent]);
          Onward(r, r1, r2);
          Onward(r, r2, q);
          q
  }

  /** The handler's answer, checked against the invocation and committed. */
  function Receive(env: Env, r: Run, x: Execution, params: Params, outcome: ToolOutcome): (q: Run)
    ensures First(q) == First(r) && Extends(r, q)
  {
    match outcome
    case TimesOut => Raise(r, Aborted(ToolTimeout, Failed, Some(x.action)))
    case Raises => Raise(r, Broken(x.action))
    case Returns(result) =>
      if result.tool != x.tool || result.foreign || result.action != x.action then Raise(r, Broken(x.action))
      else if env.schema(result.tool, result.params) != Some(params) then Raise(r, Broken(x.action))
      else Commit(env, r, result)
  }

  /** Recovery reports an error of its commit as a broken action. */
  function Guarded(r: Run, action: nat): (q: Run)
    ensures First(q) == First(r) && Extends(r, q)
  {
    if r.exit.Faulted? then r.(exit := Broken(action)) else r
  }

  /** Re-run a prepared action that left no evidence. */
  function Reexecute(env: Env, r: Run, x: Execution): (q: Run)
    ensures First(q) == First(r) && Extends(r, q)
  {
    match Resolve(env.specs, x.tool)
    case None => Raise(r, Broken(x.action))
    case Some(spec) =>
      if !spec.authorized then Raise(r, Aborted(UnauthorizedAction, Failed, Some(x.action)))
      else match env.schema(x.tool, x.params)
        case None => Raise(r, Broken(x.action))
        case Some(params) =>
          if !spec.idempotent then Raise(r, Broken(x.action))
          else if !env.inputsReady(x.tool, r.now.ledger) then
            Raise(r, Aborted(PreconditionUnmet, InsufficientEvidence, Some(x.action)))
          else
            var outcome := env.invoke(x.tool, params, x.action, r.now.ledger);
            Emit(Guarded(Receive(env, r, x, params, outcome), x.action), RecoveryCompleted)
  }

  function RecoverOne(env: Env, r: Run, x: Execution): (q: Run)
    ensures First(q) == First(r) && Extends(r, q)
  {
    match RecordOf(r.now.ledger, x.action)
    case Some(e) => CommitRecorded(env, r, e)
    case None => Reexecute(env, r, x)
  }

  function RecoverEach(env: Env, r: Run, xs: seq<Execution>): (q: Run)
    ensures First(q) == First(r) && Extends(r, q)
    decreases xs
  {
    if xs == [] then r
    else RecoverEach(env, if xs[0].status.Prepared? && r.exit.Running? then RecoverOne(env, r, xs[0]) else r, xs[1..])
  }

  /** Node `recover_prepared_execution`. */
  function Recover(env: Env, r: Run): (q: Run)
    ensures First(q) == First(r) && Extends(r, q)
  {
    if Stopped(r.now.state.status) then r else RecoverEach(env, r, r.now.state.executions)
  }

  // ---- executing an action ----

  /** The first guard of `_execute_action` that refuses the request, if any. */
  function Refusal(env: Env, d: Disk, tool: Tool, params: Params, adaptive: bool): Option<Exit> {
    var s := d.state;
    if !AdmissionOpen(s) then Some(Aborted(UnavailableAction, Failed, None))
    else if s.limits.toolCalls <= s.toolCalls then Some(Aborted(OutOfBudget, BudgetExhausted, None))
    else if adaptive && s.limits.adaptive <= s.adaptiveUsed then Some(Aborted(OutOfBudget, BudgetExhausted, None))
    else match Resolve(env.specs, tool)
      case None => Some(Aborted(UnknownAction, Failed, None))
      case Some(spec) =>
        if !spec.authorized then Some(Aborted(UnauthorizedAction, Failed, None))
        else match env.schema(tool, params)
          case None => Some(Aborted(MalformedParameters, Failed, None))
          case Some(valid) =>
            if adaptive && s.costLeft < spec.cost then Some(Aborted(OutOfBudget, BudgetExhausted, None))
            else if Executed(s.executions, Signature(tool, valid)) then Some(Aborted(RepeatedAction, Failed, None))
            else if adaptive && (!spec.adaptive || Use(tool) !in Available(env, s)) then
              Some(Aborted(UnavailableAction, Failed, None))
            else if adaptive && Missing(s) != {} then Some(Aborted(PreconditionUnmet, Failed, None))
            else if !adaptive && spec.mandatory.None? then Some(Aborted(UnavailableAction, Failed, None))
            else if !(spec.required <= CompletedSet(s)) then Some(Aborted(PreconditionUnmet, Failed, None))
            else if !env.inputsReady(tool, d.ledger) then Some(Aborted(PreconditionUnmet, InsufficientEvidence, None))
            else None
  }

  function NewExecution(s: State, tool: Tool, params: Params, adaptive: bool, cost: nat): Execution {
    Execution(|s.executions|, s.step, tool, params, Signature(tool, params), Prepared,
              adaptive, if adaptive then cost else 0, None, None)
  }

  function PreparedState(s: State, x: Execution): State {
    s.(status := RunningTool, toolCalls := s.toolCalls + 1,
       adaptiveUsed := s.adaptiveUsed + (if x.adaptive then 1 else 0),
       costUsed := s.costUsed + x.cost, costLeft := s.costLeft - x.cost,
       executions := s.executions + [x])
  }

  /** `_execute_action`. */
  function Execute(env: Env, r: Run, tool: Tool, params: Params, adaptive: bool): (q: Run)
    ensures First(q) == First(r) && Extends(r, q)
  {
    var s := r.now.state;
    match Refusal(env, r.now, tool, params, adaptive)
    case Some(exit) => Raise(r, exit)
    case None =>
      var valid := env.schema(tool, params).value;
      var x := NewExecution(s, tool, valid, adaptive, Resolve(env.specs, tool).value.cost);
      var r1 := Emit(Save(r, PreparedState(s, x)), ToolEvent);
      if r1.exit.Running? then Receive(env, r1, x, valid, env.invoke(tool, valid, x.action, r1.now.ledger)) else r1
  }

  // ---- inference traffic ----

  function Tell(r: Run, log: seq<Tele>): (q: Run)
    ensures First(q) == First(r) && Extends(r, q)
    decreases log
  {
    if log == [] then r else Tell(TellOne(r, log[0]), log[1..])
  }

  function TellOne(r: Run, t: Tele): (q: Run)
    ensures First(q) == First(r) && Extends(r, q)
  {
    var s := r.now.state;
    match t
    case Started =>
      if s.modelCalls < s.limits.modelCalls then Emit(Save(r, s.(modelCalls := s.modelCalls + 1)), AgentEvent) else r
    case Recorded => Emit(r, InferenceEvent)
    case Retried(kind) =>
      if s.retries < s.limits.retries
      then Emit(Save(r, s.(retries := s.retries + 1, failures := s.failures + [kind])), AgentEvent) else r
    case Noted => Emit(r, AgentEvent)
  }

  // ---- role checkpoints ----

  function Merged(cs: seq<Checkpoint>, ds: seq<Checkpoint>): seq<Checkpoint>
    decreases ds
  {
    if ds == [] then cs
    else Merged(if Known(cs, ds[0].role, ds[0].phase, ds[0].context) then cs else cs + [ds[0]], ds[1..])
  }

  /** `_recover_role_checkpoints`. */
  function RecoverCheckpoints(r: Run): (q: Run)
    ensures First(q) == First(r) && Extends(r, q)
  {
    var s := r.now.state;
    var merged := Merged(s.checkpoints, r.now.decisions);
    if merged == s.checkpoints then r else Save(r, s.(checkpoints := merged))
  }

  predicate RoleDone(s: State, role: Role, phase: Phase) { Known(s.checkpoints, role, phase, s.context) }

  function Checkpointed(r: Run, c: Checkpoint): (q: Run)
    ensures First(q) == First(r) && Extends(r, q)
  {
    var r1 := AppendDecision(r, c);
    Save(r1, r1.now.state.(checkpoints := r1.now.state.checkpoints + [c]))
  }

  function PersistOptional(r: Run, role: Role, phase: Phase, result: RoleResult): (q: Run)
    ensures First(q) == First(r) && Extends(r, q)
  {
    var r1 := RecoverCheckpoints(r);
    var s := r1.now.state;
    if RoleDone(s, role, phase) then r1
    else
      var c := Checkpoint(role, phase, s.context, if result.Spoke? then result.decision else "skip", result.Spoke?);
      EmitAll(Checkpointed(r1, c),
              if result.Spoke? then [AgentEvent, AgentEvent, AgentEvent] else [AgentEvent, AgentEvent])
  }

  /** A Critic's record is also announced as a decision. */
  function RequiredEvents(role: Role): seq<EventKind> {
    if role.CriticRole? then [AgentEvent, AgentEvent, AgentEvent] else [AgentEvent, AgentEvent]
  }

  function PersistRequired(r: Run, role: Role, phase: Phase, decision: string): (q: Run)
    ensures First(q) == First(r) && Extends(r, q)
  {
    var s := r.now.state;
    if RoleDone(s, role, phase) then r
    else EmitAll(Checkpointed(r, Checkpoint(role, phase, s.context, decision, true)), RequiredEvents(role))
  }

  // ---- the director ----

  /** `begin_cycle`: charge one step, unless this step is already charged. */
  function Begin(r: Run): (q: Run)
    ensures First(q) == First(r) && Extends(r, q)
  {
    var s := r.now.state;
    if Stopped(s.status) || !RequiresBegin(r.now) then r
    else if s.limits.steps <= s.step then Raise(r, Aborted(OutOfBudget, BudgetExhausted, None))
    else Emit(Save(r, s.(step := s.step + 1)), BudgetUpdated)
  }

  datatype FreshRoute = FreshMandatory | FreshSkeptic | FreshFinalize | FreshTerminate

  function FreshRouteOf(env: Env, s: State): FreshRoute {
    if Missing(s) != {} then FreshMandatory
    else if s.candidates == [] then FreshTerminate
    else if BudgetReason(s).Some? then FreshFinalize
    else if Available(env, s) == [] then FreshFinalize
    else FreshSkeptic
  }

  function Selecting(env: Env, s: State): State {
    s.(status := SelectingAdaptive, available := Available(env, s))
  }

  /** `determine_director_route` on a state with decisions or work in flight. */
  function LifecycleRoute(s: State, prepared: bool, pending: bool): Option<Route> {
    if Stopped(s.status) then Some(NoopTerminal)
    else if prepared then Some(RecoverPrepared)
    else if pending then Some(EvaluateResult)
    else match CurrentSkeptic(s)
      case None => None
      case Some(k) =>
        match CurrentCritic(s)
        case None => Some(ResumeCritic)
        case Some(c) =>
          if c.verdict.Revise? && s.revisions != Revisions(s.critics) then Some(ResumeCritic)
          else if c.verdict.Veto? then Some(Finalize)
          else if Chosen(k, c).0.Stop? then Some(Finalize)
          else Some(ExecuteApproved)
  }

  datatype Step = Step(r: Run, route: Option<Route>)

  /** `_fresh_cycle_route` and what follows it in `determine_route`. */
  function FreshCycle(env: Env, r: Run): (step: Step)
    ensures First(step.r) == First(r) && Extends(r, step.r)
  {
    match FreshRouteOf(env, r.now.state)
    case FreshMandatory => Step(r, Some(RunMandatory))
    case FreshTerminate => Step(r, Some(Terminate))
    case FreshFinalize => Step(r, Some(Finalize))
    case FreshSkeptic =>
      var r1 := Save(r, Selecting(env, r.now.state));
      // The checkpoints consulted are those read before this save.
      var s := r.now.state;
      Step(r1,
        if env.multiAgent
            && !(RoleDone(s, Observer, Briefing) && RoleDone(s, Signal, Briefing)
                && RoleDone(s, TransitHunter, Briefing))
        then Some(RunSpecialists)
        else if env.multiAgent && !RoleDone(s, Director, Briefing) then Some(CallDirectorBriefing)
        else Some(CallSkeptic))
  }

  /** `determine_route`. */
  function DetermineRoute(env: Env, r: Run): (step: Step)
    ensures First(step.r) == First(r) && Extends(r, step.r)
  {
    hide Extends;
    var r0 := RecoverCheckpoints(r);
    var s0 := r0.now.state;
    if s0.status.Finalizing? then Step(r0, Some(Finalize))
    else
      var prepared := HasPrepared(s0);
      var pending := PendingEvaluation(r0.now);
      var r1 := if !prepared && !pending then Begin(r0) else r0;
      Itself(r0);
      Onward(r, r0, r1);
      var s := r1.now.state;
      if Stopped(s.status) || prepared || pending || CurrentSkeptic(s).Some? then
        Step(r1, LifecycleRoute(s, prepared, pending))
      else if s.status.WaitingForCritic? || s.status.RunningTool? then
        var r2 := Raise(r1, Aborted(ToolInfrastructureFailure, Failed, None));
        Onward(r, r1, r2);
        Step(r2, None)
      else
        var r2 := Begin(r1);
        var step := FreshCycle(env, r2);
        Onward(r, r1, r2);
        Onward(r, r2, step.r);
        step
  }

  /** Node `director_route`; the audit event is not written for a no-op. */
  function DirectorRoute(env: Env, r: Run): (step: Step)
    ensures First(step.r) == First(r) && Extends(r, step.r)
  {
    var step := DetermineRoute(env, r);
    if step.route == Some(NoopTerminal) then step else Step(Emit(step.r, RouteTaken), step.route)
  }

  // ---- the working nodes ----

  function FirstRunnable(specs: seq<Spec>, missing: set<Test>, completed: set<Test>): Option<Spec> {
    if specs == [] then None
    else if specs[0].mandatory.Some? && specs[0].mandatory.value in missing && specs[0].required <= completed then
      Some(specs[0])
    else FirstRunnable(specs[1..], missing, completed)
  }

  /** Node `run_mandatory_action`. */
  function Mandatory(env: Env, r: Run): (q: Run)
    ensures First(q) == First(r) && Extends(r, q)
  {
    var s := r.now.state;
    match FirstRunnable(env.specs, Missing(s), CompletedSet(s))
    case None => TerminateRun(r, NotEnoughEvidence, InsufficientEvidence, None)
    case Some(spec) =>
      var r1 := Save(r, s.(status := VettingMandatory));
      if r1.exit.Running? then Execute(env, r1, spec.tool, NO_PARAMS, false) else r1
  }

  /** Node `specialist_briefing`. */
  function Specialists(env: Env, r: Run, o: Oracle): (q: Run)
    ensures First(q) == First(r) && Extends(r, q)
  {
    hide Extends;
    var r0 := RecoverCheckpoints(r);
    var observer := RoleDone(r0.now.state, Observer, Briefing);
    var signal := RoleDone(r0.now.state, Signal, Briefing);
    var r1 := HearBoth(r0, observer, signal, o);
    var r2 := RecoverCheckpoints(r1);
    var r3 := OptionalRole(r2, TransitHunter, Briefing, o.hunterLog, o.hunter);
    Onward(r, r0, r1);
    Onward(r, r1, r2);
    Onward(r, r2, r3);
    r3
  }

  /** The two concurrent specialists, unless they are done; committed in order. */
  function HearBoth(r: Run, observer: bool, signal: bool, o: Oracle): (q: Run)
    ensures First(q) == First(r) && Extends(r, q)
  {
    hide Extends;
    var r1 := EmitAll(r, (if observer then [] else [AgentEvent]) + (if signal then [] else [AgentEvent]));
    var r2 := if observer && signal then r1 else Tell(r1, o.specialistLog);
    var r3 := if observer then r2 else PersistOptional(r2, Observer, Briefing, o.observer);
    var r4 := if signal then r3 else PersistOptional(r3, Signal, Briefing, o.signal);
    Itself(r1);
    Itself(r2);
    Itself(r3);
    Onward(r, r1, r2);
    Onward(r, r2, r3);
    Onward(r, r3, r4);
    r4
  }

  /** Queue one optional role, infer, and persist, unless it has a checkpoint. */
  function OptionalRole(r: Run, role: Role, phase: Phase, log: seq<Tele>, result: RoleResult): (q: Run)
    ensures First(q) == First(r) && Extends(r, q)
  {
    if RoleDone(r.now.state, role, phase) then r
    else PersistOptional(Tell(Emit(r, AgentEvent), log), role, phase, result)
  }

  /** Node `director_briefing`. */
  function DirectorBriefing(env: Env, r: Run, o: Oracle): (q: Run)
    ensures First(q) == First(r) && Extends(r, q)
  {
    OptionalRole(RecoverCheckpoints(r), Director, Briefing, o.briefLog, o.brief)
  }

  /** Node `skeptic_decision`. An answer that its validation would refuse is an abort. */
  function SkepticNode(env: Env, r: Run, o: Oracle): (q: Run)
    ensures First(q) == First(r) && Extends(r, q)
  {
    hide Extends;
    var s := r.now.state;
    Itself(r);
    if CurrentSkeptic(s).Some? then
      if s.status.SelectingAdaptive? then Save(r, s.(status := WaitingForCritic)) else r
    else
      var r0 := Save(r, Selecting(env, s));
      var r1 := Tell(r0, o.skepticLog);
      Onward(r, r0, r1);
      var s1 := r1.now.state;
      match o.skeptic
      case GaveUp(kind, status) =>
        var q := Raise(r1, Aborted(kind, if status.BudgetExhausted? then status else Failed, None));
        Onward(r, r1, q);
        q
      case Accepted(k) =>
        if !JudgeSkeptic(env, s1, k, s1.available).Accept? then
          var q := Raise(r1, Aborted(InvalidModelOutput, Failed, None));
          Onward(r, r1, q);
          q
        else
          var r3 := RecordProposal(r1, k);
          var q := Save(r3, r3.now.state.(status := WaitingForCritic));
          Onward(r, r1, r3);
          Onward(r, r3, q);
          q
  }

  /** The writes of an accepted proposal, before its status. */
  function RecordProposal(r: Run, k: Skeptic): (q: Run)
    ensures First(q) == First(r) && Extends(r, q)
  {
    var r2 := Save(r, r.now.state.(accepted := r.now.state.accepted + [k]));
    Emit(PersistRequired(r2, SkepticRole, Decision, k.id), AgentEvent)
  }

  /** Node `critic_review`. */
  function CriticNode(env: Env, r: Run, o: Oracle): (q: Run)
    ensures First(q) == First(r) && Extends(r, q)
  {
    var s := r.now.state;
    match CurrentSkeptic(s)
    case None => Raise(r, Aborted(ToolInfrastructureFailure, Failed, None))
    case Some(k) =>
      if CurrentCritic(s).Some? then r
      else
        var r1 := Tell(r, o.criticLog);
        var s1 := r1.now.state;
        match o.critic
        case GaveUp(kind, status) => Raise(r1, Aborted(kind, if status.BudgetExhausted? then status else Failed, None))
        case Accepted(c) =>
          var j := JudgeCritic(env, s1, k, c, s1.available);
          if j.OverBudget? then Raise(r1, Aborted(OutOfBudget, BudgetExhausted, None))
          else if j.Reject? then Raise(r1, Aborted(InvalidModelOutput, Failed, None))
          else RecordReview(r1, c)
  }

  /** The writes of an accepted review. */
  function RecordReview(r: Run, c: Critic): (q: Run)
    ensures First(q) == First(r) && Extends(r, q)
  {
    Emit(PersistRequired(Save(r, r.now.state.(critics := r.now.state.critics + [c])), CriticRole, Review, c.id),
        AgentEvent)
  }

  /** Node `critic_route`, before its audit event. */
  function ResolveVerdict(r: Run): (step: Step)
    ensures First(step.r) == First(r) && Extends(r, step.r)
  {
    var s := r.now.state;
    match CurrentCritic(s)
    case None => Step(Raise(r, Aborted(ToolInfrastructureFailure, Failed, None)), None)
    case Some(c) =>
      var chosen := Chosen(CurrentSkeptic(s).value, c).0;
      var route := Some(if chosen.Stop? then Finalize else ExecuteApproved);
      if c.verdict.Veto? then Step(r, Some(Finalize))
      else if !c.verdict.Revise? then Step(r, route)
      else
        var n := Revisions(s.critics);
        if s.limits.revisions <= n - 1 then Step(Raise(r, Aborted(OutOfBudget, BudgetExhausted, None)), None)
        else if s.revisions < n then Step(Save(r, s.(revisions := n)), route)
        else if n < s.revisions then Step(Raise(r, Aborted(ToolInfrastructureFailure, Failed, None)), None)
        else Step(r, route)
  }

  function CriticRoute(r: Run): (step: Step)
    ensures First(step.r) == First(r) && Extends(r, step.r)
  {
    var step := ResolveVerdict(r);
    Step(Emit(step.r, RouteTaken), step.route)
  }

  /** Node `execute_adaptive`. */
  function ExecuteAdaptive(env: Env, r: Run): (q: Run)
    ensures First(q) == First(r) && Extends(r, q)
  {
    var s := r.now.state;
    match CurrentCritic(s)
    case None => Raise(r, Aborted(ToolInfrastructureFailure, Failed, None))
    case Some(c) =>
      var (action, params) := Chosen(CurrentSkeptic(s).value, c);
      if c.verdict.Veto? || action.Stop? then Raise(r, Aborted(ToolInfrastructureFailure, Failed, None))
      else Execute(env, r, action.tool, params, true)
  }

  function PrepareFinalization(r: Run, reason: Reason): (q: Run)
    ensures First(q) == First(r) && Extends(r, q)
  {
    Emit(Save(r, r.now.state.(status := Finalizing, pendingFinal := Some(reason))), StatusChanged)
  }

  /** `_after_result`. */
  function AfterResult(env: Env, r: Run, x: Option<Execution>, result: ToolResult): (q: Run)
    ensures First(q) == First(r) && Extends(r, q)
  {
    var s := r.now.state;
    var adaptive := x.Some? && x.value.adaptive;
    match result.status
    case ToolFailed => TerminateRun(r, ToolInfrastructureFailure, Failed, Some(result.action))
    case NotImplemented => TerminateRun(r, NotEnoughEvidence, InsufficientEvidence, None)
    case PreconditionFailed =>
      if !adaptive then TerminateRun(r, PreconditionUnmet, InsufficientEvidence, None)
      else if Available(env, s) != [] then
        Emit(Save(r, s.(status := SelectingAdaptive, failures := s.failures + [PreconditionUnmet])), StatusChanged)
      else PrepareFinalization(Save(r, s.(failures := s.failures + [PreconditionUnmet])), ReplanExhausted(result.tool))
    case _ =>
      if Missing(s) != {} then Save(r, s.(status := VettingMandatory))
      else match Decisive(Codes(r.now.ledger))
        case Some(code) => PrepareFinalization(r, DeterministicEvidence(code))
        case None =>
          if adaptive then
            if BudgetReason(s).Some? then PrepareFinalization(r, BudgetReason(s).value)
            else if Available(env, s) == [] then PrepareFinalization(r, NoAvailableAction)
            else Save(r, s.(status := SelectingAdaptive))
          else if !result.status.Success? && s.limits.adaptive <= s.adaptiveUsed then
            PrepareFinalization(r, ScientificOutcome(result.status))
          else Save(r, s.(status := SelectingAdaptive))
  }

  /** Node `evaluate_result`. */
  function Evaluate(env: Env, r: Run): (step: Step)
    ensures First(step.r) == First(r) && Extends(r, step.r)
  {
    var s := r.now.state;
    if Stopped(s.status) then Step(r, None)
    else if !s.status.UpdatingEvidence? then Step(Raise(r, Aborted(ToolInfrastructureFailure, Failed, None)), None)
    else match LatestResulted(s.executions, s.step)
      case None => Step(Raise(r, Aborted(ToolInfrastructureFailure, Failed, None)), None)
      case Some(x) =>
        match RecordById(r.now.ledger, x.evidence.value)
        case None => Step(Raise(r, Broken(x.action)), None)
        case Some(e) =>
          var r1 := AfterResult(env, r, FindExecution(s.executions, e.result.action), e.result);
          Step(r1, Some(if r1.now.state.status.Finalizing? then Finalize else NoopTerminal))
  }

  function FinalReason(env: Env, s: State): Option<Reason> {
    if s.status.Finalizing? then s.pendingFinal
    else match CurrentCritic(s)
      case Some(c) =>
        if c.verdict.Veto? then Some(CriticVeto)
        else if CurrentSkeptic(s).value.action.Stop? || (c.verdict.Revise? && c.action.Stop?) then Some(AgentStop)
        else if BudgetReason(s).Some? then BudgetReason(s) else AvailabilityReason(env, s)
      case None => if BudgetReason(s).Some? then BudgetReason(s) else AvailabilityReason(env, s)
  }

  /** `_finalize`. */
  function Conclude(r: Run, reason: Reason): (q: Run)
    ensures First(q) == First(r) && Extends(r, q)
  {
    var s := r.now.state;
    var disposition := DispositionOf(Codes(r.now.ledger), s.candidates != []);
    if Missing(s) != {} || disposition.None? then TerminateRun(r, NotEnoughEvidence, InsufficientEvidence, None)
    else
      var ready := s.(status := ReadyToLock, disposition := disposition, pendingFinal := None,
                      terminalReason := Some(reason));
      EmitAll(Save(r, ready), [InferenceEvent, StatusChanged])
  }

  /** Node `finalize`. */
  function FinalizeNode(env: Env, r: Run, o: Oracle): (q: Run)
    ensures First(q) == First(r) && Extends(r, q)
  {
    match FinalReason(env, r.now.state)
    case None => Raise(r, Aborted(ToolInfrastructureFailure, Failed, None))
    case Some(reason) =>
      hide Extends;
      var r1 := if env.multiAgent then OptionalRole(r, Director, Final, o.finalLog, o.final) else r;
      var q := Conclude(r1, reason);
      Itself(r);
      Onward(r, r1, q);
      q
  }

  /** Node `terminate`. */
  function TerminateNode(r: Run): (q: Run)
    ensures First(q) == First(r) && Extends(r, q)
  { TerminateRun(r, NotEnoughEvidence, InsufficientEvidence, None) }

  // ---- the graph ----

  datatype Node =
    | RecoverNode | RouteNode | MandatoryNode | SpecialistNode | BriefingNode | ProposeNode
    | ReviewNode | VerdictNode | AdaptiveNode | EvaluateNode | FinalNode | TerminalNode | End

  function Perform(env: Env, n: Node, r: Run, o: Oracle): (step: Step)
    ensures First(step.r) == First(r) && Extends(r, step.r)
  {
    match n
    case RecoverNode => Step(Recover(env, r), None)
    case RouteNode => DirectorRoute(env, r)
    case MandatoryNode => Step(Mandatory(env, r), None)
    case SpecialistNode => Step(Specialists(env, r, o), None)
    case BriefingNode => Step(DirectorBriefing(env, r, o), None)
    case ProposeNode => Step(SkepticNode(env, r, o), None)
    case ReviewNode => Step(CriticNode(env, r, o), None)
    case VerdictNode => CriticRoute(r)
    case AdaptiveNode => Step(ExecuteAdaptive(env, r), None)
    case EvaluateNode => Evaluate(env, r)
    case FinalNode => Step(FinalizeNode(env, r, o), None)
    case TerminalNode => Step(TerminateNode(r), None)
    case End => Step(r, None)
  }

  /** The edges: plain ones, and those chosen by the envelope's current route. */
  function Next(n: Node, route: Option<Route>): Option<Node> {
    match n
    case RecoverNode => Some(RouteNode)
    case RouteNode =>
      (match route
       case None => None
       case Some(RecoverPrepared) => Some(RecoverNode)
       case Some(RunMandatory) => Some(MandatoryNode)
       case Some(RunSpecialists) => Some(SpecialistNode)
       case Some(CallDirectorBriefing) => Some(BriefingNode)
       case Some(CallSkeptic) => Some(ProposeNode)
       case Some(ResumeCritic) => Some(ReviewNode)
       case Some(ExecuteApproved) => Some(AdaptiveNode)
       case Some(EvaluateResult) => Some(EvaluateNode)
       case Some(Finalize) => Some(FinalNode)
       case Some(Terminate) => Some(TerminalNode)
       case Some(NoopTerminal) => Some(End))
    case MandatoryNode => Some(EvaluateNode)
    case SpecialistNode => Some(BriefingNode)
    case BriefingNode => Some(ProposeNode)
    case ProposeNode => Some(ReviewNode)
    case ReviewNode => Some(VerdictNode)
    case VerdictNode =>
      if route == Some(ExecuteApproved) then Some(AdaptiveNode)
      else if route == Some(Finalize) then Some(FinalNode) else None
    case AdaptiveNode => Some(EvaluateNode)
    case EvaluateNode =>
      if route == Some(Finalize) then Some(FinalNode)
      else if route == Some(NoopTerminal) then Some(End) else None
    case FinalNode => Some(End)
    case TerminalNode => Some(End)
    case End => None
  }

  const RECURSION_LIMIT: nat := 16

  /** Walk the graph from a node. A node that returns no route leaves the
      envelope's previous route in place; an exit of a node ends the walk. */
  function Walk(env: Env, n: Node, r: Run, route: Option<Route>, o: Oracle, fuel: nat): (q: Run)
    ensures First(q) == First(r) && Extends(r, q)
    decreases fuel
  {
    if n.End? || !r.exit.Running? then r
    else if fuel == 0 then Raise(r, Faulted(StepLimit))
    else
      var step := Perform(env, n, r, o);
      var chosen := if step.route.Some? then step.route else route;
      if !step.r.exit.Running? then step.r
      else match Next(n, chosen)
        case None => Raise(step.r, Faulted(NoRoute))
        case Some(m) => Walk(env, m, step.r, chosen, o, fuel - 1)
  }

  /** One `advance` from a durable state. */
  function Advance(env: Env, d: Disk, o: Oracle): (q: Run)
    ensures First(q) == d
  {
    Catch(Walk(env, RecoverNode, Start(d), None, o, RECURSION_LIMIT))
  }
}
