/** Value types of one investigation: statuses, evidence, decisions and the
    durable state snapshot. */
module Domain {

  datatype Option<+T> = None | Some(value: T)

  function Max(a: nat, b: nat): nat { if a < b then b else a }

  datatype Status =
    | Initialized | Preparing | Searching | VettingMandatory
    | SelectingAdaptive | WaitingForCritic | RunningTool | UpdatingEvidence
    | Finalizing | ReadyToLock | ResultLocked | Revealed
    | InsufficientEvidence | Rejected | Failed | BudgetExhausted

  /** The three statuses any working status may fail into. */
  predicate Failing(s: Status) {
    s.Failed? || s.InsufficientEvidence? || s.BudgetExhausted?
  }

  /** The table of status transitions; a status may always be kept. */
  predicate MayMove(from: Status, to: Status) {
    from == to ||
    match from
    case Initialized => to.Preparing? || to.VettingMandatory? || to.SelectingAdaptive? || to.UpdatingEvidence?
      || Failing(to)
    case Preparing => to.Searching? || to.VettingMandatory? || Failing(to)
    case Searching => to.UpdatingEvidence? || Failing(to)
    case VettingMandatory => to.RunningTool? || Failing(to)
    case SelectingAdaptive => to.WaitingForCritic? || to.ReadyToLock? || Failing(to)
    case WaitingForCritic => to.RunningTool? || to.ReadyToLock? || Failing(to)
    case RunningTool => to.UpdatingEvidence? || Failing(to)
    case UpdatingEvidence => to.VettingMandatory? || to.SelectingAdaptive? || to.Finalizing? || to.ReadyToLock?
      || Failing(to)
    case Finalizing => to.ReadyToLock? || Failing(to)
    case ReadyToLock => to.ResultLocked?
    case ResultLocked => to.Revealed?
    case _ => false
  }

  /** The statuses in which the controller refuses to advance. */
  predicate Stopped(s: Status) {
    s.ReadyToLock? || s.ResultLocked? || s.Revealed? || s.Rejected? || Failing(s)
  }

  /** Terminal statuses: the stopped ones without READY_TO_LOCK. */
  predicate Terminal(s: Status) {
    Stopped(s) && !s.ReadyToLock?
  }

  datatype LockState = GroundTruthLocked | ResultSealed | CatalogRevealed

  datatype Disposition = Weak | Survives | PlanetaryRejected

  datatype ToolStatus = Success | NoEvidence | Indeterminate | PreconditionFailed | NotImplemented | ToolFailed

  /** Interpretation codes; the four decisive ones come first. */
  datatype Code =
    | CleanPlanetLike | ContaminationLikely | OddEvenMismatch | WeakNoisy
    | SecondaryEclipseDetected | ContaminationPossible | HarmonicAliasPreferred
    | OtherCode(name: string)

  datatype Hypothesis =
    | PlanetaryTransit | EclipsingBinary | BackgroundContamination | InstrumentalOrVariableNoise

  /** The mandatory diagnostics. */
  datatype Test = SignalQuality | OddEven | SecondaryEclipse | Contamination

  const MANDATORY_TESTS: set<Test> := {SignalQuality, OddEven, SecondaryEclipse, Contamination}

  datatype Tool =
    | SearchBls | OddEvenTool | SecondaryEclipseTool | ContaminationScreening
    | HarmonicTest | CentroidLocalization | Unlisted(name: string)

  /** What a model may ask for: a tool, or to stop. */
  datatype Action = Stop | Use(tool: Tool)

  type Params = map<string, string>

  const NO_PARAMS: Params := map[]

  datatype Quantity = Quantity(value: real, unit: string)

  /** A tool's answer. `foreign` says that its run or target is not this one. */
  datatype ToolResult = ToolResult(
    tool: Tool, status: ToolStatus, action: nat, foreign: bool,
    measurements: map<string, Quantity>, code: Option<Code>, params: Params)

  /** A handler call either answers, raises, or runs into its deadline. */
  datatype ToolOutcome = Returns(result: ToolResult) | Raises | TimesOut

  /** The digest of a result: different results have different ids. */
  datatype EvidenceId = EvidenceId(digested: ToolResult)

  datatype Evidence = Evidence(id: EvidenceId, step: nat, action: nat, result: ToolResult)

  /** A measurement of the candidate, with the evidence it is quoted from. */
  datatype Quoted = Quoted(quantity: Quantity, source: EvidenceId)

  datatype Candidate = Candidate(measurements: map<string, Quoted>)

  datatype ExecutionStatus = Prepared | Completed | ExecutionFailed

  /** An action signature is a digest of the tool's name and its parameters. */
  datatype Signature = Signature(tool: Tool, params: Params)

  datatype Execution = Execution(
    action: nat, step: nat, tool: Tool, params: Params, signature: Signature,
    status: ExecutionStatus, adaptive: bool, cost: nat,
    resultStatus: Option<ToolStatus>, evidence: Option<EvidenceId>)

  datatype Verdict = Approve | Revise | Veto

  /** `foreign`: another role or run; `sound`: citations and narrative pass. */
  datatype Skeptic = Skeptic(
    id: string, step: nat, context: nat, foreign: bool, sound: bool,
    action: Action, params: Params, declaredBudget: nat, declaredCost: nat)

  datatype Critic = Critic(
    id: string, step: nat, context: nat, foreign: bool, sound: bool,
    proposal: string, verdict: Verdict, action: Action, params: Params)

  datatype Role = Director | Observer | Signal | TransitHunter | SkepticRole | CriticRole

  datatype Phase = Briefing | Decision | Review | Final

  /** A role's decision record; the snapshot keeps an equal checkpoint. */
  datatype Checkpoint = Checkpoint(role: Role, phase: Phase, context: nat, decision: string, complete: bool)

  datatype FailureKind =
    | InvalidModelOutput | OutputTruncated | ModelTimeout | ModelProviderFailure | RoleCallLimit
    | UnknownAction | UnavailableAction | MalformedParameters | UnauthorizedAction
    | PreconditionUnmet | RepeatedAction | ToolTimeout | ToolInfrastructureFailure
    | OutOfBudget | NotEnoughEvidence

  datatype Reason =
    | DeterministicEvidence(code: Code) | CountBudgetReached | CostBudgetExhausted
    | NoAvailableAction | NoAffordableExperiment | ReplanExhausted(tool: Tool)
    | ScientificOutcome(status: ToolStatus) | CriticVeto | AgentStop
    | Failure(kind: FailureKind)

  datatype Limits = Limits(
    steps: nat, adaptive: nat, cost: nat, modelCalls: nat, toolCalls: nat, retries: nat, revisions: nat)

  /** The snapshot in state.json. */
  datatype State = State(
    status: Status, lock: LockState, disposition: Option<Disposition>,
    candidates: seq<Candidate>, hypotheses: seq<Hypothesis>, strongest: Option<Hypothesis>,
    evidenceRefs: seq<EvidenceId>, completed: seq<Test>, available: seq<Action>,
    step: nat, modelCalls: nat, toolCalls: nat, adaptiveUsed: nat, costUsed: nat, costLeft: int,
    revisions: nat, retries: nat, limits: Limits,
    accepted: seq<Skeptic>, critics: seq<Critic>, checkpoints: seq<Checkpoint>,
    executions: seq<Execution>, failures: seq<FailureKind>,
    pendingFinal: Option<Reason>, terminalReason: Option<Reason>, context: nat)

  datatype EventKind =
    | Created | BudgetUpdated | EvidenceAppended | RecoveryCompleted | RouteTaken
    | ResultLockedEvent | CatalogRevealedEvent | StatusChanged | ToolEvent | AgentEvent | InferenceEvent

  datatype Event = Event(sequence: nat, step: nat, kind: EventKind)
}
