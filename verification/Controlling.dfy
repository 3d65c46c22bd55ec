/** The controller as the program runs it: volatile copies of the snapshot and
    the trace, a durable store behind them, and nodes that update both step by
    step. Each node is proved to make exactly the writes of its function. */
module Controlling {
  import opened Domain
  import opened Store
  import opened Policy
  import opened Nodes
  import opened Invariant
  import opened Writes
  import opened Committing
  import opened Recovery
  import opened Executing
  import opened Routing
  import opened NodeSafety
  import opened Outcomes
  import opened Cycle
  import opened Advancing

  /** The durable state after some of a run's writes. */
  function Cut(q: Run, writes: nat): Disk {
    if writes < |q.past| then q.past[writes] else q.now
  }

  /** A process at work on files that are good, with no exception in flight. */
  ghost predicate Sane(env: Env, r: Run) { Good(env, r) && r.exit.Running? }

  /** The result that the unfinished execution of `d` waits for. */
  ghost predicate Awaits(env: Env, d: Disk, result: ToolResult) {
    && d.state.status.RunningTool? && |d.ledger| == |d.state.evidenceRefs| && |d.state.executions| > 0
    && Fits(env, Current(d), result)
  }

  /** A failure that may end a run: it fails the unfinished execution with it. */
  predicate Terminable(s: State, status: Status, action: Option<nat>) {
    && !Stopped(s.status) && Failing(status)
    && (if s.status.RunningTool? then action == Some(|s.executions| - 1) && !status.BudgetExhausted? else action.None?)
  }

  lemma TerminableGood(env: Env, r: Run, kind: FailureKind, status: Status, action: Option<nat>)
    requires Sane(env, r) && Terminable(r.now.state, status, action)
    ensures Sane(env, TerminateRun(r, kind, status, action))
      && EndedIn(r.now, TerminateRun(r, kind, status, action).now, status)
      && Explained(r.now, TerminateRun(r, kind, status, action).now, kind, action)
  {
    hide Good, Inv, TerminateRun;
    NonEmptyWhenRunning(env, r);
    TerminateGood(env, r, kind, status, action);
  }

  /** How the graph's walk over a good store may end: never at its own limit,
      and in a failure exactly as the advance does. */
  ghost predicate GraphMeets(env: Env, d: Disk, w: Run, o: Oracle) {
    && AdvanceMeets(env, d, Catch(w), o)
    && (w.exit.Faulted? ==> w.exit == Faulted(if StartsStranded(env, d, o) then IllegalTransition else NoRoute))
  }

  lemma GraphIsSafe(env: Env, d: Disk, o: Oracle)
    requires Inv(env, d) && Registered(env)
    ensures GraphMeets(env, d, Walk(env, RecoverNode, Start(d), None, o, RECURSION_LIMIT), o)
  {
    hide Inv, Good, Walk, StartsStranded, Unrunnable, Little, Progressed, TerminateRun, First, Extends;
    AdvanceSafe(env, d, o);
    var w := Walk(env, RecoverNode, Start(d), None, o, RECURSION_LIMIT);
    if w.exit.Faulted? { assert Catch(w) == w; }
  }

  class Controller {
    const env: Env
    var store: Disk
    var state: State
    var events: seq<Event>
    var exit: Exit
    ghost var run: Run

    /** Memory mirrors the store, and `run` is the history of the store. */
    ghost predicate Valid()
      reads this
    {
      run.now == store && run.exit == exit && state == store.state && events == store.trace
    }

    /** A process that starts: memory is loaded from the store. */
    constructor (env: Env, store: Disk)
      ensures Valid() && run == Start(store) && this.env == env
    {
      this.env, this.store, state, events, exit := env, store, store.state, store.trace, Running;
      run := Start(store);
    }

    /** The process died with any memory; another one takes over the store. */
    method Restart()
      modifies this
      ensures Valid() && run == Start(old(store)) && store == old(store)
    {
      state, events, exit := store.state, store.trace, Running;
      run := Start(store);
    }

    // ---- durable writes; an exception makes all later ones void ----

    method Throw(e: Exit)
      requires Valid()
      modifies this
      ensures Valid() && run == Raise(old(run), e)
    {
      if exit.Running? { exit := e; }
      run := Raise(run, e);
    }

    method Write(d: Disk)
      requires Valid()
      modifies this
      ensures Valid() && run == Push(old(run), d)
    {
      if exit.Running? {
        store := d;
        state, events := d.state, d.trace;
      }
      run := Push(run, d);
    }

    method Replace(s: State)
      requires Valid()
      modifies this
      ensures Valid() && run == Save(old(run), s)
    {
      if !MayMove(state.status, s.status) { Throw(Faulted(IllegalTransition)); }
      else if !ValidSnapshot(s) { Throw(Faulted(InvalidSnapshot)); }
      else { Write(store.(state := s)); }
    }

    method EmitEvent(kind: EventKind)
      requires Valid()
      modifies this
      ensures Valid() && run == Emit(old(run), kind)
    {
      var event := Event(|events| + 1, state.step, kind);
      Write(store.(trace := store.trace + [event]));
    }

    method EmitEvents(kinds: seq<EventKind>)
      requires Valid()
      modifies this
      ensures Valid() && run == EmitAll(old(run), kinds)
    {
      var i := 0;
      while i < |kinds|
        invariant 0 <= i <= |kinds| && Valid() && EmitAll(run, kinds[i..]) == EmitAll(old(run), kinds)
      {
        assert kinds[i..][1..] == kinds[i + 1..];
        EmitEvent(kinds[i]);
        i := i + 1;
      }
    }

    method AppendRecord(e: Evidence)
      requires Valid()
      modifies this
      ensures Valid() && run == AppendEvidence(old(run), e)
    {
      if exists x :: x in store.ledger && (x.id == e.id || x.action == e.action) { Throw(Faulted(DuplicateEvidence)); }
      else { Write(store.(ledger := store.ledger + [e])); }
    }

    method AppendRoleRecord(c: Checkpoint)
      requires Valid()
      modifies this
      ensures Valid() && run == AppendDecision(old(run), c)
    {
      if Known(store.decisions, c.role, c.phase, c.context) { Throw(Faulted(DuplicateDecision)); }
      else { Write(store.(decisions := store.decisions + [c])); }
    }

    // ---- termination ----

    /** The executions with one of them failed. */
    method FailedExecutions(action: Option<nat>) returns (executions: seq<Execution>)
      ensures executions == FailExecution(state.executions, action)
    {
      executions := [];
      var i := 0;
      while i < |state.executions|
        invariant 0 <= i <= |state.executions| && executions == FailExecution(state.executions, action)[..i]
      {
        var x := state.executions[i];
        executions := executions + [if action == Some(x.action) then x.(status := ExecutionFailed) else x];
        i := i + 1;
      }
    }

    method Terminate(kind: FailureKind, status: Status, action: Option<nat>)
      requires Valid()
      modifies this
      ensures Valid() && run == TerminateRun(old(run), kind, status, action)
      ensures Sane(env, old(run)) && Terminable(old(state), status, action) ==>
        Sane(env, run) && EndedIn(old(store), store, status) && Explained(old(store), store, kind, action)
    {
      hide Good, Inv, Grows, Extends, First, FailExecution, Save, EmitAll, Terminable;
      if Sane(env, run) && Terminable(state, status, action) { TerminableGood(env, run, kind, status, action); }
      var executions := FailedExecutions(action);
      Replace(state.(status := status, pendingFinal := None, terminalReason := Some(Failure(kind)),
                     failures := state.failures + [kind], executions := executions));
      EmitEvents([InferenceEvent] + (if action.Some? then [ToolEvent] else []) + [StatusChanged]);
    }

    // ---- committing ----

    method CheckCandidates()
      requires Valid()
      modifies this
      ensures Valid() && run == CheckProvenance(old(run))
    {
      if !Provenance(state, store.ledger) { Throw(Faulted(ProvenanceBroken)); }
    }

    /** `_commit_result`. */
    method CommitResult(result: ToolResult)
      requires Valid()
      modifies this
      ensures Valid() && run == Commit(env, old(run), result)
      ensures Sane(env, old(run)) && Awaits(env, old(store), result) ==>
        Sane(env, run) && Announced(old(store), store)
    {
      hide Good, Inv, Grows, Extends, Provenance, CommittedState, EmitAll;
      if Sane(env, run) && Awaits(env, store, result) { CommitGood(env, run, result); }
      if !AdmissionOpen(state) { Throw(Faulted(AdmissionClosed)); return; }
      var found := FindExecution(state.executions, result.action);
      if found.None? { Throw(Faulted(UnmatchedResult)); return; }
      var x := found.value;
      if !x.status.Prepared? || result.tool != x.tool || result.foreign
          || env.schema(result.tool, result.params) != Some(x.params) {
        Throw(Faulted(UnmatchedResult));
        return;
      }
      var prepared := state;
      var record := RecordFor(x, result);
      AppendRecord(record);
      Replace(CommittedState(env, prepared, record));
      CheckCandidates();
      EmitEvents([ToolEvent, AgentEvent, EvidenceAppended]);
    }

    /** `_commit_recovered_record`. */
    method CommitRecovered(e: Evidence)
      requires Valid()
      modifies this
      ensures Valid() && run == CommitRecorded(env, old(run), e)
    {
      hide Extends, Provenance, RecoveredState, EmitAll;
      if !AdmissionOpen(state) { Throw(Broken(e.action)); return; }
      var found := FindExecution(state.executions, e.action);
      if found.None? { Throw(Broken(e.action)); return; }
      var x := found.value;
      if !x.status.Prepared? || x.tool != e.result.tool || e.result.foreign
          || env.schema(e.result.tool, e.result.params) != Some(x.params) {
        Throw(Broken(e.action));
        return;
      }
      Replace(RecoveredState(env, state, e));
      CheckCandidates();
      EmitEvents([RecoveryCompleted, AgentEvent]);
    }

    method ReceiveResult(x: Execution, params: Params, outcome: ToolOutcome)
      requires Valid()
      modifies this
      ensures Valid() && run == Receive(env, old(run), x, params, outcome)
    {
      hide Extends, Commit;
      match outcome
      case TimesOut => Throw(Aborted(ToolTimeout, Failed, Some(x.action)));
      case Raises => Throw(Broken(x.action));
      case Returns(result) =>
        if result.tool != x.tool || result.foreign || result.action != x.action { Throw(Broken(x.action)); }
        else if env.schema(result.tool, result.params) != Some(params) { Throw(Broken(x.action)); }
        else { CommitResult(result); }
    }

    // ---- recovery ----

    method RunAgain(x: Execution)
      requires Valid()
      modifies this
      ensures Valid() && run == Reexecute(env, old(run), x)
    {
      hide Extends, Receive, Emit;
      var found := Resolve(env.specs, x.tool);
      if found.None? { Throw(Broken(x.action)); return; }
      if !found.value.authorized { Throw(Aborted(UnauthorizedAction, Failed, Some(x.action))); return; }
      var params := env.schema(x.tool, x.params);
      if params.None? || !found.value.idempotent { Throw(Broken(x.action)); return; }
      if !env.inputsReady(x.tool, store.ledger) {
        Throw(Aborted(PreconditionUnmet, InsufficientEvidence, Some(x.action)));
        return;
      }
      ReceiveResult(x, params.value, env.invoke(x.tool, params.value, x.action, store.ledger));
      if exit.Faulted? {
        exit := Broken(x.action);
        run := Guarded(run, x.action);
      }
      EmitEvent(RecoveryCompleted);
    }

    /** Node `recover_prepared_execution`: the executions are those read at its start. */
    method RecoverPrepared()
      requires Valid()
      modifies this
      ensures Valid() && run == Recover(env, old(run))
      ensures Sane(env, old(run)) ==> Good(env, run) && !exit.Faulted? && (exit.Running? ==> !state.status.RunningTool?)
    {
      hide Good, Inv, Grows, Extends, CommitRecorded, Reexecute, RecordOf;
      if Sane(env, run) { RecoverGood(env, run); }
      if Stopped(state.status) { return; }
      var executions := state.executions;
      var i := 0;
      while i < |executions|
        invariant 0 <= i <= |executions| && Valid()
          && RecoverEach(env, run, executions[i..]) == RecoverEach(env, old(run), executions)
      {
        assert executions[i..][0] == executions[i] && executions[i..][1..] == executions[i + 1..];
        if executions[i].status.Prepared? && exit.Running? {
          var record := RecordOf(store.ledger, executions[i].action);
          if record.Some? { CommitRecovered(record.value); } else { RunAgain(executions[i]); }
        }
        i := i + 1;
      }
    }

    // ---- executing ----

    /** `_execute_action`. */
    method ExecuteAction(tool: Tool, params: Params, adaptive: bool)
      requires Valid()
      modifies this
      ensures Valid() && run == Execute(env, old(run), tool, params, adaptive)
      ensures Sane(env, old(run)) && Requestable(env, old(store), tool, params, adaptive) ==>
        Good(env, run) && !exit.Faulted? && AtMostOne(old(store), store)
          && (exit.Running? ==> Performed(old(store), store))
    {
      hide Good, Inv, Grows, First, Extends, Refusal, Receive, Emit, Save;
      if Sane(env, run)
          && Requestable(env, store, tool, params, adaptive) { ExecuteGood(env, run, tool, params, adaptive); }
      var refusal := Refusal(env, store, tool, params, adaptive);
      if refusal.Some? { Throw(refusal.value); return; }
      Granted(env, store, tool, params, adaptive);
      var valid := env.schema(tool, params).value;
      var x := NewExecution(state, tool, valid, adaptive, Resolve(env.specs, tool).value.cost);
      Replace(PreparedState(state, x));
      EmitEvent(ToolEvent);
      if exit.Running? { ReceiveResult(x, valid, env.invoke(tool, valid, x.action, store.ledger)); }
    }

    static lemma Granted(env: Env, d: Disk, tool: Tool, params: Params, adaptive: bool)
      requires Refusal(env, d, tool, params, adaptive).None?
      ensures env.schema(tool, params).Some? && Resolve(env.specs, tool).Some?
    {
    }

    // ---- roles ----

    method Traffic(log: seq<Tele>)
      requires Valid()
      modifies this
      ensures Valid() && run == Tell(old(run), log)
    {
      hide Extends, Save, Emit;
      var i := 0;
      while i < |log|
        invariant 0 <= i <= |log| && Valid() && Tell(run, log[i..]) == Tell(old(run), log)
      {
        assert log[i..][0] == log[i] && log[i..][1..] == log[i + 1..];
        match log[i] {
          case Started =>
            if state.modelCalls < state.limits.modelCalls {
              Replace(state.(modelCalls := state.modelCalls + 1));
              EmitEvent(AgentEvent);
            }
          case Recorded => EmitEvent(InferenceEvent);
          case Retried(kind) =>
            if state.retries < state.limits.retries {
              Replace(state.(retries := state.retries + 1, failures := state.failures + [kind]));
              EmitEvent(AgentEvent);
            }
          case Noted => EmitEvent(AgentEvent);
        }
        i := i + 1;
      }
    }

    /** `_recover_role_checkpoints`. */
    method RecoverRoleCheckpoints()
      requires Valid()
      modifies this
      ensures Valid() && run == RecoverCheckpoints(old(run))
      ensures Sane(env, old(run)) ==> Beside(env, old(run), run) && Synced(store)
    {
      hide Good, Inv, Grows, Extends, Known;
      if Sane(env, run) { RecoverBeside(env, run); }
      var merged, i := state.checkpoints, 0;
      while i < |store.decisions|
        invariant 0 <= i <= |store.decisions| && Valid() && run == old(run)
        invariant Merged(merged, store.decisions[i..]) == Merged(state.checkpoints, store.decisions)
      {
        var d := store.decisions[i];
        assert store.decisions[i..][0] == d && store.decisions[i..][1..] == store.decisions[i + 1..];
        if !Known(merged, d.role, d.phase, d.context) { merged := merged + [d]; }
        i := i + 1;
      }
      if merged != state.checkpoints { Replace(state.(checkpoints := merged)); }
    }

    method SaveCheckpoint(c: Checkpoint)
      requires Valid()
      modifies this
      ensures Valid() && run == Checkpointed(old(run), c)
    {
      AppendRoleRecord(c);
      Replace(state.(checkpoints := state.checkpoints + [c]));
    }

    method PersistOptionalRole(role: Role, phase: Phase, result: RoleResult)
      requires Valid()
      modifies this
      ensures Valid() && run == PersistOptional(old(run), role, phase, result)
    {
      hide Extends, Checkpointed, EmitAll, RecoverCheckpoints;
      RecoverRoleCheckpoints();
      if RoleDone(state, role, phase) { return; }
      SaveCheckpoint(Checkpoint(role, phase, state.context, if result.Spoke? then result.decision else "skip",
                                result.Spoke?));
      EmitEvents(if result.Spoke? then [AgentEvent, AgentEvent, AgentEvent] else [AgentEvent, AgentEvent]);
    }

    method PersistRequiredRole(role: Role, phase: Phase, decision: string)
      requires Valid()
      modifies this
      ensures Valid() && run == PersistRequired(old(run), role, phase, decision)
    {
      hide Extends, Checkpointed, EmitAll;
      if RoleDone(state, role, phase) { return; }
      SaveCheckpoint(Checkpoint(role, phase, state.context, decision, true));
      EmitEvents(RequiredEvents(role));
    }

    method AskOptionalRole(role: Role, phase: Phase, log: seq<Tele>, result: RoleResult)
      requires Valid()
      modifies this
      ensures Valid() && run == OptionalRole(old(run), role, phase, log, result)
    {
      hide Extends, PersistOptional, Emit, Tell;
      if RoleDone(state, role, phase) { return; }
      EmitEvent(AgentEvent);
      Traffic(log);
      PersistOptionalRole(role, phase, result);
    }

    // ---- the director ----

    /** `begin_cycle`. */
    method BeginCycle()
      requires Valid()
      modifies this
      ensures Valid() && run == Begin(old(run))
    {
      hide Extends, Save, Emit, RequiresBegin;
      if Stopped(state.status) || !RequiresBegin(store) { return; }
      if state.limits.steps <= state.step { Throw(Aborted(OutOfBudget, BudgetExhausted, None)); return; }
      Replace(state.(step := state.step + 1));
      EmitEvent(BudgetUpdated);
    }

    method FreshCycleRoute() returns (route: Option<Route>)
      requires Valid()
      modifies this
      ensures Valid() && Step(run, route) == FreshCycle(env, old(run))
    {
      hide Extends, Save;
      var s := state;
      match FreshRouteOf(env, s) {
        case FreshMandatory => route := Some(RunMandatory);
        case FreshTerminate => route := Some(Route.Terminate);
        case FreshFinalize => route := Some(Finalize);
        case FreshSkeptic =>
          Replace(Selecting(env, s));
          if env.multiAgent
              && !(RoleDone(s, Observer, Briefing) && RoleDone(s, Signal, Briefing)
                  && RoleDone(s, TransitHunter, Briefing)) {
            route := Some(RunSpecialists);
          } else if env.multiAgent && !RoleDone(s, Director, Briefing) {
            route := Some(CallDirectorBriefing);
          } else {
            route := Some(CallSkeptic);
          }
      }
    }

    /** `determine_route`. */
    method ChooseRoute() returns (route: Option<Route>)
      requires Valid()
      modifies this
      ensures Valid() && Step(run, route) == DetermineRoute(env, old(run))
    {
      hide Extends, RecoverCheckpoints, Begin, FreshCycle, LifecycleRoute, HasPrepared, PendingEvaluation,
        CurrentSkeptic;
      RecoverRoleCheckpoints();
      if state.status.Finalizing? { return Some(Finalize); }
      var prepared, pending := HasPrepared(state), PendingEvaluation(store);
      if !prepared && !pending { BeginCycle(); }
      if Stopped(state.status) || prepared || pending || CurrentSkeptic(state).Some? {
        return LifecycleRoute(state, prepared, pending);
      }
      if state.status.WaitingForCritic? || state.status.RunningTool? {
        Throw(Aborted(ToolInfrastructureFailure, Failed, None));
        return None;
      }
      BeginCycle();
      route := FreshCycleRoute();
    }

    method TakeRoute() returns (route: Option<Route>)
      requires Valid()
      modifies this
      ensures Valid() && Step(run, route) == DirectorRoute(env, old(run))
      ensures Sane(env, old(run)) && !old(state.status).RunningTool? ==>
        Good(env, run) && !exit.Faulted? && (exit.Running? ==> Routed(env, old(store), Step(run, route)))
    {
      hide Good, Inv, Grows, Extends, DetermineRoute, Emit;
      if Sane(env, run) && !state.status.RunningTool? { RouteGood(env, run); }
      route := ChooseRoute();
      if route != Some(NoopTerminal) { EmitEvent(RouteTaken); }
    }

    // ---- the working nodes ----

    method RunMandatoryCycle()
      requires Valid()
      modifies this
      ensures Valid() && run == Mandatory(env, old(run))
      ensures Sane(env, old(run)) && Reached(env, MandatoryNode, old(store)) && Registered(env) ==>
        Good(env, run) && !exit.Faulted? && AtMostOne(old(store), store)
          && (exit.Running? ==> Reached(env, EvaluateNode, store))
    {
      hide Good, Inv, Grows, Extends, FirstRunnable, Save, Execute, TerminateRun, Missing;
      if Sane(env, run) && Reached(env, MandatoryNode, store) && Registered(env) { MandatoryGood(env, run); }
      var found := FirstRunnable(env.specs, Missing(state), CompletedSet(state));
      if found.None? { Terminate(NotEnoughEvidence, InsufficientEvidence, None); return; }
      Replace(state.(status := VettingMandatory));
      if exit.Running? { ExecuteAction(found.value.tool, NO_PARAMS, false); }
    }

    method RunSpecialistBriefing(o: Oracle)
      requires Valid()
      modifies this
      ensures Valid() && run == Specialists(env, old(run), o)
      ensures Sane(env, old(run)) && !Stopped(old(state.status)) ==>
        Beside(env, old(run), run) && Heard(store.decisions, old(state.context))
          && store.decisions
             == WithRole(Briefed(old(store), o), old(state.context), TransitHunter, Briefing, o.hunter)
    {
      hide Good, Inv, Grows, Extends, RecoverCheckpoints, EmitAll, Tell, PersistOptional, OptionalRole, RoleDone;
      if Sane(env, run) && !Stopped(state.status) { SpecialistsBeside(env, run, o); }
      RecoverRoleCheckpoints();
      var observer, signal := RoleDone(state, Observer, Briefing), RoleDone(state, Signal, Briefing);
      EmitEvents((if observer then [] else [AgentEvent]) + (if signal then [] else [AgentEvent]));
      if !(observer && signal) { Traffic(o.specialistLog); }
      if !observer { PersistOptionalRole(Observer, Briefing, o.observer); }
      if !signal { PersistOptionalRole(Signal, Briefing, o.signal); }
      RecoverRoleCheckpoints();
      AskOptionalRole(TransitHunter, Briefing, o.hunterLog, o.hunter);
    }

    method RunDirectorBriefing(o: Oracle)
      requires Valid()
      modifies this
      ensures Valid() && run == DirectorBriefing(env, old(run), o)
      ensures Sane(env, old(run)) && !Stopped(old(state.status)) ==>
        Beside(env, old(run), run) && Known(store.decisions, Director, Briefing, old(state.context))
          && store.decisions == WithRole(old(store.decisions), old(state.context), Director, Briefing, o.brief)
    {
      hide Good, Inv, Grows, Extends, RecoverCheckpoints, OptionalRole;
      if Sane(env, run) && !Stopped(state.status) { BriefingBeside(env, run, o); }
      RecoverRoleCheckpoints();
      AskOptionalRole(Director, Briefing, o.briefLog, o.brief);
    }

    /** Node `skeptic_decision`. */
    method DecideSkeptic(o: Oracle)
      requires Valid()
      modifies this
      ensures Valid() && run == SkepticNode(env, old(run), o)
      ensures Sane(env, old(run)) && Reached(env, ProposeNode, old(store)) ==>
        Good(env, run) && !exit.Faulted?
          && (exit.Running? ==> Reached(env, ReviewNode, store) && state.status.WaitingForCritic?)
          && ProposedAs(env, old(store), run, o.skeptic)
    {
      hide Good, Inv, Grows, Extends, Save, Tell, PersistRequired, Emit, JudgeSkeptic, CurrentSkeptic;
      if Sane(env, run) && Reached(env, ProposeNode, store) { SkepticGood(env, run, o); }
      if CurrentSkeptic(state).Some? {
        if state.status.SelectingAdaptive? { Replace(state.(status := WaitingForCritic)); }
        return;
      }
      Replace(Selecting(env, state));
      Traffic(o.skepticLog);
      match o.skeptic {
        case GaveUp(kind, status) => Throw(Aborted(kind, if status.BudgetExhausted? then status else Failed, None));
        case Accepted(k) =>
          if !JudgeSkeptic(env, state, k, state.available).Accept? {
            Throw(Aborted(InvalidModelOutput, Failed, None));
            return;
          }
          Replace(state.(accepted := state.accepted + [k]));
          PersistRequiredRole(SkepticRole, Decision, k.id);
          EmitEvent(AgentEvent);
          Replace(state.(status := WaitingForCritic));
      }
    }

    /** Node `critic_review`. */
    method ReviewProposal(o: Oracle)
      requires Valid()
      modifies this
      ensures Valid() && run == CriticNode(env, old(run), o)
      ensures Sane(env, old(run)) && Reached(env, ReviewNode, old(store)) ==>
        Good(env, run) && !exit.Faulted? && (exit.Running? ==> Reached(env, VerdictNode, store))
          && ReviewedAs(env, old(store), run, o.critic)
    {
      hide Good, Inv, Grows, Extends, Save, Tell, PersistRequired, Emit, JudgeCritic, CurrentSkeptic, CurrentCritic;
      if Sane(env, run) && Reached(env, ReviewNode, store) { CriticGood(env, run, o); }
      var proposal := CurrentSkeptic(state);
      if proposal.None? { Throw(Aborted(ToolInfrastructureFailure, Failed, None)); return; }
      if CurrentCritic(state).Some? { return; }
      Traffic(o.criticLog);
      match o.critic {
        case GaveUp(kind, status) => Throw(Aborted(kind, if status.BudgetExhausted? then status else Failed, None));
        case Accepted(c) =>
          var j := JudgeCritic(env, state, proposal.value, c, state.available);
          if j.OverBudget? { Throw(Aborted(OutOfBudget, BudgetExhausted, None)); return; }
          if j.Reject? { Throw(Aborted(InvalidModelOutput, Failed, None)); return; }
          Replace(state.(critics := state.critics + [c]));
          PersistRequiredRole(CriticRole, Review, c.id);
          EmitEvent(AgentEvent);
      }
    }

    /** Node `critic_route`. */
    method ResolveCriticVerdict() returns (route: Option<Route>)
      requires Valid()
      modifies this
      ensures Valid() && Step(run, route) == CriticRoute(old(run))
      ensures Sane(env, old(run)) && Reached(env, VerdictNode, old(store)) ==>
        Sane(env, run) && (route == Some(Finalize) || route == Some(ExecuteApproved))
        && Reached(env, if route == Some(Finalize) then FinalNode else AdaptiveNode, store)
    {
      hide Good, Inv, Grows, Extends, Save, Emit, CurrentSkeptic, Revisions, Chosen, ReviewOf;
      if Sane(env, run) && Reached(env, VerdictNode, store) { VerdictGood(env, run); }
      var review := CurrentCritic(state);
      if review.None? {
        Throw(Aborted(ToolInfrastructureFailure, Failed, None));
        route := None;
      } else {
        var c := review.value;
        route := Some(if c.verdict.Veto? || Chosen(CurrentSkeptic(state).value, c).0.Stop? then Finalize
                      else ExecuteApproved);
        if c.verdict.Revise? {
          var n := Revisions(state.critics);
          if state.limits.revisions <= n - 1 { Throw(Aborted(OutOfBudget, BudgetExhausted, None)); route := None; }
          else if state.revisions < n { Replace(state.(revisions := n)); }
          else if n < state.revisions { Throw(Aborted(ToolInfrastructureFailure, Failed, None)); route := None; }
        }
      }
      EmitEvent(RouteTaken);
    }

    /** Node `execute_adaptive`. */
    method ExecuteApprovedExperiment()
      requires Valid()
      modifies this
      ensures Valid() && run == ExecuteAdaptive(env, old(run))
      ensures Sane(env, old(run)) && Reached(env, AdaptiveNode, old(store)) && Registered(env) ==>
        Good(env, run) && AtMostOne(old(store), store) && (exit.Running? ==> Performed(old(store), store))
        && (exit.Faulted? ==> Stranded(old(state)) && store == old(store))
    {
      hide Good, Inv, Grows, Extends, Execute, CurrentSkeptic, ReviewOf;
      if Sane(env, run) && Reached(env, AdaptiveNode, store) && Registered(env) { AdaptiveGood(env, run); }
      var review := CurrentCritic(state);
      if review.None? { Throw(Aborted(ToolInfrastructureFailure, Failed, None)); return; }
      var (action, params) := Chosen(CurrentSkeptic(state).value, review.value);
      if review.value.verdict.Veto? || action.Stop? { Throw(Aborted(ToolInfrastructureFailure, Failed, None)); return; }
      ExecuteAction(action.tool, params, true);
    }

    method PrepareToFinalize(reason: Reason)
      requires Valid()
      modifies this
      ensures Valid() && run == PrepareFinalization(old(run), reason)
    {
      hide Extends, Save, Emit;
      Replace(state.(status := Finalizing, pendingFinal := Some(reason)));
      EmitEvent(StatusChanged);
    }

    /** `_after_result`. */
    method ApplyResult(x: Option<Execution>, result: ToolResult)
      requires Valid()
      modifies this
      ensures Valid() && run == AfterResult(env, old(run), x, result)
    {
      hide Extends, Save, Emit, TerminateRun, PrepareFinalization, Available, Missing, Codes, Decisive, BudgetReason;
      var adaptive := x.Some? && x.value.adaptive;
      var status := result.status;
      if status.ToolFailed? {
        Terminate(ToolInfrastructureFailure, Failed, Some(result.action));
      } else if status.NotImplemented? {
        Terminate(NotEnoughEvidence, InsufficientEvidence, None);
      } else if status.PreconditionFailed? {
        if !adaptive {
          Terminate(PreconditionUnmet, InsufficientEvidence, None);
        } else if Available(env, state) != [] {
          Replace(state.(status := SelectingAdaptive, failures := state.failures + [PreconditionUnmet]));
          EmitEvent(StatusChanged);
        } else {
          Replace(state.(failures := state.failures + [PreconditionUnmet]));
          PrepareToFinalize(ReplanExhausted(result.tool));
        }
      } else {
        if Missing(state) != {} { Replace(state.(status := VettingMandatory)); return; }
        var decisive := Decisive(Codes(store.ledger));
        if decisive.Some? { PrepareToFinalize(DeterministicEvidence(decisive.value)); return; }
        if adaptive {
          var budget := BudgetReason(state);
          if budget.Some? { PrepareToFinalize(budget.value); return; }
          if Available(env, state) == [] { PrepareToFinalize(NoAvailableAction); return; }
        } else if !status.Success? && state.limits.adaptive <= state.adaptiveUsed {
          PrepareToFinalize(ScientificOutcome(status));
          return;
        }
        Replace(state.(status := SelectingAdaptive));
      }
    }

    /** Node `evaluate_result`. */
    method EvaluateCycleResult() returns (route: Option<Route>)
      requires Valid()
      modifies this
      ensures Valid() && Step(run, route) == Evaluate(env, old(run))
      ensures Sane(env, old(run)) && old(state.status).UpdatingEvidence? ==>
        Sane(env, run) && Evaluated(old(store), store)
        && route == Some(if state.status.Finalizing? then Finalize else NoopTerminal)
    {
      hide Good, Inv, Grows, Extends, AfterResult, LatestResulted, RecordById, FindExecution;
      if Sane(env, run) && state.status.UpdatingEvidence? { EvaluateGood(env, run); }
      if Stopped(state.status) { return None; }
      if !state.status.UpdatingEvidence? { Throw(Aborted(ToolInfrastructureFailure, Failed, None)); return None; }
      var latest := LatestResulted(state.executions, state.step);
      if latest.None? { Throw(Aborted(ToolInfrastructureFailure, Failed, None)); return None; }
      var record := RecordById(store.ledger, latest.value.evidence.value);
      if record.None? { Throw(Broken(latest.value.action)); return None; }
      ApplyResult(FindExecution(state.executions, record.value.result.action), record.value.result);
      route := Some(if state.status.Finalizing? then Finalize else NoopTerminal);
    }

    /** Node `finalize`. */
    method FinalizeCycle(o: Oracle)
      requires Valid()
      modifies this
      ensures Valid() && run == FinalizeNode(env, old(run), o)
      ensures Sane(env, old(run)) && Reached(env, FinalNode, old(store)) ==>
        Sane(env, run) && store.ledger == old(store.ledger)
          && (state.status.ReadyToLock? || state.status.InsufficientEvidence?)
          && ConcludedAs(env, old(store), store)
          && (env.multiAgent ==>
                store.decisions == WithRole(old(store.decisions), old(state.context), Director, Final, o.final))
    {
      hide Good, Inv, Grows, Extends, FinalReason, OptionalRole, Save, EmitAll, TerminateRun, Missing, Codes,
        DispositionOf;
      if Sane(env, run) && Reached(env, FinalNode, store) { FinalGood(env, run, o); }
      var reason := FinalReason(env, state);
      if reason.None? { Throw(Aborted(ToolInfrastructureFailure, Failed, None)); return; }
      if env.multiAgent { AskOptionalRole(Director, Final, o.finalLog, o.final); }
      var disposition := DispositionOf(Codes(store.ledger), state.candidates != []);
      if Missing(state) != {} || disposition.None? { Terminate(NotEnoughEvidence, InsufficientEvidence, None); return; }
      Replace(state.(status := ReadyToLock, disposition := disposition, pendingFinal := None,
          terminalReason := Some(reason.value)));
      EmitEvents([InferenceEvent, StatusChanged]);
    }

    // ---- the graph ----

    method PerformNode(n: Node, o: Oracle) returns (route: Option<Route>)
      requires Valid()
      modifies this
      ensures Valid() && Step(run, route) == Perform(env, n, old(run), o)
    {
      hide Extends, Recover, DirectorRoute, Mandatory, Specialists, DirectorBriefing, SkepticNode, CriticNode,
        CriticRoute, ExecuteAdaptive, Evaluate, FinalizeNode, TerminateRun;
      route := None;
      match n {
        case RecoverNode => RecoverPrepared();
        case RouteNode => route := TakeRoute();
        case MandatoryNode => RunMandatoryCycle();
        case SpecialistNode => RunSpecialistBriefing(o);
        case BriefingNode => RunDirectorBriefing(o);
        case ProposeNode => DecideSkeptic(o);
        case ReviewNode => ReviewProposal(o);
        case VerdictNode => route := ResolveCriticVerdict();
        case AdaptiveNode => ExecuteApprovedExperiment();
        case EvaluateNode => route := EvaluateCycleResult();
        case FinalNode => FinalizeCycle(o);
        case TerminalNode => Terminate(NotEnoughEvidence, InsufficientEvidence, None);
        case End =>
      }
    }

    /** Walk the graph until it ends, an exception escapes, or the limit is hit. */
    method InvokeGraph(o: Oracle)
      requires Valid()
      modifies this
      ensures Valid() && run == Walk(env, RecoverNode, old(run), None, o, RECURSION_LIMIT)
      ensures Inv(env, old(store)) && Registered(env) && old(run) == Start(old(store)) ==>
        GraphMeets(env, old(store), run, o)
    {
      hide Extends, Perform, Next, Good, Inv, GraphMeets;
      if Inv(env, store) && Registered(env) && run == Start(store) { GraphIsSafe(env, store, o); }
      var n, route: Option<Route>, steps := RecoverNode, None, 0;
      while !n.End? && exit.Running?
        invariant 0 <= steps <= RECURSION_LIMIT && Valid()
        invariant Walk(env, n, run, route, o, RECURSION_LIMIT - steps)
                  == Walk(env, RecoverNode, old(run), None, o, RECURSION_LIMIT)
        decreases RECURSION_LIMIT - steps, if exit.Running? then 1 else 0
      {
        if steps == RECURSION_LIMIT { Throw(Faulted(StepLimit)); return; }
        var chosen := PerformNode(n, o);
        if chosen.Some? { route := chosen; }
        if !exit.Running? { return; }
        var next := Next(n, route);
        if next.None? { Throw(Faulted(NoRoute)); return; }
        n, steps := next.value, steps + 1;
      }
    }

    /** The process was stopped after some writes of an advance that it had begun. */
    method Interrupted(o: Oracle, writes: nat)
      requires Valid()
      modifies this
      ensures Valid() && store == Cut(Advance(env, old(store), o), writes) && run == Start(store)
    {
      store := Cut(Advance(env, store, o), writes);
      Restart();
    }

    /** `advance`. Memory mirrors the store, so that loading it changes nothing. */
    method AdvanceOnce(o: Oracle)
      requires Valid()
      modifies this
      ensures Valid() && run == Advance(env, old(store), o)
      ensures Inv(env, old(store)) && Registered(env) ==> AdvanceMeets(env, old(store), run, o) && Inv(env, store)
    {
      hide Good, Inv, Grows, Extends, Walk, TerminateRun, Catch;
      if Inv(env, store) && Registered(env) { AdvanceSafe(env, store, o); NowGood(env, Advance(env, store, o)); }
      Restart();
      InvokeGraph(o);
      CatchAbort();
    }

    method CatchAbort()
      requires Valid()
      modifies this
      ensures Valid() && run == Catch(old(run))
    {
      hide Extends, TerminateRun;
      if exit.Aborted? {
        var e := exit;
        exit := Running;
        run := run.(exit := Running);
        Terminate(e.kind, e.status, e.action);
      }
    }

    /** `fail_run`. */
    method FailDurableRun()
      requires Valid()
      modifies this
      ensures Valid() && run == FailRun(old(run))
      ensures Sane(env, old(run)) ==>
        Sane(env, run) && Stopped(state.status)
        && (!Stopped(old(state.status)) ==>
              && EndedIn(old(store), store, Failed)
              && Explained(old(store), store, ToolInfrastructureFailure, Unfinished(old(state))))
    {
      hide Good, Inv, Grows, Extends, TerminateRun;
      if Sane(env, run) { FailRunGood(env, run); }
      if Stopped(state.status) { return; }
      Terminate(ToolInfrastructureFailure, Failed, PreparedAction(state.executions));
    }
  }
}
