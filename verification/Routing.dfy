/** The Director's node: where a cycle goes, and what it may rely on there. */
module Routing {
  import opened Domain
  import opened Store
  import opened Policy
  import opened Nodes
  import opened Invariant
  import opened Rules
  import opened Steps
  import opened Writes
  import opened Committing
  import opened Recovery

  /** A new experiment is to be chosen in this step. */
  predicate Choosing(env: Env, s: State, charged: bool) {
    && s.status.SelectingAdaptive? && CurrentSkeptic(s).None? && charged && Missing(s) == {}
    && s.available == Available(env, s) && BudgetReason(s).None?
  }

  predicate ForExecution(s: State) {
    && (s.status.SelectingAdaptive? || s.status.WaitingForCritic?) && Decided(s)
    && !CurrentCritic(s).value.verdict.Veto? && Chosen(CurrentSkeptic(s).value, CurrentCritic(s).value).0.Use?
  }

  /** What each node may rely on when the graph reaches it. */
  predicate Reached(env: Env, n: Node, d: Disk) {
    var s := d.state;
    match n
    case RecoverNode => true
    case RouteNode => !s.status.RunningTool?
    case MandatoryNode => (s.status.Initialized? || s.status.VettingMandatory?) && Missing(s) != {} && Charged(d)
    case SpecialistNode => Choosing(env, s, Fresh(d))
    case BriefingNode => Choosing(env, s, Fresh(d)) && (env.multiAgent ==> Heard(d.decisions, s.context))
    case ProposeNode => Choosing(env, s, Fresh(d)) && (env.multiAgent ==> BriefedFor(d.decisions, s.context))
    case ReviewNode => Open(s)
    case VerdictNode => Open(s) && CurrentCritic(s).Some?
    case AdaptiveNode => ForExecution(s) && Charged(d)
    case EvaluateNode => s.status.UpdatingEvidence? || Stopped(s.status)
    case FinalNode => ForFinal(env, s)
    case TerminalNode => s.status.SelectingAdaptive? && CurrentSkeptic(s).None?
    case End => Stopped(s.status)
  }

  /** The cycle has to charge a step and none is left. */
  predicate OutOfSteps(d: Disk) {
    (d.state.status.Initialized? || d.state.status.VettingMandatory? || d.state.status.SelectingAdaptive?)
      && RequiresBegin(d)
      && d.state.limits.steps <= d.state.step
  }

  // ---- charging a step ----

  /** `q` is `d` with one more step charged. */
  predicate ChargedNext(d: Disk, q: Disk) {
    && q.state == d.state.(step := d.state.step + 1) && q.ledger == d.ledger && q.decisions == d.decisions
    && Fresh(q) && LatestBoundary(q.trace, q.state.step) == 0 && CurrentSkeptic(q.state).None?
  }

  lemma NothingAhead(env: Env, d: Disk)
    requires Inv(env, d)
    ensures LatestBudget(d.trace, d.state.step + 1) == 0 && LatestBoundary(d.trace, d.state.step + 1) == 0
  {
    hide Ledger, Roles, Proposal, Working, Account, AllAllowed, Reasons, Verdicts, Authority, Budgets, Executions,
      ValidSnapshot, Spent, LatestBudget, LatestBoundary;
    FutureStep(d.trace, d.state.step + 1);
  }

  /** The end of a cycle for which no step is left. */
  function Exhausted(): Exit { Aborted(OutOfBudget, BudgetExhausted, None) }

  lemma BeginGood(env: Env, r: Run)
    requires Good(env, r) && r.exit.Running? && !r.now.state.status.RunningTool? && !PendingEvaluation(r.now)
    ensures var q := Begin(r);
      && Good(env, q) && !q.exit.Faulted?
      && (Stopped(r.now.state.status) || !RequiresBegin(r.now) ==> q == r)
      && (!Stopped(r.now.state.status) && RequiresBegin(r.now) && q.exit.Running? ==>
            ChargedNext(r.now, q.now) && !r.now.state.status.UpdatingEvidence?)
      && (q.exit.Aborted? ==> q.now == r.now && q.exit == Exhausted())
      && (q.exit.Aborted? <==>
          !Stopped(r.now.state.status) && RequiresBegin(r.now) && r.now.state.limits.steps <= r.now.state.step)
  {
    hide Inv, Grows, Good, LatestBudget, LatestBoundary, RequiresBegin, PendingEvaluation, CurrentSkeptic;
    NowGood(env, r);
    var s := r.now.state;
    if !Stopped(s.status) && RequiresBegin(r.now) {
      if s.limits.steps <= s.step {
        RaiseGood(env, r, Aborted(OutOfBudget, BudgetExhausted, None));
      } else {
        var s1 := s.(step := s.step + 1);
        ChargeKeeps(env, r.now);
        NothingAhead(env, r.now);
        SaveGood(env, r, s1);
        var r1 := Save(r, s1);
        NowGood(env, r1);
        BudgetEventKeeps(env, r1.now);
        PushGood(env, r1, WithEvent(r1.now, BudgetUpdated));
        TraceQueries(r1.now.trace, Event(|r1.now.trace| + 1, r1.now.state.step, BudgetUpdated), r1.now.state.step);
      }
    }
  }

  /** An open proposal is never charged again: its step is fresh. */
  lemma OpenIsFresh(env: Env, d: Disk)
    requires Inv(env, d) && Open(d.state)
    ensures Fresh(d) && Charged(d) && !RequiresBegin(d)
  {
    hide Ledger, Roles, Working, AllAllowed, Reasons, Verdicts, Authority, Budgets, Executions, ValidSnapshot, Spent,
      LatestBudget, LatestBoundary, Account, Truthful, Approvable, ProposalOf, ReviewOf, Offer;
  }

  lemma PendingIs(env: Env, d: Disk)
    requires Inv(env, d)
    ensures PendingEvaluation(d) <==> d.state.status.UpdatingEvidence?
  {
    hide Ledger, Roles, Account, AllAllowed, Reasons, Verdicts, Authority, Budgets, Executions, ValidSnapshot, Spent,
      Proposal, LatestBudget, LatestBoundary, ProposalOf, ReviewOf;
    if d.state.status.UpdatingEvidence? { ChargedPending(d); }
  }

  // ---- where the route leads ----

  /** The proposal has no review, or a revision that was not counted yet. */
  predicate Unresolved(s: State) {
    CurrentCritic(s).None? || (CurrentCritic(s).value.verdict.Revise? && s.revisions != Revisions(s.critics))
  }

  /** Where a step with a proposal goes: to its review, to the end that a veto or
      a request to stop means, or to its execution. */
  ghost predicate RoutesReviewed(s: State, route: Option<Route>) {
    var ends := Vetoed(s) || exists params :: Wanted(s, Stop, params);
    && (route == Some(ResumeCritic) <==> Unresolved(s))
    && (route == Some(Finalize) <==> !Unresolved(s) && ends)
    && (route == Some(ExecuteApproved) <==> !Unresolved(s) && !ends)
  }

  lemma LifecycleMeans(s: State)
    requires !Stopped(s.status) && CurrentSkeptic(s).Some?
    ensures RoutesReviewed(s, LifecycleRoute(s, false, false))
  {
    hide ProposalOf, ReviewOf, Revisions;
    if CurrentCritic(s).Some? {
      var k, c := CurrentSkeptic(s).value, CurrentCritic(s).value;
      var params := if c.verdict.Revise? then c.params else k.params;
      assert Chosen(k, c).0.Stop? ==> Wanted(s, Stop, params);
    }
  }

  lemma LifecycleLeads(env: Env, d: Disk)
    requires Inv(env, d) && !Stopped(d.state.status) && CurrentSkeptic(d.state).Some?
    requires d.state.status.SelectingAdaptive? || d.state.status.WaitingForCritic?
    requires Charged(d)
    ensures var route := LifecycleRoute(d.state, false, false);
      (route == Some(ResumeCritic) && Reached(env, ReviewNode, d))
        || (route == Some(Finalize) && Reached(env, FinalNode, d))
      || (route == Some(ExecuteApproved) && Reached(env, AdaptiveNode, d))
  {
    hide Ledger, Roles, AllAllowed, Reasons, Verdicts, Authority, Budgets, Executions, ValidSnapshot, Proposal,
      LatestBudget, LatestBoundary, ProposalOf, ReviewOf, Revisions, Account, Truthful, Approvable, NoAdaptive,
      Missing, Proposed, Reviewed;
  }

  /** A proposal of this step leads to its review, its execution or its end. */
  lemma LifecycleReached(env: Env, d: Disk)
    requires Inv(env, d) && !Stopped(d.state.status) && CurrentSkeptic(d.state).Some?
    requires d.state.status.SelectingAdaptive? || d.state.status.WaitingForCritic?
    requires Charged(d)
    ensures var route := LifecycleRoute(d.state, false, false);
      (route == Some(ResumeCritic) && Reached(env, ReviewNode, d))
        || (route == Some(Finalize) && Reached(env, FinalNode, d))
      || (route == Some(ExecuteApproved) && Reached(env, AdaptiveNode, d))
    ensures RoutesReviewed(d.state, LifecycleRoute(d.state, false, false))
  {
    hide Inv, LifecycleRoute, Reached, RoutesReviewed, Charged, CurrentSkeptic, Stopped;
    LifecycleLeads(env, d);
    LifecycleMeans(d.state);
  }

  lemma Unproposed(env: Env, d: Disk)
    requires Inv(env, d) && !Stopped(d.state.status) && Missing(d.state) != {}
    ensures CurrentSkeptic(d.state).None? && !Open(d.state) && Revisions(d.state.critics) == d.state.revisions
  {
    hide Ledger, Roles, Account, AllAllowed, Reasons, Verdicts, Authority, Budgets, Executions, ValidSnapshot,
      Proposal, LatestBudget, LatestBoundary, ReviewOf, Revisions, NoAdaptive, Missing, Proposed, Reviewed;
  }

  lemma WorkingStatus(env: Env, d: Disk)
    requires Inv(env, d) && !Stopped(d.state.status)
    ensures || d.state.status.Initialized? || d.state.status.VettingMandatory? || d.state.status.SelectingAdaptive?
            || d.state.status.WaitingForCritic? || d.state.status.RunningTool? || d.state.status.UpdatingEvidence?
            || d.state.status.Finalizing?
    ensures d.state.status.Initialized? || d.state.status.VettingMandatory? ==> Missing(d.state) != {}
    ensures d.state.status.SelectingAdaptive? || d.state.status.WaitingForCritic? || d.state.status.Finalizing? ==>
      Missing(d.state) == {}
    ensures d.state.status.WaitingForCritic? ==> Open(d.state)
    ensures d.state.status.WaitingForCritic? || d.state.status.RunningTool? ==> Charged(d)
    ensures d.state.status.UpdatingEvidence? || d.state.status.Finalizing? ==> Charged(d)
  {
    hide Ledger, Roles, Account, AllAllowed, Reasons, Verdicts, Authority, Budgets, Executions, ValidSnapshot,
      Proposal, LatestBudget, LatestBoundary, ReviewOf, ProposalOf, Revisions, NoAdaptive, Missing, Proposed,
      Reviewed;
  }

  predicate RoutedTo(env: Env, step: Step) {
    step.route.Some? && Next(RouteNode, step.route).Some? && step.route.value != RecoverPrepared
      && Reached(env, Next(RouteNode, step.route).value, step.r.now)
  }

  lemma {:induction false} LatestEvents(trace: seq<Event>, step: nat)
    requires forall i :: 0 <= i < |trace| ==> trace[i].sequence == i + 1
    ensures var m := LatestBudget(trace, step); m > 0 ==> m <= |trace| && trace[m - 1].kind.BudgetUpdated?
    ensures var m := LatestBoundary(trace, step); m > 0 ==> m <= |trace| && Boundary(trace[m - 1].kind)
  {
    if trace != [] {
      LatestEvents(trace[..|trace| - 1], step);
      QueriesBounded(trace[..|trace| - 1], step);
    }
  }

  /** A charge and an announcement are different events. */
  lemma ChargedIsFresh(env: Env, d: Disk)
    requires Inv(env, d) && !RequiresBegin(d)
    requires d.state.status.Initialized? || d.state.status.VettingMandatory? || d.state.status.SelectingAdaptive?
    ensures Fresh(d) && Charged(d)
  {
    hide Ledger, Roles, Proposal, Working, Account, AllAllowed, Reasons, Verdicts, Authority, Budgets, Executions,
      ValidSnapshot, Spent, LatestBudget, LatestBoundary;
    LatestEvents(d.trace, d.state.step);
  }

  /** An experiment can be chosen: there is a candidate, means, and an offer. */
  predicate MayPropose(env: Env, s: State) {
    && Missing(s) == {} && s.candidates != [] && s.adaptiveUsed < s.limits.adaptive && s.costLeft != 0
    && Available(env, s) != []
  }

  /** Where a step without a proposal goes, by the tests, the candidate, the
      means, and the role records `cs`: who has not been heard is asked first. */
  predicate RoutesFresh(env: Env, s: State, cs: seq<Checkpoint>, route: Option<Route>) {
    && (route == Some(RunMandatory) <==> Missing(s) != {})
    && (route == Some(Terminate) <==> Missing(s) == {} && s.candidates == [])
    && (route == Some(Finalize) <==> Missing(s) == {} && s.candidates != [] && !MayPropose(env, s))
    && (route == Some(RunSpecialists) <==> MayPropose(env, s) && env.multiAgent && !Heard(cs, s.context))
    && (route == Some(CallDirectorBriefing) <==>
          MayPropose(env, s) && env.multiAgent && Heard(cs, s.context) && !Known(cs, Director, Briefing, s.context))
    && (route == Some(CallSkeptic) <==> MayPropose(env, s) && (env.multiAgent ==> BriefedFor(cs, s.context)))
  }

  /** A step without a proposal goes to a mandatory test, a choice, or an end. */
  lemma FreshReached(env: Env, r: Run)
    requires Good(env, r) && r.exit.Running? && !Stopped(r.now.state.status) && CurrentSkeptic(r.now.state).None?
      && !RequiresBegin(r.now)
    requires r.now.state.status.Initialized? || r.now.state.status.VettingMandatory?
      || r.now.state.status.SelectingAdaptive?
    ensures var step := FreshCycle(env, r);
      && Good(env, step.r) && step.r.exit.Running? && RoutedTo(env, step) && step.r.now.trace == r.now.trace
      && step.r.now.ledger == r.now.ledger
      && step.r.now.state == r.now.state.(status := step.r.now.state.status, available := step.r.now.state.available)
      && CurrentSkeptic(step.r.now.state).None? && (step.route == Some(RunMandatory) <==>
          !r.now.state.status.SelectingAdaptive?)
      && step.route != Some(EvaluateResult)
      && step.r.now.decisions == r.now.decisions
      && RoutesFresh(env, step.r.now.state, step.r.now.state.checkpoints, step.route)
  {
    hide Inv, Good, Grows, LatestBudget, LatestBoundary, Available, BudgetReason, Missing, CurrentSkeptic, Open,
      RoutesFresh, Known;
    NowGood(env, r);
    CheckpointsAreRecords(env, r.now);
    WorkingStatus(env, r.now);
    ChargedIsFresh(env, r.now);
    var s := r.now.state;
    match FreshRouteOf(env, s)
    case FreshSkeptic =>
      SelectingKeeps(env, r.now);
      SaveGood(env, r, Selecting(env, s));
      SelectingRest(env, s);
      FreshRoutes(env, r);
    case FreshMandatory => FreshRoutes(env, r);
    case FreshFinalize => FreshRoutes(env, r);
    case FreshTerminate => FreshRoutes(env, r);
  }

  lemma FreshRoutes(env: Env, r: Run)
    requires FreshCycle(env, r).r.exit.Running?
    ensures var step := FreshCycle(env, r);
      && RoutesFresh(env, step.r.now.state, step.r.now.state.checkpoints, step.route)
      && step.r.now.decisions == r.now.decisions
  {
    hide Offer, Known, ValidSnapshot, First, Extends, MayMove;
  }

  lemma SelectingRest(env: Env, s: State)
    requires FreshRouteOf(env, s).FreshSkeptic?
    ensures CurrentSkeptic(Selecting(env, s)) == CurrentSkeptic(s) && Missing(Selecting(env, s)) == Missing(s) == {}
    ensures Selecting(env, s).available == Available(env, Selecting(env, s)) && BudgetReason(Selecting(env, s)).None?
  {
    hide ProposalOf, Offer;
  }

  /** The route node neither performs nor commits anything. */
  predicate SameWork(d: Disk, q: Disk) {
    q.ledger == d.ledger && q.state.toolCalls == d.state.toolCalls && q.state.executions == d.state.executions
      && q.state.evidenceRefs == d.state.evidenceRefs && q.state.candidates == d.state.candidates
      && q.state.limits == d.state.limits
      && q.state.completed == d.state.completed && q.state.adaptiveUsed == d.state.adaptiveUsed
      && q.state.costLeft == d.state.costLeft
  }

  /** A step is charged exactly when the newest charge has been answered. */
  predicate StepTaken(d: Disk, q: Disk) {
    if Stopped(d.state.status) || d.state.status.UpdatingEvidence? || d.state.status.Finalizing?
        || !RequiresBegin(d) then q.state.step == d.state.step
    else q.state.step == d.state.step + 1 && LatestBoundary(q.trace, q.state.step) == 0
  }

  lemma AsideRoute(env: Env, d: Disk, e: Disk)
    requires Inv(env, d) && Inv(env, e) && Aside(d, e)
    ensures SameWork(d, e) && e.state.step == d.state.step && e.state.status == d.state.status
    ensures RequiresBegin(d) <==> RequiresBegin(e)
    ensures Fresh(d) <==> Fresh(e)
    ensures Charged(d) <==> Charged(e)
    ensures CurrentSkeptic(d.state) == CurrentSkeptic(e.state) && CurrentCritic(d.state) == CurrentCritic(e.state)
    ensures Open(d.state) <==> Open(e.state)
    ensures Missing(d.state) == Missing(e.state) && Available(env, d.state) == Available(env, e.state)
      && BudgetReason(d.state) == BudgetReason(e.state)
  {
    hide Inv, LatestBudget, LatestBoundary, PendingEvaluation, ProposalOf, ReviewOf, Offer;
    PendingIs(env, d);
    PendingIs(env, e);
  }

  lemma AsideReached(env: Env, n: Node, d: Disk, e: Disk)
    requires Inv(env, d) && Inv(env, e) && Aside(d, e) && Reached(env, n, d)
    ensures Reached(env, n, e)
  {
    hide Inv, LatestBudget, LatestBoundary, RequiresBegin, CurrentSkeptic, CurrentCritic, Open, Missing, Available,
      BudgetReason, Fresh, Charged;
    AsideRoute(env, d, e);
  }

  /** A step with a proposal is not charged again. */
  predicate Kept(d: Disk, step: Step) {
    && (CurrentSkeptic(step.r.now.state).Some? ==> Aside(d, step.r.now))
    && (Open(d.state) ==> Aside(d, step.r.now))
    && (step.route == Some(EvaluateResult) ==> d.state.status.UpdatingEvidence?)
  }

  /** A step without a proposal went where the role records say. */
  predicate FreshlyRouted(env: Env, d: Disk, step: Step) {
    (d.state.status.Initialized? || d.state.status.VettingMandatory? || d.state.status.SelectingAdaptive?)
      && CurrentSkeptic(step.r.now.state).None? ==>
      RoutesFresh(env, step.r.now.state, step.r.now.decisions, step.route)
  }

  lemma SyncedRoutes(env: Env, d: Disk, step: Step)
    requires Synced(d) && Inv(env, step.r.now)
    requires step.r.now.decisions == d.decisions && step.r.now.state.checkpoints == d.state.checkpoints
    requires RoutesFresh(env, step.r.now.state, step.r.now.state.checkpoints, step.route)
    ensures RoutesFresh(env, step.r.now.state, step.r.now.decisions, step.route)
  {
    hide Inv, Known, MayPropose, Missing;
    CheckpointsAreRecords(env, step.r.now);
  }

  /** The route of a state without unfinished work. */
  lemma IdleRoute(env: Env, r0: Run)
    requires Good(env, r0) && r0.exit.Running? && !Stopped(r0.now.state.status)
    requires r0.now.state.status.Initialized? || r0.now.state.status.VettingMandatory?
      || r0.now.state.status.SelectingAdaptive? || r0.now.state.status.WaitingForCritic?
    ensures var r1 := Begin(r0); var s := r1.now.state;
      var step := if CurrentSkeptic(s).Some? then Step(r1, LifecycleRoute(s, false, false))
        else FreshCycle(env, Begin(r1));
      && Good(env, step.r) && !step.r.exit.Faulted? && (r1.exit.Running? && s.status.WaitingForCritic? ==>
          CurrentSkeptic(s).Some?)
      && (step.r.exit.Running? <==> r1.exit.Running?)
      && (!r1.exit.Running? ==> step.r == r1 && r1.now == r0.now && r1.exit == Exhausted())
      && s.status == r0.now.state.status
      && (step.r.exit.Running? ==> RoutedTo(env, step) && SameWork(r0.now, step.r.now) && StepTaken(r0.now, step.r.now))
      && (step.r.exit.Running? ==>
          Kept(r0.now, step) && (step.route == Some(RunMandatory) <==>
            r0.now.state.status.Initialized? || r0.now.state.status.VettingMandatory?))
      && (step.r.exit.Running? <==> !OutOfSteps(r0.now))
      && (step.r.exit.Running? && Synced(r0.now) ==> FreshlyRouted(env, r0.now, step))
  {
    hide Inv, Good, Grows, LatestBudget, LatestBoundary, RequiresBegin, PendingEvaluation, CurrentSkeptic,
      CurrentCritic, Open, FreshCycle, LifecycleRoute, Begin, Missing, Available, BudgetReason, Revisions, First,
      Extends, Reached, Live, RoutesFresh, Synced;
    NowGood(env, r0);
    PendingIs(env, r0.now);
    BeginGood(env, r0);
    var r1 := Begin(r0);
    if r1.exit.Running? {
      NowGood(env, r1);
      WorkingStatus(env, r1.now);
      if Open(r0.now.state) { OpenHasSkeptic(r0.now.state); OpenIsFresh(env, r0.now); }
      if r1.now.state.status.WaitingForCritic? { OpenHasSkeptic(r1.now.state); OpenIsFresh(env, r1.now); }
      if RequiresBegin(r0.now) { ChargedOnce(env, r0.now, r1.now); }
      if CurrentSkeptic(r1.now.state).Some? {
        if !r1.now.state.status.WaitingForCritic? { Unproposed2(env, r1.now); ChargedIsFresh(env, r1.now); }
        LifecycleReached(env, r1.now);
      } else {
        PendingIs(env, r1.now);
        BeginGood(env, r1);
        FreshReached(env, r1);
        NowGood(env, FreshCycle(env, r1).r);
        if Synced(r0.now) { SyncedRoutes(env, r0.now, FreshCycle(env, r1)); }
      }
    } else {
      WorkingStatus(env, r0.now);
      if Open(r0.now.state) { OpenIsFresh(env, r0.now); }
      VoidFresh(env, r1);
    }
  }

  lemma OpenHasSkeptic(s: State)
    requires Open(s)
    ensures CurrentSkeptic(s).Some?
  {
  }

  lemma Unproposed2(env: Env, d: Disk)
    requires Inv(env, d) && !Stopped(d.state.status) && CurrentSkeptic(d.state).Some?
    ensures Missing(d.state) == {}
  {
    if Missing(d.state) != {} { Unproposed(env, d); }
  }

  lemma ChargedOnce(env: Env, d: Disk, q: Disk)
    requires Inv(env, d) && Inv(env, q) && ChargedNext(d, q) && !d.state.status.UpdatingEvidence?
    ensures !RequiresBegin(q)
  {
    hide Inv, LatestBudget, LatestBoundary;
  }

  lemma VoidFresh(env: Env, r: Run)
    requires !r.exit.Running?
    ensures FreshCycle(env, Begin(r)).r == r
  {
    hide FreshRouteOf, Selecting, RoleDone;
  }

  lemma RoutedFrom(env: Env, d: Disk, e: Disk, step: Step)
    requires Inv(env, d) && Inv(env, e) && Aside(d, e) && Routed(env, e, step)
    ensures Routed(env, d, step)
  {
    hide Inv, LatestBudget, LatestBoundary, RequiresBegin, CurrentSkeptic, CurrentCritic, Open, Missing, Available,
      BudgetReason, Fresh, Charged, Reached, RoutesFresh;
    AsideRoute(env, d, e);
  }

  /** What a routing step guarantees. */
  predicate Routed(env: Env, d: Disk, step: Step) {
    && RoutedTo(env, step) && SameWork(d, step.r.now) && StepTaken(d, step.r.now)
    && (Stopped(d.state.status) ==> step.route == Some(NoopTerminal)) && step.r.now.state.limits == d.state.limits
    && Kept(d, step)
    && (step.route == Some(RunMandatory) <==> d.state.status.Initialized? || d.state.status.VettingMandatory?)
    && (d.state.status.UpdatingEvidence? ==> step.route == Some(EvaluateResult) && Aside(d, step.r.now))
    && (d.state.status.Finalizing? ==> step.route == Some(Finalize))
    && FreshlyRouted(env, d, step)
  }

  lemma DetermineGood(env: Env, r: Run)
    requires Good(env, r) && r.exit.Running? && !r.now.state.status.RunningTool?
    ensures var step := DetermineRoute(env, r);
      && Good(env, step.r) && !step.r.exit.Faulted?
      && (step.r.exit.Running? ==> Routed(env, r.now, step)) && (step.r.exit.Running? <==> !OutOfSteps(r.now))
      && (!step.r.exit.Running? ==> Aside(r.now, step.r.now) && step.r.exit == Exhausted())
      && (Stopped(r.now.state.status) ==> step.r.exit.Running? && step.r.now.state.status == r.now.state.status)
  {
    hide Inv, Good, Grows, LatestBudget, LatestBoundary, RequiresBegin, PendingEvaluation, CurrentSkeptic,
      CurrentCritic, Open, FreshCycle, LifecycleRoute, Begin, Missing, Available, BudgetReason, Revisions,
      HasPrepared, RecoverCheckpoints, Fresh, Charged, Choosing, ForExecution, First, Extends, Raise, RoutesFresh,
      Synced;
    NowGood(env, r);
    RecoverBeside(env, r);
    var r0 := RecoverCheckpoints(r);
    NowGood(env, r0);
    AsideRoute(env, r.now, r0.now);
    Admissible(env, r0.now);
    PendingIs(env, r0.now);
    var s0 := r0.now.state;
    if !Stopped(s0.status) {
      WorkingStatus(env, r0.now);
      if s0.status.UpdatingEvidence? {
        LifecyclePending(s0);
      } else if !s0.status.Finalizing? {
        IdleRoute(env, r0);
      }
    } else {
      StoppedRoute(r0);
    }
    var step := DetermineRoute(env, r);
    if step.r.exit.Running? { RoutedFrom(env, r.now, r0.now, step); }
  }

  /** The Director never retakes recovery, and never routes to a node that
      could not work: every edge leads to a node that finds what it needs. */
  lemma RouteGood(env: Env, r: Run)
    requires Good(env, r) && r.exit.Running? && !r.now.state.status.RunningTool?
    ensures var step := DirectorRoute(env, r);
      && Good(env, step.r) && !step.r.exit.Faulted?
      && (step.r.exit.Running? ==> Routed(env, r.now, step)) && (step.r.exit.Running? <==> !OutOfSteps(r.now))
      && (!step.r.exit.Running? ==> Aside(r.now, step.r.now) && step.r.exit == Exhausted())
      && (Stopped(r.now.state.status) ==> step.r.exit.Running? && step.r.now.state.status == r.now.state.status)
  {
    hide Inv, Good, Grows, LatestBudget, LatestBoundary, RequiresBegin, CurrentSkeptic, CurrentCritic, Open,
      DetermineRoute, Missing, Available, BudgetReason, Revisions, Emit, Fresh, Charged, Reached, RoutesFresh;
    DetermineGood(env, r);
    var step := DetermineRoute(env, r);
    if step.r.exit.Running? {
      EmitBeside(env, step.r, RouteTaken);
      NowGood(env, step.r);
      NowGood(env, Emit(step.r, RouteTaken));
      AsideReached(env, Next(RouteNode, step.route).value, step.r.now, Emit(step.r, RouteTaken).now);
    } else {
      EmitVoid(step.r);
    }
  }

  lemma LifecyclePending(s: State)
    requires !Stopped(s.status)
    ensures LifecycleRoute(s, false, true) == Some(EvaluateResult)
  {
  }

  lemma StoppedRoute(r: Run)
    requires Stopped(r.now.state.status)
    ensures Begin(r) == r && LifecycleRoute(r.now.state, false, false) == Some(NoopTerminal)
      && !r.now.state.status.Finalizing?
  {
  }
}
