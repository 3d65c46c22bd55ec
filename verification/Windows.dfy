/** Crash windows: which of them recovery closes, and which it does not. */
module Windows {
  import opened Domain
  import opened Store
  import opened Policy
  import opened Nodes
  import opened Invariant
  import opened Steps
  import opened Writes
  import opened Committing
  import opened Recovery
  import opened Executing
  import opened Routing
  import opened NodeSafety
  import opened Outcomes
  import opened Cycle
  import opened Advancing
  import opened Resuming

  // ---- optional roles ----

  predicate Matches(c: Checkpoint, role: Role, phase: Phase, context: nat) {
    c.role == role && c.phase == phase && c.context == context
  }

  predicate ExactlyOne(cs: seq<Checkpoint>, role: Role, phase: Phase, context: nat) {
    exists i :: 0 <= i < |cs| && Matches(cs[i], role, phase, context) && NoOther(cs, i, role, phase, context)
  }

  predicate NoOther(cs: seq<Checkpoint>, i: nat, role: Role, phase: Phase, context: nat) {
    forall j :: 0 <= j < |cs| && Matches(cs[j], role, phase, context) ==> j == i
  }

  lemma KnownOnce(cs: seq<Checkpoint>, role: Role, phase: Phase, context: nat)
    requires UniqueKeys(cs) && Known(cs, role, phase, context)
    ensures ExactlyOne(cs, role, phase, context)
  {
    var c :| c in cs && c.role == role && c.phase == phase && c.context == context;
    var i :| 0 <= i < |cs| && cs[i] == c;
    assert Matches(cs[i], role, phase, context);
    forall j | 0 <= j < |cs| && Matches(cs[j], role, phase, context) ensures j == i {
      if j < i { assert SameKey(cs[j], cs[i]); } else if i < j { assert SameKey(cs[i], cs[j]); }
    }
  }

  lemma UniqueRecords(env: Env, d: Disk)
    requires Inv(env, d)
    ensures UniqueKeys(d.decisions) && UniqueKeys(d.state.checkpoints) && AllIn(d.state.checkpoints, d.decisions)
  {
    hide Ledger, Proposal, Spent, Working, Account, AllAllowed, Reasons, Verdicts, Authority, Budgets, ValidSnapshot,
      Executions, UniqueKeys, Known;
  }

  lemma SyncedKnows(env: Env, d: Disk, role: Role, phase: Phase)
    requires Synced(d) && Known(d.decisions, role, phase, d.state.context)
    ensures RoleDone(d.state, role, phase)
  {
  }

  /** From every durable state, whenever the append-only record of a role exists:
      recovery leaves exactly one record and one checkpoint of it, and the role
      is not asked again, whatever its client would have answered. */
  lemma RoleIsAskedOnce(env: Env, r: Run, role: Role, phase: Phase, log: seq<Tele>, result: RoleResult)
    requires Good(env, r) && r.exit.Running? && Known(r.now.decisions, role, phase, r.now.state.context)
    ensures var q := RecoverCheckpoints(r);
      && OptionalRole(q, role, phase, log, result) == q
      && ExactlyOne(q.now.decisions, role, phase, q.now.state.context)
      && ExactlyOne(q.now.state.checkpoints, role, phase, q.now.state.context)
  {
    hide Good, Inv, Known, LatestBudget, LatestBoundary, RecoverCheckpoints, PersistOptional, Tell, Synced,
      ExactlyOne, UniqueKeys;
    RecoverBeside(env, r);
    var q := RecoverCheckpoints(r);
    NowGood(env, q);
    SyncedKnows(env, q.now, role, phase);
    UniqueRecords(env, q.now);
    KnownOnce(q.now.decisions, role, phase, q.now.state.context);
    KnownOnce(q.now.state.checkpoints, role, phase, q.now.state.context);
  }

  /** A role that is asked leaves exactly one record and one checkpoint. */
  lemma RoleLeavesOne(env: Env, r: Run, role: Role, phase: Phase, log: seq<Tele>, result: RoleResult)
    requires Good(env, r) && r.exit.Running? && !Stopped(r.now.state.status) && Advisory(role)
    requires role.Director? && phase.Final? ==> ForFinal(env, r.now.state)
    ensures var q := OptionalRole(r, role, phase, log, result);
      && q.exit.Running? && q.now.state.context == r.now.state.context
      && ExactlyOne(q.now.decisions, role, phase, q.now.state.context)
      && ExactlyOne(q.now.state.checkpoints, role, phase, q.now.state.context)
      && q.now.decisions == WithRole(r.now.decisions, r.now.state.context, role, phase, result)
      && (RoleDone(r.now.state, role, phase) ==> q == r)
      && (!RoleDone(r.now.state, role, phase) ==> Told(r.now.state, log, q.now.state))
  {
    hide Good, Inv, LatestBudget, LatestBoundary, OptionalRole, ExactlyOne, UniqueKeys, ForFinal;
    OptionalRoleBeside(env, r, role, phase, log, result);
    var q := OptionalRole(r, role, phase, log, result);
    NowGood(env, q);
    UniqueRecords(env, q.now);
    KnownOnce(q.now.state.checkpoints, role, phase, q.now.state.context);
    assert Known(q.now.decisions, role, phase, q.now.state.context);
    KnownOnce(q.now.decisions, role, phase, q.now.state.context);
  }

  /** When all three briefings are recorded, the specialists' node asks nobody. */
  lemma SpecialistsAskedOnce(env: Env, r: Run, o1: Oracle, o2: Oracle)
    requires Good(env, r) && r.exit.Running? && !Stopped(r.now.state.status)
    requires Known(r.now.decisions, Observer, Briefing, r.now.state.context)
      && Known(r.now.decisions, Signal, Briefing, r.now.state.context)
    requires Known(r.now.decisions, TransitHunter, Briefing, r.now.state.context)
    ensures Specialists(env, r, o1) == Specialists(env, r, o2) == RecoverCheckpoints(r)
  {
    hide Good, Inv, Known, LatestBudget, LatestBoundary, RecoverCheckpoints, PersistOptional, Tell, Synced,
      OptionalRole;
    RecoverBeside(env, r);
    var q := RecoverCheckpoints(r);
    SyncedKnows(env, q.now, Observer, Briefing);
    SyncedKnows(env, q.now, Signal, Briefing);
    RecoverTwice(env, r);
    assert EmitAll(q, []) == q;
    RoleIsAskedOnce(env, r, TransitHunter, Briefing, o1.hunterLog, o1.hunter);
    RoleIsAskedOnce(env, r, TransitHunter, Briefing, o2.hunterLog, o2.hunter);
  }

  lemma {:induction false} MergedKnown(cs: seq<Checkpoint>, ds: seq<Checkpoint>)
    requires forall d :: d in ds ==> Known(cs, d.role, d.phase, d.context)
    ensures Merged(cs, ds) == cs
    decreases ds
  {
    if ds != [] {
      assert ds[0] in ds;
      MergedKnown(cs, ds[1..]);
    }
  }

  lemma RecoverTwice(env: Env, r: Run)
    requires Good(env, r) && r.exit.Running?
    ensures RecoverCheckpoints(RecoverCheckpoints(r)) == RecoverCheckpoints(r)
  {
    hide Good, Known, LatestBudget, LatestBoundary, Merged;
    RecoverBeside(env, r);
    var q := RecoverCheckpoints(r);
    MergedKnown(q.now.state.checkpoints, q.now.decisions);
  }

  /** What concludes a run leads to its conclusion, whether its step is charged anew or not. */
  lemma ConcludingRoute(env: Env, r0: Run)
    requires Good(env, r0) && r0.exit.Running? && ForFinal(env, r0.now.state) && !r0.now.state.status.Finalizing?
    ensures var r1 := Begin(r0); var s := r1.now.state;
      var step := if CurrentSkeptic(s).Some? then Step(r1, LifecycleRoute(s, false, false))
        else FreshCycle(env, Begin(r1));
      && (r1.exit.Running? ==> step.route == Some(Finalize) && step.r == r1)
      && (!r1.exit.Running? ==> step.r == r1) && s.status == r0.now.state.status
      && s == r0.now.state.(step := s.step) && (s.status.WaitingForCritic? ==> CurrentSkeptic(s).Some?)
  {
    hide Good, Inv, LatestBudget, LatestBoundary, First, Extends, RequiresBegin, ProposalOf, ReviewOf, Revisions,
      Offer, PendingEvaluation, Missing, RoleDone, BudgetReason, Selecting;
    NowGood(env, r0);
    PendingIs(env, r0.now);
    WorkingStatus(env, r0.now);
    BeginGood(env, r0);
    var r1 := Begin(r0);
    if Open(r0.now.state) {
      OpenIsFresh(env, r0.now);
      OpenHasSkeptic(r0.now.state);
    } else if r1.exit.Running? {
      NowGood(env, r1);
      PendingIs(env, r1.now);
      if RequiresBegin(r0.now) { ChargedOnce(env, r0.now, r1.now); }
      BeginGood(env, r1);
      SameConclusion(env, r0.now.state, r1.now.state);
    } else {
      VoidFresh(env, r1);
    }
  }

  lemma SameConclusion(env: Env, s: State, t: State)
    requires t == s.(step := t.step)
    ensures Missing(t) == Missing(s) && BudgetReason(t) == BudgetReason(s) && Available(env, t) == Available(env, s)
  {
  }

  lemma FinalRoute(env: Env, r: Run)
    requires Good(env, r) && r.exit.Running? && ForFinal(env, r.now.state)
      && Known(r.now.decisions, Director, Final, r.now.state.context)
    ensures var s := DirectorRoute(env, r);
      s.r.exit.Running? ==> s.route == Some(Finalize) && RoleDone(s.r.now.state, Director, Final)
  {
    hide Good, Inv, Known, LatestBudget, LatestBoundary, RecoverCheckpoints, Synced, Emit, First, Extends, ForFinal,
      Begin, FreshCycle, LifecycleRoute, CurrentSkeptic, HasPrepared, PendingEvaluation;
    NowGood(env, r);
    RecoverBeside(env, r);
    FinalBeside(env, r, RecoverCheckpoints(r));
    var q := RecoverCheckpoints(r);
    NowGood(env, q);
    SyncedKnows(env, q.now, Director, Final);
    Admissible(env, q.now);
    PendingIs(env, q.now);
    ConcludingStatus(env, q.now.state);
    if !q.now.state.status.Finalizing? { ConcludingRoute(env, q); }
    var step := DetermineRoute(env, r);
    assert step.r.exit.Running? ==> RoleDone(step.r.now.state, Director, Final);
    EmitState(step.r, RouteTaken);
  }

  lemma EmitState(r: Run, kind: EventKind)
    ensures Emit(r, kind).now.state == r.now.state && Emit(r, kind).exit == r.exit
  {
  }

  lemma ConcludingStatus(env: Env, s: State)
    requires ForFinal(env, s)
    ensures s.status.Finalizing? || s.status.SelectingAdaptive? || s.status.WaitingForCritic?
  {
    hide ProposalOf, ReviewOf, Revisions, Offer;
  }

  lemma RecordedConcludes(env: Env, d: Disk)
    requires Inv(env, d) && !Stopped(d.state.status) && Known(d.decisions, Director, Final, d.state.context)
    ensures ForFinal(env, d.state)
  {
    hide Ledger, AllAllowed, Roles, Proposal, Spent, Working, Reasons, Verdicts, Authority, Executions, ValidSnapshot,
      Budgets, Tally, Unswayed, Choosable, Known, ForFinal;
  }

  /** The final message is asked for once: from every durable state in which its
      record exists, however the run came to be concluded, the advance is the
      same for all answers of all models. */
  lemma FinalAskedOnce(env: Env, d: Disk, o1: Oracle, o2: Oracle)
    requires Inv(env, d) && !Stopped(d.state.status) && Known(d.decisions, Director, Final, d.state.context)
    ensures Advance(env, d, o1) == Advance(env, d, o2)
  {
    hide Good, Inv, Known, LatestBudget, LatestBoundary, FinalReason, Walk, Catch, First, Extends, ForFinal, Recover,
      DirectorRoute, FinalizeNode, RoleDone;
    StartGood(env, d);
    var r := Start(d);
    RecordedConcludes(env, d);
    ConcludingStatus(env, d.state);
    RecoverGood(env, r);
    FinalRoute(env, r);
    var s := DirectorRoute(env, r);
    if s.r.exit.Running? {
      FinalSame(env, s.r, o1, o2);
      FinalWalk(env, r, s, o1);
      FinalWalk(env, r, s, o2);
    } else {
      WalkNode(env, RecoverNode, r, None, o1, RECURSION_LIMIT, Step(r, None));
      WalkNode(env, RecoverNode, r, None, o2, RECURSION_LIMIT, Step(r, None));
      WalkStop(env, RouteNode, r, None, o1, RECURSION_LIMIT - 1);
      WalkStop(env, RouteNode, r, None, o2, RECURSION_LIMIT - 1);
    }
  }

  lemma FinalSame(env: Env, r: Run, o1: Oracle, o2: Oracle)
    requires RoleDone(r.now.state, Director, Final)
    ensures FinalizeNode(env, r, o1) == FinalizeNode(env, r, o2)
  {
    hide Conclude, FinalReason, OptionalRole;
    DoneSkips(r, o1);
    DoneSkips(r, o2);
  }

  lemma DoneSkips(r: Run, o: Oracle)
    requires RoleDone(r.now.state, Director, Final)
    ensures OptionalRole(r, Director, Final, o.finalLog, o.final) == r
  {
    hide Known;
  }

  lemma FinalWalk(env: Env, r: Run, s: Step, o: Oracle)
    requires Recover(env, r) == r && r.exit.Running? && s == DirectorRoute(env, r) && s.route == Some(Finalize)
      && s.r.exit.Running?
    ensures Walk(env, RecoverNode, r, None, o, RECURSION_LIMIT) == FinalizeNode(env, s.r, o)
  {
    hide FinalizeNode, DirectorRoute, Recover, First, Extends, Walk;
    WalkNode(env, RecoverNode, r, None, o, RECURSION_LIMIT, Step(r, None));
    WalkNode(env, RouteNode, r, None, o, RECURSION_LIMIT - 1, s);
    var f := FinalizeNode(env, s.r, o);
    if f.exit.Running? {
      WalkNode(env, FinalNode, s.r, Some(Finalize), o, RECURSION_LIMIT - 2, Step(f, None));
      WalkEnd(env, f, Some(Finalize), o, RECURSION_LIMIT - 3);
    } else {
      WalkStop(env, FinalNode, s.r, Some(Finalize), o, RECURSION_LIMIT - 2);
    }
  }

  // ---- the window that stays open ----

  /** Every accepted proposal passes through a durable state that is stranded: a
      process that dies there can never execute what it is about to approve. */
  lemma EveryProposalCanStrand(env: Env, r: Run, o: Oracle) returns (e: Disk)
    requires Good(env, r) && r.exit.Running? && Reached(env, ProposeNode, r.now) && SkepticNode(env, r, o).exit.Running?
    ensures var past := SkepticNode(env, r, o).past; past != [] && e == past[|past| - 1]
    ensures Inv(env, e) && Stranded(e.state) && CurrentCritic(e.state).None? && e.ledger == r.now.ledger
    ensures o.skeptic.Accepted? && CurrentSkeptic(e.state) == Some(o.skeptic.decision)
  {
    hide Good, Inv, Grows, LatestBudget, LatestBoundary, PersistRequired, Emit, Available, JudgeSkeptic, ProposalOf,
      ReviewOf, Missing, Tell, Fresh, CurrentSkeptic, First, Extends;
    NowGood(env, r);
    var s := r.now.state;
    SelectingKeeps(env, r.now);
    assert Selecting(env, s) == s;
    SaveGood(env, r, s);
    var r0 := Save(r, s);
    assert r0.now == r.now;
    TellBeside(env, r0, o.skepticLog);
    var r1 := Tell(r0, o.skepticLog);
    BesideReached(env, ProposeNode, r0, r1);
    var k := o.skeptic.decision;
    ProposeWrites(env, r1, k);
    var r2 := Save(r1, r1.now.state.(accepted := r1.now.state.accepted + [k]));
    var r3 := Emit(PersistRequired(r2, SkepticRole, Decision, k.id), AgentEvent);
    NowGood(env, r3);
    WaitingKeeps(env, r3.now);
    SaveGood(env, r3, r3.now.state.(status := WaitingForCritic));
    e := r3.now;
  }

  /** A review that approves a proposal as it is. */
  function Approval(k: Skeptic, s: State): Critic {
    Critic("approval", k.step, s.context, false, true, k.id, Approve, k.action, k.params)
  }

  /** Answers with which the review approves. */
  function Approving(k: Skeptic, s: State): Oracle {
    Oracle([], Skipped, Skipped, [], Skipped, [], Skipped, [], GaveUp(ModelTimeout, Failed), [],
        Accepted(Approval(k, s)), [], Skipped)
  }

  /** From a stranded step every approval of an experiment whose inputs are at
      hand makes the advance fail with an illegal transition. */
  lemma StrandedFails(env: Env, d: Disk)
    requires Inv(env, d) && Registered(env) && Stranded(d.state) && CurrentCritic(d.state).None?
    requires CurrentSkeptic(d.state).value.action.Use?
      && env.inputsReady(CurrentSkeptic(d.state).value.action.tool, d.ledger)
    ensures Advance(env, d, Approving(CurrentSkeptic(d.state).value, d.state)).exit == Faulted(IllegalTransition)
  {
    hide Inv, Good, Advance, First, Extends, Little, Progressed, Unrunnable, CurrentSkeptic, CurrentCritic;
    AdvanceSafe(env, d, Approving(CurrentSkeptic(d.state).value, d.state));
  }

  /** So every proposed experiment can be lost: a process that dies in the
      stranded state leaves a run that an approval can only make fail. */
  lemma EveryExperimentCanBeLost(env: Env, r: Run, o: Oracle) returns (e: Disk, answers: Oracle)
    requires Good(env, r) && r.exit.Running? && Registered(env) && Reached(env, ProposeNode, r.now)
      && SkepticNode(env, r, o).exit.Running?
    requires var k := o.skeptic.decision; k.action.Use? && env.inputsReady(k.action.tool, r.now.ledger)
    ensures DiesIn(SkepticNode(env, r, o), e) && Stranded(e.state)
      && Advance(env, e, answers).exit == Faulted(IllegalTransition)
  {
    hide Good, Inv, SkepticNode, JudgeSkeptic, Choosing, Advance, Stranded;
    e := EveryProposalCanStrand(env, r, o);
    SkepticGood(env, r, o);
    var q := SkepticNode(env, r, o);
    assert (q.past + [q.now])[|q.past| - 1] == e;
    StrandedFails(env, e);
    answers := Approving(CurrentSkeptic(e.state).value, e.state);
  }

  // ---- the announcement that got lost ----

  /** The action of this step was committed, but its result never announced. */
  predicate Unannounced(d: Disk) {
    d.state.status.SelectingAdaptive? && CurrentSkeptic(d.state).Some? && !Live(d.state) && !RequiresBegin(d)
  }

  lemma SpentDecides(env: Env, d: Disk)
    requires Inv(env, d) && Unannounced(d)
    ensures LifecycleRoute(d.state, false, false) == Some(ExecuteApproved) && ForExecution(d.state) && Charged(d)
      && !Open(d.state)
  {
    hide Ledger, Roles, AllAllowed, Reasons, Verdicts, Authority, Budgets, Executions, ValidSnapshot, Proposal,
      LatestBudget, LatestBoundary, ProposalOf, ReviewOf, Revisions, Account, Truthful, Approvable, NoAdaptive,
      Missing, Proposed, Reviewed;
  }

  /** After a crash between the commit of an experiment and the announcement of
      its result, the step is not charged anew, and the run ends by trying to
      repeat the experiment; no tool is called and no budget spent. */
  lemma LostAnnouncementEndsTheRun(env: Env, d: Disk, o: Oracle)
    requires Inv(env, d) && Registered(env) && Unannounced(d)
    ensures var q := Advance(env, d, o);
      Good(env, q) && q.exit.Running? && Stopped(q.now.state.status) && q.now.state.toolCalls == d.state.toolCalls
        && q.now.ledger == d.ledger
  {
    hide Good, Inv, Walk, Catch, First, Extends, Recover, DirectorRoute, ExecuteAdaptive, Unannounced;
    StartGood(env, d);
    var r := Start(d);
    RecoverGood(env, r);
    assert Recover(env, r) == r by { assert d.state.status.SelectingAdaptive? by { UnannouncedSelects(d); } }
    WalkNode(env, RecoverNode, r, None, o, RECURSION_LIMIT, Step(r, None));
    RouteUnannounced(env, r);
    var s := DirectorRoute(env, r);
    WalkNode(env, RouteNode, r, None, o, RECURSION_LIMIT - 1, s);
    RepetitionEnds(env, s.r);
    WalkStop(env, AdaptiveNode, s.r, Some(ExecuteApproved), o, RECURSION_LIMIT - 2);
  }

  lemma UnannouncedSelects(d: Disk)
    requires Unannounced(d)
    ensures d.state.status.SelectingAdaptive?
  {
  }

  /** The repeated request is refused, and the run ends. */
  lemma RepetitionEnds(env: Env, r: Run)
    requires Good(env, r) && r.exit.Running? && Registered(env) && Unannounced(r.now)
    ensures var q := Catch(ExecuteAdaptive(env, r));
      && !ExecuteAdaptive(env, r).exit.Running? && Good(env, q) && q.exit.Running? && Stopped(q.now.state.status)
      && q.now.state.toolCalls == r.now.state.toolCalls && q.now.ledger == r.now.ledger
  {
    hide Good, Inv, LatestBudget, LatestBoundary, Catch, First, Extends, CurrentSkeptic, ExecuteAdaptive,
      RequiresBegin, ForExecution, LifecycleRoute, Charged, Explained;
    NowGood(env, r);
    SpentDecides(env, r.now);
    AdaptiveGood(env, r);
    var q := ExecuteAdaptive(env, r);
    AdaptiveAborts(env, r);
    CatchGood(env, q);
    NowGood(env, q);
    FailingStops(q.exit);
  }

  /** The refusal happens before anything is written. */
  lemma AdaptiveAborts(env: Env, r: Run)
    requires Good(env, r) && r.exit.Running? && ForExecution(r.now.state) && !Open(r.now.state)
      && r.now.state.status.SelectingAdaptive?
    ensures ExecuteAdaptive(env, r).now == r.now
  {
    hide Good, Inv, Refusal, Execute, CurrentSkeptic, CurrentCritic, Chosen, Open;
    NowGood(env, r);
    SpentRefused(env, r.now);
    var (tool, params) := Request(r.now.state);
    assert ExecuteAdaptive(env, r) == Execute(env, r, tool, params, true);
    ReadyPasses(env, r, tool, params);
  }

  lemma RouteUnannounced(env: Env, r: Run)
    requires Good(env, r) && r.exit.Running? && Unannounced(r.now)
    ensures var s := DirectorRoute(env, r);
      && Good(env, s.r) && s.r.exit.Running? && s.route == Some(ExecuteApproved) && Unannounced(s.r.now)
      && s.r.now.state.toolCalls == r.now.state.toolCalls && s.r.now.ledger == r.now.ledger
  {
    hide Good, Inv, LatestBudget, LatestBoundary, RecoverCheckpoints, Emit, First, Extends, RequiresBegin,
      CurrentSkeptic, LifecycleRoute, HasPrepared, PendingEvaluation, FreshCycle;
    NowGood(env, r);
    RecoverBeside(env, r);
    var r0 := RecoverCheckpoints(r);
    NowGood(env, r0);
    AsideRoute(env, r.now, r0.now);
    SameReview(r.now.state, r0.now.state);
    Admissible(env, r0.now);
    PendingIs(env, r0.now);
    SpentDecides(env, r0.now);
    assert Begin(r0) == r0;
    EmitBeside(env, r0, RouteTaken);
    var q := Emit(r0, RouteTaken);
    NowGood(env, q);
    AsideRoute(env, r0.now, q.now);
  }

  /** The commit of an experiment on the work of `d`, without its announcement:
      one more call, and its tool's answer as the newest record. */
  ghost predicate CommittedExperiment(env: Env, d: Disk, c: Disk) {
    && Inv(env, c) && c.state.status.UpdatingEvidence? && |c.ledger| == |d.ledger| + 1 && d.ledger <= c.ledger
    && c.state.toolCalls == d.state.toolCalls + 1 && c.state.limits == d.state.limits && c.state.executions != []
    && Answered(env, c.state.executions[|c.state.executions| - 1], d.ledger, c.ledger[|d.ledger|].result)
    && CurrentSkeptic(c.state).Some? && !Live(c.state) && Missing(c.state) == {}
    && LatestBoundary(c.trace, c.state.step) < LatestBudget(c.trace, c.state.step)
  }

  predicate Answered(env: Env, x: Execution, ledger: seq<Evidence>, result: ToolResult) {
    x.adaptive && env.invoke(x.tool, x.params, x.action, ledger) == Returns(result)
  }

  lemma CommitKeepsProposal(env: Env, s: State, p: State, e: Evidence)
    requires p.accepted == s.accepted && p.step == s.step && p.context == s.context && Live(s)
    requires p.critics == s.critics
    ensures var c := CommittedState(env, p, e);
      && CurrentSkeptic(c) == CurrentSkeptic(s) && CurrentCritic(c) == CurrentCritic(s) && !Live(c) && c.step == s.step
  {
    hide ProposalOf, ReviewOf;
  }

  /** Every experiment that is performed passes through a durable state in which
      it is committed and not announced. */
  lemma AnnouncementCanBeLost(env: Env, r: Run) returns (c: Disk)
    requires Good(env, r) && r.exit.Running? && Registered(env) && r.now.state.status.WaitingForCritic?
      && ForExecution(r.now.state)
    requires ExecuteAdaptive(env, r).exit.Running?
    ensures DiesIn(ExecuteAdaptive(env, r), c) && CommittedExperiment(env, r.now, c)
    ensures CurrentSkeptic(c.state) == CurrentSkeptic(r.now.state)
    ensures CurrentCritic(c.state) == CurrentCritic(r.now.state)
  {
    hide Good, Inv, Refusal, CurrentSkeptic, CurrentCritic, Chosen, Execute, Receive, CommittedState, Fits,
      LatestBudget, LatestBoundary, Live, Commit, EmitAll, Extends, First, Announced, Missing;
    NowGood(env, r);
    WorkingStatus(env, r.now);
    OpenIsFresh(env, r.now);
    OpenHasSkeptic(r.now.state);
    ApprovedPasses(env, r.now);
    var (tool, params) := Request(r.now.state);
    assert ExecuteAdaptive(env, r) == Execute(env, r, tool, params, true);
    ReadyPasses(env, r, tool, params);
    PreparedGood(env, r, tool, params, true);
    var p := PreparedRun(env, r, tool, params, true);
    var x := NextExecution(env, r.now.state, tool, params, true);
    assert Current(p.now) == x;
    Unrefused(env, r, tool, params, true);
    var outcome := env.invoke(tool, x.params, x.action, p.now.ledger);
    ReceiveGood(env, p, outcome);
    CommitWrites(env, p, outcome.result);
    ReceiveCommits(env, p, x, outcome);
    c := CommitOf(env, p.now, outcome.result);
    var e := RecordFor(x, outcome.result);
    var r2 := Run(p.past + [p.now] + [p.now.(ledger := p.now.ledger + [e])], c, Running);
    DiesAt(r2, ExecuteAdaptive(env, r));
    NowGood(env, r2);
    CommittedStatus(env, p.now.state, e);
    CommitKeepsProposal(env, r.now.state, p.now.state, e);
    UpdatingFacts(env, c);
    LastKept(env, p.now.state, e);
    CommittedUpdates(env, p.now.state, e);
  }

  lemma ReceiveCommits(env: Env, p: Run, x: Execution, outcome: ToolOutcome)
    requires outcome.Returns? && Receive(env, p, x, x.params, outcome).exit.Running?
    ensures Receive(env, p, x, x.params, outcome) == Commit(env, p, outcome.result)
  {
    hide Commit;
  }

  /** From there one advance ends the run, or, exactly when its evaluation goes
      on, leaves the unannounced state; and the advance after that ends it. */
  lemma LostAnnouncementIsReached(env: Env, d: Disk, c: Disk, o: Oracle)
    requires Registered(env) && CommittedExperiment(env, d, c)
    ensures var q := Advance(env, c, o);
      q.exit.Running? && (if GoesOn(env, c) then Unannounced(q.now) else Stopped(q.now.state.status))
    ensures GoesOn(env, c) ==> forall o2 ::
      var q := Advance(env, Advance(env, c, o).now, o2);
      q.exit.Running? && Stopped(q.now.state.status) && q.now.state.toolCalls == c.state.toolCalls
        && q.now.ledger == c.ledger
  {
    hide Inv, Good, Advance, First, Extends, LatestBudget, LatestBoundary, GoesOn, Live;
    UpdatingAdvance(env, c, o);
    var q := Advance(env, c, o);
    if GoesOn(env, c) {
      NowGood(env, q);
      ResumedUnannounced(c, q.now);
      forall o2 ensures var p := Advance(env, q.now, o2);
        p.exit.Running? && Stopped(p.now.state.status) && p.now.state.toolCalls == c.state.toolCalls
          && p.now.ledger == c.ledger
      {
        LostAnnouncementEndsTheRun(env, q.now, o2);
      }
    }
  }

  lemma ResumedUnannounced(c: Disk, q: Disk)
    requires ResumedDisk(c, q) && CurrentSkeptic(c.state).Some? && !Live(c.state) && Missing(c.state) == {}
    requires LatestBoundary(c.trace, c.state.step) < LatestBudget(c.trace, c.state.step)
    ensures Unannounced(q) && q.state.toolCalls == c.state.toolCalls && q.ledger == c.ledger
  {
    hide LatestBudget, LatestBoundary, ProposalOf, TestsIn;
  }
}
