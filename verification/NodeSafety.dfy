/** The working nodes: each keeps every durable state good, and hands the next
    node what it relies on. */
module NodeSafety {
  import opened Domain
  import opened Store
  import opened Policy
  import opened Nodes
  import opened Invariant
  import opened Accounting
  import opened Steps
  import opened Writes
  import opened Committing
  import opened Recovery
  import opened Executing
  import opened Routing
  import opened Rules

  // ---- termination ----

  /** The run ended in `status` without touching steps, calls or evidence. */
  predicate EndedIn(d: Disk, q: Disk, status: Status) {
    && q.state.status == status && q.ledger == d.ledger && q.state.toolCalls == d.state.toolCalls
    && q.state.step == d.state.step && q.state.limits == d.state.limits && q.state.disposition == d.state.disposition
    && q.decisions == d.decisions
  }

  /** It says why, notes the failure, and fails the named execution alone. */
  predicate Explained(d: Disk, q: Disk, kind: FailureKind, action: Option<nat>) {
    && q.state.terminalReason == Some(Failure(kind)) && q.state.pendingFinal.None?
    && q.state.failures == d.state.failures + [kind]
    && |q.state.executions| == |d.state.executions|
    && forall i :: 0 <= i < |d.state.executions| ==>
         q.state.executions[i]
         == (if action == Some(i) then d.state.executions[i].(status := ExecutionFailed) else d.state.executions[i])
  }

  /** The execution that a running tool works on. */
  function Unfinished(s: State): Option<nat> {
    if s.status.RunningTool? && s.executions != [] then Some(|s.executions| - 1) else None
  }

  lemma ActionsAre(env: Env, d: Disk)
    requires Inv(env, d)
    ensures forall i :: 0 <= i < |d.state.executions| ==> d.state.executions[i].action == i
  {
    hide Ledger, Account, AllAllowed, Roles, Proposal, Spent, Working, Reasons, Verdicts, Authority, ValidSnapshot,
      Budgets;
  }

  lemma TerminateGood(env: Env, r: Run, kind: FailureKind, status: Status, action: Option<nat>)
    requires Good(env, r) && r.exit.Running? && !Stopped(r.now.state.status) && Failing(status)
    requires action.Some? ==> |r.now.state.executions| > 0 && action.value == |r.now.state.executions| - 1
    requires r.now.state.status.RunningTool? ==> action.Some? && !status.BudgetExhausted?
    ensures var q := TerminateRun(r, kind, status, action);
      Good(env, q) && q.exit.Running? && EndedIn(r.now, q.now, status) && Explained(r.now, q.now, kind, action)
  {
    hide Inv, Good, Grows, LatestBudget, LatestBoundary;
    NowGood(env, r);
    ActionsAre(env, r.now);
    TerminatedKeeps(env, r.now, kind, status, action);
    var s := TerminatedState(r.now.state, kind, status, action);
    WorkingStatus(env, r.now);
    SaveGood(env, r, s);
    EmitAllBeside(env, Save(r, s), [InferenceEvent] + (if action.Some? then [ToolEvent] else []) + [StatusChanged]);
  }

  /** `advance` turns every abort into a legal termination. */
  lemma CatchGood(env: Env, r: Run)
    requires Good(env, r)
    ensures var q := Catch(r);
      && Good(env, q) && !q.exit.Aborted?
      && (r.exit.Aborted? ==>
          && q.exit.Running? && EndedIn(r.now, q.now, r.exit.status)
          && Explained(r.now, q.now, r.exit.kind, r.exit.action))
      && (!r.exit.Aborted? ==> q == r)
  {
    hide Inv, Grows, TerminateRun;
    if r.exit.Aborted? {
      var r1 := r.(exit := Running);
      assert Good(env, r1) by {
        forall i | 0 <= i <= |r1.past| ensures Inv(env, At(r1, i)) { assert At(r1, i) == At(r, i); }
        forall i | 0 <= i < |r1.past| ensures Grows(At(r1, i), At(r1, i + 1)) {
          assert At(r1, i) == At(r, i) && At(r1, i + 1) == At(r, i + 1);
        }
      }
      NonEmptyWhenRunning(env, r);
      TerminateGood(env, r1, r.exit.kind, r.exit.status, r.exit.action);
    }
  }

  lemma NonEmptyWhenRunning(env: Env, r: Run)
    requires Good(env, r)
    ensures r.now.state.status.RunningTool? ==> |r.now.state.executions| > 0
  {
    hide Good, Grows, Ledger, Roles, Proposal, Spent, Working, Account, AllAllowed, Reasons, Verdicts, Authority,
      Budgets, ValidSnapshot;
    NowGood(env, r);
  }

  /** `fail_run` is always a legal termination. */
  lemma FailRunGood(env: Env, r: Run)
    requires Good(env, r) && r.exit.Running?
    ensures var q := FailRun(r);
      && Good(env, q) && q.exit.Running? && Stopped(q.now.state.status)
      && (Stopped(r.now.state.status) ==> q == r)
      && (!Stopped(r.now.state.status) ==>
            && EndedIn(r.now, q.now, Failed)
            && Explained(r.now, q.now, ToolInfrastructureFailure, Unfinished(r.now.state)))
  {
    hide Good, Inv, Grows, TerminateRun;
    NowGood(env, r);
    PreparedIs(env, r.now);
    if !Stopped(r.now.state.status) {
      TerminateGood(env, r, ToolInfrastructureFailure, Failed, PreparedAction(r.now.state.executions));
    }
  }

  lemma {:induction false} NonePrepared(xs: seq<Execution>)
    requires forall i :: 0 <= i < |xs| ==> !xs[i].status.Prepared?
    ensures PreparedAction(xs).None?
  {
    if xs != [] { NonePrepared(xs[..|xs| - 1]); }
  }

  lemma PreparedIs(env: Env, d: Disk)
    requires Inv(env, d)
    ensures PreparedAction(d.state.executions) == if d.state.status.RunningTool?
      && |d.state.executions| > 0 then Some(|d.state.executions| - 1) else None
    ensures d.state.status.RunningTool? ==> |d.state.executions| > 0
  {
    hide Ledger, Roles, Proposal, Spent, Working, Account, AllAllowed, Reasons, Verdicts, Authority, Budgets,
      ValidSnapshot, PreparedAction;
    var xs := d.state.executions;
    if |xs| > 0 {
      if !d.state.status.RunningTool? { NonePrepared(xs); } else { LastPrepared(xs); }
    } else {
      NonePrepared(xs);
    }
  }

  lemma LastPrepared(xs: seq<Execution>)
    requires |xs| > 0 && xs[|xs| - 1].status.Prepared?
    ensures PreparedAction(xs) == Some(xs[|xs| - 1].action)
  {
  }

  // ---- mandatory action ----

  lemma VettingFacts(env: Env, d: Disk)
    requires Inv(env, d) && Reached(env, MandatoryNode, d)
    ensures var e := d.(state := d.state.(status := VettingMandatory));
      Inv(env, e) && Grows(d, e) && Charged(e) && CurrentSkeptic(e.state).None?
        && Revisions(e.state.critics) == e.state.revisions && Missing(e.state) == Missing(d.state)
  {
    hide Inv, Grows, LatestBudget, LatestBoundary, ProposalOf, Revisions;
    AllCompleted(env, d);
    VettingKeeps(env, d);
    Unproposed(env, d);
  }

  lemma {:induction false} FirstRunnableAt(specs: seq<Spec>, missing: set<Test>, completed: set<Test>) returns (i: nat)
    requires FirstRunnable(specs, missing, completed).Some?
    ensures i < |specs| && specs[i] == FirstRunnable(specs, missing, completed).value
    ensures specs[i].mandatory.Some? && specs[i].mandatory.value in missing && specs[i].required <= completed
  {
    if specs[0].mandatory.Some? && specs[0].mandatory.value in missing && specs[0].required <= completed {
      i := 0;
    } else {
      i := FirstRunnableAt(specs[1..], missing, completed);
      i := i + 1;
    }
  }

  /** The chosen entry is the one its tool is registered under, and its test is missing. */
  lemma RunnableFits(env: Env, s: State, spec: Spec)
    requires UniqueTools(env.specs) && FirstRunnable(env.specs, Missing(s), CompletedSet(s)) == Some(spec)
    ensures Resolve(env.specs, spec.tool) == Some(spec) && TestOf(env, spec.tool) == spec.mandatory
      && spec.mandatory.Some?
    ensures spec.mandatory.value in Missing(s) && spec.mandatory.value !in s.completed
      && spec.required <= CompletedSet(s)
  {
    hide FirstRunnable;
    var i := FirstRunnableAt(env.specs, Missing(s), CompletedSet(s));
    ResolveAt(env.specs, i);
  }

  /** The tool that ran is the first in the registry for a missing test with its
      prerequisites, without parameters. */
  ghost predicate RanFirst(env: Env, s: State, q: State) {
    exists i: nat :: FirstAt(env.specs, Missing(s), CompletedSet(s), i)
      && RanFor(env, s, q, env.specs[i].tool, NO_PARAMS, false)
  }

  /** A missing test is run if the registry has one that can be; otherwise the run ends. */
  lemma MandatoryGood(env: Env, r: Run)
    requires Good(env, r) && r.exit.Running? && Reached(env, MandatoryNode, r.now) && Registered(env)
    ensures var q := Mandatory(env, r);
      var runnable := FirstRunnable(env.specs, Missing(r.now.state), CompletedSet(r.now.state)).Some?;
      && Good(env, q) && !q.exit.Faulted? && (q.exit.Running? ==> Reached(env, EvaluateNode, q.now))
      && (runnable && q.exit.Running? ==>
          Performed(r.now, q.now) && q.now.state.adaptiveUsed == r.now.state.adaptiveUsed)
      && AtMostOne(r.now, q.now)
      && (runnable && q.exit.Running? ==> RanFirst(env, r.now.state, q.now.state))
      && (!runnable ==>
            && q.exit.Running? && EndedIn(r.now, q.now, InsufficientEvidence)
            && Explained(r.now, q.now, NotEnoughEvidence, None))
      && (q.exit.Running? && Stopped(q.now.state.status) ==> !runnable)
  {
    hide Inv, Good, Grows, LatestBudget, LatestBoundary, Execute, TerminateRun, CurrentSkeptic, FirstRunnable,
      Charged;
    NowGood(env, r);
    match FirstRunnable(env.specs, Missing(r.now.state), CompletedSet(r.now.state))
    case None => TerminateGood(env, r, NotEnoughEvidence, InsufficientEvidence, None);
    case Some(spec) =>
      VettingFacts(env, r.now);
      var s := r.now.state.(status := VettingMandatory);
      SaveGood(env, r, s);
      RunnableFits(env, r.now.state, spec);
      ExecuteGood(env, Save(r, s), spec.tool, NO_PARAMS, false);
      FirstRunnableIs(env.specs, Missing(r.now.state), CompletedSet(r.now.state));
  }

  // ---- advisory roles ----

  lemma BesideTrans(env: Env, p: Run, q: Run, r: Run)
    requires Beside(env, p, q) && Beside(env, q, r)
    ensures Beside(env, p, r)
  {
    hide Good, LatestBudget, LatestBoundary;
  }

  lemma BesideWorks(env: Env, p: Run, q: Run)
    requires Beside(env, p, q) && p.exit.Running? && !Stopped(p.now.state.status)
    ensures q.exit.Running? && !Stopped(q.now.state.status) && Good(env, q)
  {
    hide Good, LatestBudget, LatestBoundary;
  }

  lemma SpecialistsBeside(env: Env, r: Run, o: Oracle)
    requires Good(env, r) && r.exit.Running? && !Stopped(r.now.state.status)
    ensures Beside(env, r, Specialists(env, r, o)) && Heard(Specialists(env, r, o).now.decisions, r.now.state.context)
    ensures Specialists(env, r, o).now.decisions ==
      WithRole(Briefed(r.now, o), r.now.state.context, TransitHunter, Briefing, o.hunter)
  {
    hide Good, Inv, Grows, LatestBudget, LatestBoundary, RecoverCheckpoints, EmitAll, Tell, PersistOptional,
      OptionalRole, RoleDone, Beside, Known, WithRole;
    RecoverBeside(env, r);
    var r0 := RecoverCheckpoints(r);
    BesideWorks(env, r, r0);
    var observer, signal := RoleDone(r0.now.state, Observer, Briefing), RoleDone(r0.now.state, Signal, Briefing);
    HearBothBeside(env, r0, observer, signal, o);
    var r4 := HearBoth(r0, observer, signal, o);
    BesideTrans(env, r, r0, r4);
    BesideWorks(env, r, r4);
    RecoverBeside(env, r4);
    var r5 := RecoverCheckpoints(r4);
    BesideTrans(env, r, r4, r5);
    BesideWorks(env, r, r5);
    SameContext(env, r, r0);
    SameContext(env, r, r5);
    OptionalRoleBeside(env, r5, TransitHunter, Briefing, o.hunterLog, o.hunter);
    var q := OptionalRole(r5, TransitHunter, Briefing, o.hunterLog, o.hunter);
    BesideTrans(env, r, r5, q);
    BesideTrans(env, r4, r5, q);
    StillKnown(env, r4, q, Observer, Briefing);
    StillKnown(env, r4, q, Signal, Briefing);
    BesideWorks(env, r, q);
    DoneIsKnown(env, q, TransitHunter, Briefing);
    SameContext(env, r, r4);
    SameContext(env, r, q);
  }

  lemma SameContext(env: Env, p: Run, q: Run)
    requires Beside(env, p, q)
    ensures q.now.state.context == p.now.state.context
  {
    hide Good, LatestBudget, LatestBoundary;
  }

  /** The role records after the two concurrent specialists, in their order. */
  function Briefed(d: Disk, o: Oracle): seq<Checkpoint> {
    var context := d.state.context;
    WithRole(WithRole(d.decisions, context, Observer, Briefing, o.observer), context, Signal, Briefing, o.signal)
  }

  /** One of the concurrent specialists is recorded, unless it was. */
  lemma HearOne(env: Env, r: Run, known: bool, role: Role, result: RoleResult)
    requires Good(env, r) && r.exit.Running? && !Stopped(r.now.state.status) && Advisory(role)
    requires known ==> Known(r.now.decisions, role, Briefing, r.now.state.context)
    ensures var q := if known then r else PersistOptional(r, role, Briefing, result);
      && Beside(env, r, q) && Known(q.now.decisions, role, Briefing, r.now.state.context)
      && q.now.state.context == r.now.state.context && SameTraffic(r.now.state, q.now.state)
      && q.now.decisions == WithRole(r.now.decisions, r.now.state.context, role, Briefing, result)
      && q.exit.Running? && !Stopped(q.now.state.status)
  {
    hide Good, LatestBudget, LatestBoundary, PersistOptional, Known, RoleDone;
    if !known {
      PersistOptionalBeside(env, r, role, Briefing, result);
      DoneIsKnown(env, PersistOptional(r, role, Briefing, result), role, Briefing);
    }
  }

  /** After the two concurrent specialists both have a record. */
  lemma HearBothBeside(env: Env, r: Run, observer: bool, signal: bool, o: Oracle)
    requires Good(env, r) && r.exit.Running? && !Stopped(r.now.state.status)
    requires observer == RoleDone(r.now.state, Observer, Briefing) && signal == RoleDone(r.now.state, Signal, Briefing)
    ensures var q := HearBoth(r, observer, signal, o);
      && Beside(env, r, q) && Known(q.now.decisions, Observer, Briefing, q.now.state.context)
      && Known(q.now.decisions, Signal, Briefing, q.now.state.context)
      && q.now.decisions == Briefed(r.now, o)
      && (if observer && signal then SameTraffic(r.now.state, q.now.state)
          else Told(r.now.state, o.specialistLog, q.now.state))
  {
    hide Good, Inv, Grows, LatestBudget, LatestBoundary, EmitAll, Tell, PersistOptional, RoleDone, Beside, Known,
      CallsAfter, RetriesAfter, NotedBy, WithRole;
    var kinds: seq<EventKind> := (if observer then [] else [AgentEvent]) + (if signal then [] else [AgentEvent]);
    EmitAllBeside(env, r, kinds);
    var r1 := EmitAll(r, kinds);
    BesideWorks(env, r, r1);
    TellBeside(env, r1, o.specialistLog);
    TellCounts(env, r1, o.specialistLog);
    var r2 := if observer && signal then r1 else Tell(r1, o.specialistLog);
    if !(observer && signal) { BesideTrans(env, r, r1, r2); }
    BesideWorks(env, r, r2);
    SameContext(env, r, r2);
    if observer { DoneIsKnown(env, r, Observer, Briefing); }
    if signal { DoneIsKnown(env, r, Signal, Briefing); }
    HearOne(env, r2, observer, Observer, o.observer);
    var r3 := if observer then r2 else PersistOptional(r2, Observer, Briefing, o.observer);
    BesideTrans(env, r, r2, r3);
    BesideWorks(env, r, r3);
    if signal { StillKnown(env, r, r3, Signal, Briefing); }
    HearOne(env, r3, signal, Signal, o.signal);
    var r4 := if signal then r3 else PersistOptional(r3, Signal, Briefing, o.signal);
    StillKnown(env, r3, r4, Observer, Briefing);
    BesideTrans(env, r, r3, r4);
  }

  lemma BriefingBeside(env: Env, r: Run, o: Oracle)
    requires Good(env, r) && r.exit.Running? && !Stopped(r.now.state.status)
    ensures Beside(env, r, DirectorBriefing(env, r, o))
      && Known(DirectorBriefing(env, r, o).now.decisions, Director, Briefing, r.now.state.context)
      && DirectorBriefing(env, r, o).now.decisions ==
         WithRole(r.now.decisions, r.now.state.context, Director, Briefing, o.brief)
  {
    hide Good, Inv, Grows, LatestBudget, LatestBoundary, RecoverCheckpoints, OptionalRole, Beside, RoleDone, Known;
    RecoverBeside(env, r);
    BesideWorks(env, r, RecoverCheckpoints(r));
    OptionalRoleBeside(env, RecoverCheckpoints(r), Director, Briefing, o.briefLog, o.brief);
    var q := DirectorBriefing(env, r, o);
    BesideTrans(env, r, RecoverCheckpoints(r), q);
    BesideWorks(env, r, q);
    DoneIsKnown(env, q, Director, Briefing);
    SameContext(env, r, q);
    SameContext(env, r, RecoverCheckpoints(r));
  }

  /** What was reached stays reached beside advisory work. */
  lemma BesideReached(env: Env, n: Node, p: Run, q: Run)
    requires Good(env, p) && Beside(env, p, q) && Reached(env, n, p.now)
    ensures Reached(env, n, q.now)
  {
    hide Good, Inv, Aside, Reached;
    NowGood(env, p);
    NowGood(env, q);
    AsideReached(env, n, p.now, q.now);
  }

  // ---- the proposal ----

  lemma ChoosingIsLive(env: Env, d: Disk)
    requires Inv(env, d) && CurrentSkeptic(d.state).None? && !Stopped(d.state.status)
    ensures !Known(d.decisions, SkepticRole, Decision, d.state.context)
      && !Known(d.decisions, CriticRole, Review, d.state.context)
  {
    hide Ledger, Proposal, Spent, Working, Account, AllAllowed, Reasons, Verdicts, Authority, Budgets, ValidSnapshot,
      Executions, UniqueKeys, Known, ProposalOf;
  }

  /** The state in which an accepted proposal is recorded. */
  lemma ProposeWrites(env: Env, r1: Run, k: Skeptic)
    requires Good(env, r1) && r1.exit.Running? && Reached(env, ProposeNode, r1.now)
    requires JudgeSkeptic(env, r1.now.state, k, r1.now.state.available).Accept?
    ensures var r2 := Save(r1, r1.now.state.(accepted := r1.now.state.accepted + [k]));
      var r3 := Emit(PersistRequired(r2, SkepticRole, Decision, k.id), AgentEvent);
      && Good(env, r3) && r3.exit.Running? && r3.now.state.status.SelectingAdaptive? && Live(r3.now.state)
      && CurrentCritic(r3.now.state).None?
      && CurrentSkeptic(r3.now.state) == Some(k) && SameWork(r1.now, r3.now) && r3.now.state.step == r1.now.state.step
      && r3.now.decisions == r1.now.decisions
         + [Checkpoint(SkepticRole, Decision, r1.now.state.context, k.id, true)]
      && SameTraffic(r1.now.state, r3.now.state)
  {
    hide Good, Inv, Grows, LatestBudget, LatestBoundary, PersistRequired, Emit, Available, JudgeSkeptic, ProposalOf,
      ReviewOf, Missing, Known, Fresh;
    NowGood(env, r1);
    ChoosingIsLive(env, r1.now);
    AcceptKeeps(env, r1.now, k);
    var s2 := r1.now.state.(accepted := r1.now.state.accepted + [k]);
    SaveGood(env, r1, s2);
    var r2 := Save(r1, s2);
    PersistRequiredBeside(env, r2, SkepticRole, Decision, k.id);
    EmitBeside(env, PersistRequired(r2, SkepticRole, Decision, k.id), AgentEvent);
    BesideTrans(env, r2, PersistRequired(r2, SkepticRole, Decision, k.id),
        Emit(PersistRequired(r2, SkepticRole, Decision, k.id), AgentEvent));
  }

  /** How a required role's failure ends its node: with its own failure, or as invalid. */
  function Unanswered<D>(answer: Answer<D>): Exit {
    match answer
    case GaveUp(kind, status) => Aborted(kind, if status.BudgetExhausted? then status else Failed, None)
    case Accepted(_) => Aborted(InvalidModelOutput, Failed, None)
  }

  /** The records with that of a required role. */
  function WithRecord(d: Disk, role: Role, phase: Phase, decision: string): seq<Checkpoint> {
    d.decisions + [Checkpoint(role, phase, d.state.context, decision, true)]
  }

  /** A proposal is recorded exactly if its fields swear to what they must;
      otherwise the node ends with the client's failure, or as invalid. */
  predicate ProposedAs(env: Env, d: Disk, q: Run, answer: Answer<Skeptic>) {
    && (UniqueTools(env.specs) ==>
          (q.exit.Running? <==> answer.Accepted? && Sworn(env, d.state, answer.decision)))
    && (if q.exit.Running? then
          answer.Accepted? && q.now.decisions == WithRecord(d, SkepticRole, Decision, answer.decision.id)
        else q.exit == Unanswered(answer))
  }

  lemma ProposedFrom(env: Env, d: Disk, q: Run, answer: Answer<Skeptic>)
    requires q.exit.Running? <==>
      answer.Accepted? && JudgeSkeptic(env, d.state, answer.decision, d.state.available).Accept?
    requires q.exit.Running? ==> q.now.decisions == WithRecord(d, SkepticRole, Decision, answer.decision.id)
    requires !q.exit.Running? ==> q.exit == Unanswered(answer)
    ensures ProposedAs(env, d, q, answer)
  {
    hide JudgeSkeptic, Sworn, UniqueTools;
    if UniqueTools(env.specs) && answer.Accepted? { ProposalIsValid(env, d.state, answer.decision); }
  }

  /** What the Skeptic's client answered, if the validation lets it through. */
  lemma SkepticGood(env: Env, r: Run, o: Oracle)
    requires Good(env, r) && r.exit.Running? && Reached(env, ProposeNode, r.now)
    ensures var q := SkepticNode(env, r, o);
      && Good(env, q) && !q.exit.Faulted?
      && (q.exit.Running? ==>
          Reached(env, ReviewNode, q.now) && q.now.state.status.WaitingForCritic? && CurrentCritic(q.now.state).None?)
      && (q.exit.Running? ==> o.skeptic.Accepted? && CurrentSkeptic(q.now.state) == Some(o.skeptic.decision))
      && (q.exit.Running? <==>
          o.skeptic.Accepted? && JudgeSkeptic(env, r.now.state, o.skeptic.decision, r.now.state.available).Accept?)
      && ProposedAs(env, r.now, q, o.skeptic) && Told(r.now.state, o.skepticLog, q.now.state)
      && SameWork(r.now, q.now) && q.now.state.step == r.now.state.step
  {
    hide Good, Inv, Grows, LatestBudget, LatestBoundary, PersistRequired, Emit, Available, JudgeSkeptic, ProposalOf,
      ReviewOf, Missing, Tell, Fresh, CurrentSkeptic, ProposedAs, BriefedFor, CallsAfter, RetriesAfter, NotedBy;
    NowGood(env, r);
    var s := r.now.state;
    SelectingKeeps(env, r.now);
    assert Selecting(env, s) == s;
    SaveGood(env, r, s);
    var r0 := Save(r, s);
    assert r0.now == r.now;
    TellBeside(env, r0, o.skepticLog);
    TellCounts(env, r0, o.skepticLog);
    var r1 := Tell(r0, o.skepticLog);
    BesideReached(env, ProposeNode, r0, r1);
    match o.skeptic
    case GaveUp(kind, status) =>
      RaiseGood(env, r1, Aborted(kind, if status.BudgetExhausted? then status else Failed, None));
      ProposedFrom(env, r.now, SkepticNode(env, r, o), o.skeptic);
    case Accepted(k) =>
      ProposalJudgedBeside(env, r.now.state, r1.now.state, k);
      if JudgeSkeptic(env, r1.now.state, k, r1.now.state.available).Accept? {
        ProposeWrites(env, r1, k);
        var r2 := Save(r1, r1.now.state.(accepted := r1.now.state.accepted + [k]));
        var r3 := Emit(PersistRequired(r2, SkepticRole, Decision, k.id), AgentEvent);
        NowGood(env, r3);
        WaitingKeeps(env, r3.now);
        SaveGood(env, r3, r3.now.state.(status := WaitingForCritic));
        SameDecisions(r3.now.state, r3.now.state.(status := WaitingForCritic));
      } else {
        RaiseGood(env, r1, Aborted(InvalidModelOutput, Failed, None));
      }
      ProposedFrom(env, r.now, SkepticNode(env, r, o), o.skeptic);
  }

  /** A validation reads nothing that telemetry and advisory roles write. */
  lemma ProposalJudgedBeside(env: Env, s: State, t: State, k: Skeptic)
    requires t == s.(modelCalls := t.modelCalls, retries := t.retries, failures := t.failures,
        checkpoints := t.checkpoints)
    ensures JudgeSkeptic(env, s, k, s.available) == JudgeSkeptic(env, t, k, t.available)
  {
  }

  lemma SameDecisions(s: State, t: State)
    requires t == s.(status := t.status, revisions := t.revisions)
    ensures CurrentSkeptic(s) == CurrentSkeptic(t) && CurrentCritic(s) == CurrentCritic(t)
  {
  }

  // ---- the review ----

  lemma UnreviewedKey(env: Env, d: Disk)
    requires Inv(env, d) && CurrentCritic(d.state).None? && !Stopped(d.state.status)
    ensures !Known(d.decisions, CriticRole, Review, d.state.context)
  {
    hide Ledger, Proposal, Spent, Working, Account, AllAllowed, Reasons, Verdicts, Authority, Budgets, ValidSnapshot,
      Executions, UniqueKeys, Known, ProposalOf, ReviewOf;
  }

  lemma ReviewWrites(env: Env, r1: Run, c: Critic)
    requires Good(env, r1) && r1.exit.Running? && Open(r1.now.state) && CurrentCritic(r1.now.state).None?
    requires JudgeCritic(env, r1.now.state, CurrentSkeptic(r1.now.state).value, c, r1.now.state.available).Accept?
    ensures var q := Emit(PersistRequired(Save(r1, r1.now.state.(critics := r1.now.state.critics + [c])), CriticRole,
        Review, c.id), AgentEvent);
      && Good(env, q) && q.exit.Running? && Open(q.now.state) && CurrentCritic(q.now.state) == Some(c)
      && CurrentSkeptic(q.now.state) == CurrentSkeptic(r1.now.state) && q.now.state.status == r1.now.state.status
      && SameWork(r1.now, q.now) && q.now.state.step == r1.now.state.step
      && q.now.decisions == r1.now.decisions + [Checkpoint(CriticRole, Review, r1.now.state.context, c.id, true)]
      && SameTraffic(r1.now.state, q.now.state)
  {
    hide Good, Inv, Grows, LatestBudget, LatestBoundary, PersistRequired, Emit, JudgeCritic, ProposalOf, ReviewOf,
      Known, CurrentCritic;
    NowGood(env, r1);
    UnreviewedKey(env, r1.now);
    ReviewKeeps(env, r1.now, c);
    var s2 := r1.now.state.(critics := r1.now.state.critics + [c]);
    SaveGood(env, r1, s2);
    var r2 := Save(r1, s2);
    PersistRequiredBeside(env, r2, CriticRole, Review, c.id);
    var r3 := PersistRequired(r2, CriticRole, Review, c.id);
    EmitBeside(env, r3, AgentEvent);
    BesideTrans(env, r2, r3, Emit(r3, AgentEvent));
    SameReview(r2.now.state, Emit(r3, AgentEvent).now.state);
  }

  lemma SameReview(s: State, t: State)
    requires t == s.(modelCalls := t.modelCalls, retries := t.retries, failures := t.failures,
        checkpoints := t.checkpoints)
    ensures CurrentSkeptic(s) == CurrentSkeptic(t) && CurrentCritic(s) == CurrentCritic(t)
  {
  }

  /** The review stands already, or is recorded exactly if it attests; otherwise
      the node ends with the client's failure, a spent budget, or as invalid. */
  predicate ReviewedAs(env: Env, d: Disk, q: Run, answer: Answer<Critic>)
    requires CurrentSkeptic(d.state).Some?
  {
    var k := CurrentSkeptic(d.state).value;
    if CurrentCritic(d.state).Some? then q.exit.Running? && q.now == d
    else
      && (UniqueTools(env.specs) ==>
            (q.exit.Running? <==> answer.Accepted? && Attested(env, d.state, k, answer.decision)))
      && (if q.exit.Running? then
            answer.Accepted? && q.now.decisions == WithRecord(d, CriticRole, Review, answer.decision.id)
          else if answer.Accepted? && UniqueTools(env.specs) then
            q.exit == if Overspent(env, d.state, k, answer.decision) then Aborted(OutOfBudget, BudgetExhausted, None)
              else Unanswered(answer)
          else answer.GaveUp? ==> q.exit == Unanswered(answer))
  }

  lemma ReviewedFrom(env: Env, d: Disk, q: Run, answer: Answer<Critic>)
    requires CurrentSkeptic(d.state).Some? && CurrentCritic(d.state).None?
    requires answer.GaveUp? ==> q.exit == Unanswered(answer)
    requires answer.Accepted? ==>
      var j := JudgeCritic(env, d.state, CurrentSkeptic(d.state).value, answer.decision, d.state.available);
      && (q.exit.Running? <==> j.Accept?)
      && (j.Accept? ==> q.now.decisions == WithRecord(d, CriticRole, Review, answer.decision.id))
      && (j.OverBudget? ==> q.exit == Aborted(OutOfBudget, BudgetExhausted, None))
      && (j.Reject? ==> q.exit == Unanswered(answer))
    ensures ReviewedAs(env, d, q, answer)
  {
    hide JudgeCritic, Attested, Overspent, UniqueTools, CurrentSkeptic, CurrentCritic;
    if UniqueTools(env.specs) && answer.Accepted? {
      ReviewIsValid(env, d.state, CurrentSkeptic(d.state).value, answer.decision);
    }
  }

  lemma CriticGood(env: Env, r: Run, o: Oracle)
    requires Good(env, r) && r.exit.Running? && Reached(env, ReviewNode, r.now)
    ensures var q := CriticNode(env, r, o);
      && Good(env, q) && !q.exit.Faulted?
      && (q.exit.Running? ==> Reached(env, VerdictNode, q.now))
      && (q.exit.Running? ==>
          CurrentCritic(q.now.state)
          == (if CurrentCritic(r.now.state).Some? then CurrentCritic(r.now.state)
              else if o.critic.Accepted? then Some(o.critic.decision) else None))
      && ReviewedAs(env, r.now, q, o.critic)
      && (CurrentCritic(r.now.state).None? ==> Told(r.now.state, o.criticLog, q.now.state))
      && q.now.state.status == r.now.state.status && CurrentSkeptic(q.now.state) == CurrentSkeptic(r.now.state)
      && SameWork(r.now, q.now) && q.now.state.step == r.now.state.step
  {
    hide Good, Inv, Grows, LatestBudget, LatestBoundary, PersistRequired, Emit, JudgeCritic, ProposalOf, ReviewOf,
      Tell, CurrentCritic, ReviewedAs, CallsAfter, RetriesAfter, NotedBy;
    if CurrentCritic(r.now.state).None? {
      TellBeside(env, r, o.criticLog);
      TellCounts(env, r, o.criticLog);
      var r1 := Tell(r, o.criticLog);
      BesideReached(env, ReviewNode, r, r1);
      SameReview(r.now.state, r1.now.state);
      match o.critic
      case GaveUp(kind, status) =>
        RaiseGood(env, r1, Aborted(kind, if status.BudgetExhausted? then status else Failed, None));
        ReviewedFrom(env, r.now, CriticNode(env, r, o), o.critic);
      case Accepted(c) =>
        ReviewJudgedBeside(env, r.now.state, r1.now.state, CurrentSkeptic(r.now.state).value, c);
        var j := JudgeCritic(env, r1.now.state, CurrentSkeptic(r.now.state).value, c, r1.now.state.available);
        if j.Accept? {
          ReviewWrites(env, r1, c);
        } else if j.OverBudget? {
          RaiseGood(env, r1, Aborted(OutOfBudget, BudgetExhausted, None));
        } else {
          RaiseGood(env, r1, Aborted(InvalidModelOutput, Failed, None));
        }
        ReviewedFrom(env, r.now, CriticNode(env, r, o), o.critic);
    } else {
      ReviewedBefore(env, r, o.critic);
    }
  }

  lemma ReviewedBefore(env: Env, r: Run, answer: Answer<Critic>)
    requires r.exit.Running? && CurrentSkeptic(r.now.state).Some? && CurrentCritic(r.now.state).Some?
    ensures ReviewedAs(env, r.now, r, answer)
  {
  }

  lemma ReviewJudgedBeside(env: Env, s: State, t: State, k: Skeptic, c: Critic)
    requires t == s.(modelCalls := t.modelCalls, retries := t.retries, failures := t.failures,
        checkpoints := t.checkpoints)
    ensures JudgeCritic(env, s, k, c, s.available) == JudgeCritic(env, t, k, c, t.available)
  {
  }

  // ---- the verdict ----

  lemma CountedFacts(env: Env, d: Disk)
    requires Inv(env, d) && !Stopped(d.state.status)
    ensures d.state.revisions <= Revisions(d.state.critics) <= d.state.revisions + 1
      && d.state.revisions <= d.state.limits.revisions
    ensures Revisions(d.state.critics) == d.state.revisions + 1 ==>
      Open(d.state) && CurrentCritic(d.state).Some? && CurrentCritic(d.state).value.verdict.Revise?
        && d.state.revisions < d.state.limits.revisions
  {
    hide Ledger, Proposal, Spent, Account, AllAllowed, Reasons, Verdicts, Authority, Roles, ValidSnapshot, Executions,
      ProposalOf, ReviewOf, Revisions, NoAdaptive, Proposed, Reviewed, Missing;
  }

  lemma {:induction false} RevisionSeen(cs: seq<Critic>, k: Skeptic)
    requires ReviewOf(cs, k).Some? && ReviewOf(cs, k).value.verdict.Revise?
    ensures Revisions(cs) >= 1
  {
    if cs != [] && !(cs[|cs| - 1].step == k.step && cs[|cs| - 1].proposal == k.id) { RevisionSeen(cs[..|cs| - 1], k); }
  }

  /** The verdict is resolved without an abort: the revision budget was
      checked when the review was accepted. */
  lemma VerdictGood(env: Env, r: Run)
    requires Good(env, r) && r.exit.Running? && Reached(env, VerdictNode, r.now)
    ensures var step := CriticRoute(r); var s := r.now.state;
      var stop := CurrentCritic(s).value.verdict.Veto?
        || Chosen(CurrentSkeptic(s).value, CurrentCritic(s).value).0.Stop?;
      && Good(env, step.r) && step.r.exit.Running? && step.route == Some(if stop then Finalize else ExecuteApproved)
      && Reached(env, if stop then FinalNode else AdaptiveNode, step.r.now)
      && step.r.now.state == s.(revisions := step.r.now.state.revisions) && step.r.now.ledger == r.now.ledger
      && Open(step.r.now.state) && CurrentCritic(step.r.now.state) == CurrentCritic(s)
      && CurrentSkeptic(step.r.now.state) == CurrentSkeptic(s)
      && (forall action, params :: Wanted(s, action, params) ==> (stop <==> Vetoed(s) || action.Stop?))
  {
    hide Good, Inv, Grows, LatestBudget, LatestBoundary, Emit, ProposalOf, ReviewOf, Revisions;
    NowGood(env, r);
    var s := r.now.state;
    var c := CurrentCritic(s).value;
    var n := Revisions(s.critics);
    CountedFacts(env, r.now);
    if c.verdict.Revise? { RevisionSeen(s.critics, CurrentSkeptic(s).value); }
    if c.verdict.Revise? && s.revisions < n {
      ResolvedKeeps(env, r.now);
      SaveGood(env, r, s.(revisions := n));
      SameDecisions(s, s.(revisions := n));
    }
    var step := ResolveVerdict(r);
    EmitBeside(env, step.r, RouteTaken);
    NowGood(env, Emit(step.r, RouteTaken));
    OpenIsFresh(env, Emit(step.r, RouteTaken).now);
  }
}
