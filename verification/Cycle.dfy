/** One `advance`: from any durable state, through the graph, to its end. */
module Cycle {
  import opened Domain
  import opened Store
  import opened Policy
  import opened Nodes
  import opened Invariant
  import opened Steps
  import opened Writes
  import opened Committing
  import opened Recovery
  import opened Executing
  import opened Routing
  import opened NodeSafety
  import opened Outcomes

  /** The cycle ended where the next one must charge a step. */
  predicate AtRest(d: Disk) {
    (d.state.status.Initialized? || d.state.status.VettingMandatory? || d.state.status.SelectingAdaptive?)
      && RequiresBegin(d)
  }

  /** The step's one tool call was made, and its one record committed. */
  predicate ActedOnce(d: Disk, q: Disk) {
    q.state.step == d.state.step && q.state.toolCalls == d.state.toolCalls + 1 && |q.ledger| == |d.ledger| + 1
      && AtRest(q)
  }

  /** How a walk from `d` may end. */
  ghost predicate Ended(env: Env, d: Disk, q: Run) {
    && Good(env, q) && AtMostOne(d, q.now)
    && (q.exit.Running? ==> Stopped(q.now.state.status) || ActedOnce(d, q.now))
  }

  lemma WalkEnd(env: Env, r: Run, route: Option<Route>, o: Oracle, fuel: nat)
    ensures Walk(env, End, r, route, o, fuel) == r
  {
  }

  /** One node of a walk that goes on. */
  lemma WalkNode(env: Env, n: Node, r: Run, route: Option<Route>, o: Oracle, fuel: nat, step: Step)
    requires !n.End? && r.exit.Running? && fuel > 0 && step == Perform(env, n, r, o) && step.r.exit.Running?
    ensures var chosen := if step.route.Some? then step.route else route;
      Walk(env, n, r, route, o, fuel) == match Next(n, chosen)
        case None => Raise(step.r, Faulted(NoRoute))
        case Some(m) => Walk(env, m, step.r, chosen, o, fuel - 1)
  {
    hide Next, Perform;
  }

  lemma WalkStop(env: Env, n: Node, r: Run, route: Option<Route>, o: Oracle, fuel: nat)
    requires !n.End? && r.exit.Running? && fuel > 0 && !Perform(env, n, r, o).r.exit.Running?
    ensures Walk(env, n, r, route, o, fuel) == Perform(env, n, r, o).r
  {
    hide Next, Perform;
  }

  /** The nodes that end a run. */
  lemma FinalTail(env: Env, n: Node, r: Run, route: Option<Route>, o: Oracle, fuel: nat)
    requires Good(env, r) && r.exit.Running? && Reached(env, n, r.now) && (n.FinalNode? || n.TerminalNode?) && fuel >= 1
    ensures var q := Walk(env, n, r, route, o, fuel);
      Good(env, q) && AtMostOne(r.now, q.now) && q.exit.Running? && Stopped(q.now.state.status)
    ensures n.FinalNode? ==>
      var q := Walk(env, n, r, route, o, fuel);
      var disposition := DispositionOf(Codes(r.now.ledger), r.now.state.candidates != []);
      && (disposition.Some? ==> q.now.state.status.ReadyToLock? && q.now.state.disposition == disposition)
      && (disposition.None? ==> q.now.state.status.InsufficientEvidence?)
    ensures n.TerminalNode? ==> var q := Walk(env, n, r, route, o, fuel);
      EndedIn(r.now, q.now, InsufficientEvidence) && Explained(r.now, q.now, NotEnoughEvidence, None)
  {
    hide Inv, Good, Grows, FinalizeNode, TerminateRun, ForFinal, Codes, DispositionOf, Walk, First, Extends;
    if n.FinalNode? { FinalGood(env, r, o); }
      else { TerminateGood(env, r, NotEnoughEvidence, InsufficientEvidence, None); }
    var step := Perform(env, n, r, o);
    WalkNode(env, n, r, route, o, fuel, step);
    WalkEnd(env, step.r, route, o, fuel - 1);
  }

  /** How an evaluated result ends the cycle. */
  predicate EvaluatedEnd(d: Disk, q: Disk) {
    && (Stopped(q.state.status) || (Evaluated(d, q) && !q.state.status.Finalizing?))
    && q.state.step == d.state.step && q.state.toolCalls == d.state.toolCalls && q.state.limits == d.state.limits
    && |q.ledger| == |d.ledger|
  }

  /** A committed result is evaluated, and the cycle is over. */
  lemma EvaluateTail(env: Env, r: Run, route: Option<Route>, o: Oracle, fuel: nat)
    requires Good(env, r) && r.exit.Running? && r.now.state.status.UpdatingEvidence? && fuel >= 2
    ensures var q := Walk(env, EvaluateNode, r, route, o, fuel);
      Good(env, q) && q.exit.Running? && EvaluatedEnd(r.now, q.now)
  {
    hide Inv, Good, Grows, Evaluate, LatestBudget, LatestBoundary, AtMostOne, ForFinal, Walk;
    EvaluateGood(env, r);
    var step := Evaluate(env, r);
    WalkNode(env, EvaluateNode, r, route, o, fuel, step);
    if step.r.now.state.status.Finalizing? {
      FinalizingTail(env, r.now, step.r, o, fuel - 1);
    } else {
      WalkEnd(env, step.r, Some(NoopTerminal), o, fuel - 1);
    }
  }

  lemma FinalizingTail(env: Env, d: Disk, r: Run, o: Oracle, fuel: nat)
    requires Good(env, r) && r.exit.Running? && r.now.state.status.Finalizing? && Evaluated(d, r.now) && fuel >= 1
    ensures var q := Walk(env, FinalNode, r, Some(Finalize), o, fuel);
      Good(env, q) && q.exit.Running? && EvaluatedEnd(d, q.now)
  {
    hide Inv, Good, Grows, LatestBudget, LatestBoundary, Codes, DispositionOf, Walk, FinalReason;
    FinalTail(env, FinalNode, r, Some(Finalize), o, fuel);
    SameLedger(env, r, Walk(env, FinalNode, r, Some(Finalize), o, fuel), o, fuel);
  }

  lemma SameLedger(env: Env, r: Run, q: Run, o: Oracle, fuel: nat)
    requires Good(env, r) && r.exit.Running? && Reached(env, FinalNode, r.now) && fuel >= 1
    requires q == Walk(env, FinalNode, r, Some(Finalize), o, fuel)
    ensures q.now.ledger == r.now.ledger && q.now.state.toolCalls == r.now.state.toolCalls
  {
    hide Inv, Good, Grows, FinalizeNode, ForFinal, Codes, DispositionOf;
    FinalGood(env, r, o);
    WalkEnd(env, FinalizeNode(env, r, o), Some(Finalize), o, fuel - 1);
  }

  /** After a performed action the evaluation brings the cycle to rest or to its end. */
  lemma PerformedTail(env: Env, d: Disk, r: Run, route: Option<Route>, o: Oracle, fuel: nat)
    requires Good(env, r) && r.exit.Running? && Performed(d, r.now) && fuel >= 2
    ensures var q := Walk(env, EvaluateNode, r, route, o, fuel); Ended(env, d, q) && q.exit.Running?
  {
    hide Inv, Good, Grows, LatestBudget, LatestBoundary, Evaluated, Walk;
    EvaluateTail(env, r, route, o, fuel);
    var q := Walk(env, EvaluateNode, r, route, o, fuel);
    if !Stopped(q.now.state.status) { RestAfter(d, r.now, q.now); }
  }

  lemma RestAfter(d: Disk, p: Disk, q: Disk)
    requires Announced(d, p) && Evaluated(p, q) && !Stopped(q.state.status) && !q.state.status.Finalizing?
    ensures AtRest(q)
  {
    hide LatestBudget, LatestBoundary;
  }

  lemma MandatoryTail(env: Env, r: Run, o: Oracle, fuel: nat)
    requires Good(env, r) && r.exit.Running? && Reached(env, MandatoryNode, r.now) && Registered(env) && fuel >= 3
    ensures var q := Walk(env, MandatoryNode, r, Some(RunMandatory), o, fuel);
      var runnable := FirstRunnable(env.specs, Missing(r.now.state), CompletedSet(r.now.state)).Some?;
      && Ended(env, r.now, q)
      && (q.exit.Faulted? ==> q.exit.fault.NoRoute? && q.now.state.status.InsufficientEvidence?)
      && (q.exit.Faulted? <==> !runnable)
  {
    hide Inv, Good, Grows, Mandatory, LatestBudget, LatestBoundary, FirstRunnable, Evaluate, Performed, Missing,
      Charged, Walk, First, Extends, Ended, AtMostOne;
    MandatoryGood(env, r);
    var q := Mandatory(env, r);
    if q.exit.Running? {
      WalkNode(env, MandatoryNode, r, Some(RunMandatory), o, fuel, Step(q, None));
      if Stopped(q.now.state.status) {
        EvaluateGood(env, q);
        WalkNode(env, EvaluateNode, q, Some(RunMandatory), o, fuel - 1, Step(q, None));
        RaiseGood(env, q, Faulted(NoRoute));
        AbortEnded(env, r.now, Raise(q, Faulted(NoRoute)));
      } else {
        PerformedTail(env, r.now, q, Some(RunMandatory), o, fuel - 1);
      }
    } else {
      WalkStop(env, MandatoryNode, r, Some(RunMandatory), o, fuel);
      AbortEnded(env, r.now, q);
    }
  }

  // ---- the adaptive path ----

  /** The approved experiment of a decided proposal. */
  lemma AdaptiveTail(env: Env, r: Run, route: Option<Route>, o: Oracle, fuel: nat)
    requires Good(env, r) && r.exit.Running? && ForExecution(r.now.state) && Charged(r.now) && Registered(env)
      && fuel >= 3
    ensures var q := Walk(env, AdaptiveNode, r, route, o, fuel);
      && Ended(env, r.now, q)
      && (q.exit.Faulted? <==> Stranded(r.now.state) && env.inputsReady(Request(r.now.state).0, r.now.ledger))
      && (q.exit.Faulted? ==> q.exit.fault.IllegalTransition?)
  {
    hide Inv, Good, Grows, ExecuteAdaptive, LatestBudget, LatestBoundary, Performed, Charged, CurrentSkeptic,
      CurrentCritic, Chosen, Decided, Live, Open, Walk, First, Extends, Ended, AtMostOne, Stranded, Request;
    AdaptiveGood(env, r);
    var q := ExecuteAdaptive(env, r);
    if q.exit.Running? {
      WalkNode(env, AdaptiveNode, r, route, o, fuel, Step(q, None));
      PerformedTail(env, r.now, q, route, o, fuel - 1);
    } else {
      WalkStop(env, AdaptiveNode, r, route, o, fuel);
      AbortEnded(env, r.now, q);
    }
  }

  /** The review of the proposal in `s`: the recorded one, or the client's. */
  function Review(s: State, o: Oracle): Option<Critic> {
    if CurrentCritic(s).Some? then CurrentCritic(s)
    else if o.critic.Accepted? then Some(o.critic.decision) else None
  }

  /** The review sends the experiment to execution with its inputs at hand. */
  predicate Executes(env: Env, k: Skeptic, c: Critic, ledger: seq<Evidence>) {
    !c.verdict.Veto? && Chosen(k, c).0.Use? && env.inputsReady(Chosen(k, c).0.tool, ledger)
  }

  lemma StrandedExecutes(env: Env, s: State, t: State, ledger: seq<Evidence>)
    requires ForExecution(t) && Open(t) && CurrentCritic(t) == CurrentCritic(s)
      && CurrentSkeptic(t) == CurrentSkeptic(s) && t.status == s.status
    ensures Stranded(t) && env.inputsReady(Request(t).0, ledger) <==>
      s.status.SelectingAdaptive? && Executes(env, CurrentSkeptic(s).value, CurrentCritic(s).value, ledger)
  {
    hide ProposalOf, ReviewOf, Revisions;
  }

  /** Whether the verdict ends the run rather than sending it to execution. */
  predicate Ending(s: State)
    requires CurrentCritic(s).Some?
  {
    CurrentCritic(s).value.verdict.Veto? || Chosen(CurrentSkeptic(s).value, CurrentCritic(s).value).0.Stop?
  }

  predicate ReviewExecutes(env: Env, d: Disk, o: Oracle) {
    && CurrentSkeptic(d.state).Some? && Review(d.state, o).Some?
    && Executes(env, CurrentSkeptic(d.state).value, Review(d.state, o).value, d.ledger)
  }

  lemma VerdictTail(env: Env, r: Run, route: Option<Route>, o: Oracle, fuel: nat)
    requires Good(env, r) && r.exit.Running? && Open(r.now.state) && CurrentCritic(r.now.state).Some?
      && Registered(env) && fuel >= 4
    ensures var q := Walk(env, VerdictNode, r, route, o, fuel); var s := r.now.state;
      && Ended(env, r.now, q)
      && (q.exit.Faulted? <==> s.status.SelectingAdaptive? && ReviewExecutes(env, r.now, o))
      && (q.exit.Faulted? ==> q.exit.fault.IllegalTransition?)
  {
    hide Inv, Good, Grows, CriticRoute, LatestBudget, LatestBoundary, ProposalOf, ReviewOf, Revisions, Open,
      CurrentSkeptic, CurrentCritic, Decided, Charged, Stranded, Request, ForFinal, Ended, Chosen, Walk, First,
      Extends;
    VerdictGood(env, r);
    var step := CriticRoute(r);
    WalkNode(env, VerdictNode, r, route, o, fuel, step);
    var s := r.now.state;
    OpenHasSkeptic(s);
    if Ending(s) {
      FinalTail(env, FinalNode, step.r, step.route, o, fuel - 1);
      FinalEnded(env, r.now, step.r, o, fuel - 1);
    } else {
      AdaptiveTail(env, step.r, step.route, o, fuel - 1);
      StrandedExecutes(env, s, step.r.now.state, step.r.now.ledger);
      EndedFrom(env, r.now, step.r.now, Walk(env, AdaptiveNode, step.r, step.route, o, fuel - 1));
    }
  }

  lemma FinalEnded(env: Env, d: Disk, r: Run, o: Oracle, fuel: nat)
    requires Good(env, r) && r.exit.Running? && Reached(env, FinalNode, r.now) && fuel >= 1
    requires d.ledger == r.now.ledger && r.now.state.toolCalls == d.state.toolCalls
      && r.now.state.step == d.state.step && r.now.state.limits == d.state.limits
    ensures Ended(env, d, Walk(env, FinalNode, r, Some(Finalize), o, fuel))
  {
    hide Inv, Good, Grows, ForFinal, Walk, Codes, DispositionOf;
    FinalTail(env, FinalNode, r, Some(Finalize), o, fuel);
  }

  /** A node before the action that left the work alone does not matter to the end. */
  lemma EndedFrom(env: Env, d: Disk, p: Disk, q: Run)
    requires Ended(env, p, q) && |p.ledger| == |d.ledger| && p.state.toolCalls == d.state.toolCalls
      && p.state.step == d.state.step && p.state.limits == d.state.limits
    ensures Ended(env, d, q)
  {
    hide Good, AtRest;
  }

  lemma ReviewTail(env: Env, r: Run, route: Option<Route>, o: Oracle, fuel: nat)
    requires Good(env, r) && r.exit.Running? && Open(r.now.state) && Registered(env) && fuel >= 5
    ensures var q := Walk(env, ReviewNode, r, route, o, fuel); var s := r.now.state;
      && Ended(env, r.now, q)
      && (q.exit.Faulted? ==> q.exit.fault.IllegalTransition?)
      && (q.exit.Faulted? <==>
          CriticNode(env, r, o).exit.Running? && s.status.SelectingAdaptive? && ReviewExecutes(env, r.now, o))
  {
    hide Inv, Good, Grows, CriticNode, LatestBudget, LatestBoundary, CurrentSkeptic, CurrentCritic, Executes, Ended,
      Walk, First, Extends;
    CriticGood(env, r, o);
    var q := CriticNode(env, r, o);
    if q.exit.Running? {
      WalkNode(env, ReviewNode, r, route, o, fuel, Step(q, None));
      VerdictTail(env, q, route, o, fuel - 1);
      EndedFrom(env, r.now, q.now, Walk(env, VerdictNode, q, route, o, fuel - 1));
    } else {
      WalkStop(env, ReviewNode, r, route, o, fuel);
      AbortEnded(env, r.now, q);
    }
  }

  lemma AbortEnded(env: Env, d: Disk, q: Run)
    requires Good(env, q) && !q.exit.Running? && AtMostOne(d, q.now)
    ensures Ended(env, d, q)
  {
    hide Good;
  }

  lemma ProposeTail(env: Env, r: Run, route: Option<Route>, o: Oracle, fuel: nat)
    requires Good(env, r) && r.exit.Running? && Reached(env, ProposeNode, r.now) && Registered(env) && fuel >= 6
    ensures var q := Walk(env, ProposeNode, r, route, o, fuel); Ended(env, r.now, q) && !q.exit.Faulted?
  {
    hide Inv, Good, Grows, SkepticNode, LatestBudget, LatestBoundary, CurrentSkeptic, CurrentCritic, Live, Executes,
      CriticNode, Choosing, Walk, First, Extends, JudgeSkeptic;
    SkepticGood(env, r, o);
    var q := SkepticNode(env, r, o);
    if !q.exit.Running? { WalkStop(env, ProposeNode, r, route, o, fuel); }
    if q.exit.Running? {
      WalkNode(env, ProposeNode, r, route, o, fuel, Step(q, None));
      ReviewTail(env, q, route, o, fuel - 1);
      EndedFrom(env, r.now, q.now, Walk(env, ReviewNode, q, route, o, fuel - 1));
    }
  }

  lemma BriefingTail(env: Env, r: Run, route: Option<Route>, o: Oracle, fuel: nat)
    requires Good(env, r) && r.exit.Running? && Reached(env, BriefingNode, r.now) && Registered(env) && fuel >= 7
    ensures var q := Walk(env, BriefingNode, r, route, o, fuel); Ended(env, r.now, q) && !q.exit.Faulted?
  {
    hide Inv, Good, Grows, DirectorBriefing, LatestBudget, LatestBoundary, CurrentSkeptic, Available, Missing, Fresh,
      Walk, First, Extends;
    BriefingBeside(env, r, o);
    var q := DirectorBriefing(env, r, o);
    WalkNode(env, BriefingNode, r, route, o, fuel, Step(q, None));
    BesideReached(env, BriefingNode, r, q);
    SameContext(env, r, q);
    ProposeTail(env, q, route, o, fuel - 1);
    EndedFrom(env, r.now, q.now, Walk(env, ProposeNode, q, route, o, fuel - 1));
  }

  lemma SpecialistTail(env: Env, r: Run, route: Option<Route>, o: Oracle, fuel: nat)
    requires Good(env, r) && r.exit.Running? && Reached(env, SpecialistNode, r.now) && Registered(env) && fuel >= 8
    ensures var q := Walk(env, SpecialistNode, r, route, o, fuel); Ended(env, r.now, q) && !q.exit.Faulted?
  {
    hide Inv, Good, Grows, Specialists, LatestBudget, LatestBoundary, CurrentSkeptic, Available, Missing, Fresh, Walk,
      First, Extends;
    SpecialistsBeside(env, r, o);
    var q := Specialists(env, r, o);
    WalkNode(env, SpecialistNode, r, route, o, fuel, Step(q, None));
    BesideReached(env, SpecialistNode, r, q);
    SameContext(env, r, q);
    BriefingTail(env, q, route, o, fuel - 1);
    EndedFrom(env, r.now, q.now, Walk(env, BriefingNode, q, route, o, fuel - 1));
  }

  // ---- the whole cycle ----

  /** The review of an open proposal is at hand, or the client's answer passes its validation. */
  predicate Reviewable(env: Env, d: Disk, o: Oracle) {
    CurrentSkeptic(d.state).Some? && (CurrentCritic(d.state).Some? || (o.critic.Accepted?
      && JudgeCritic(env, d.state, CurrentSkeptic(d.state).value, o.critic.decision, d.state.available).Accept?))
  }

  /** The cycle would start an experiment from the status it was chosen in. */
  predicate StartsStranded(env: Env, d: Disk, o: Oracle) {
    Stranded(d.state) && Reviewable(env, d, o) && ReviewExecutes(env, d, o)
  }

  /** No registered tool can run a missing mandatory test. */
  predicate Unrunnable(env: Env, d: Disk) {
    (d.state.status.Initialized? || d.state.status.VettingMandatory?) && !OutOfSteps(d)
      && FirstRunnable(env.specs, Missing(d.state), CompletedSet(d.state)).None?
  }

  /** A validation reads nothing that telemetry and advisory roles write. */
  lemma JudgedBeside(env: Env, s: State, t: State, k: Skeptic, c: Critic)
    requires t == s.(modelCalls := t.modelCalls, retries := t.retries, failures := t.failures,
        checkpoints := t.checkpoints)
    ensures JudgeCritic(env, s, k, c, s.available) == JudgeCritic(env, t, k, c, t.available)
    ensures CurrentSkeptic(s) == CurrentSkeptic(t) && CurrentCritic(s) == CurrentCritic(t) && (Live(s) <==> Live(t))
  {
    hide ProposalOf, ReviewOf;
  }

  lemma ReviewRuns(env: Env, r: Run, o: Oracle)
    requires Good(env, r) && r.exit.Running? && Open(r.now.state)
    ensures CriticNode(env, r, o).exit.Running? <==> Reviewable(env, r.now, o)
  {
    hide Good, Inv, Grows, LatestBudget, LatestBoundary, PersistRequired, Emit, JudgeCritic, ProposalOf, ReviewOf,
      Tell, CurrentCritic;
    if CurrentCritic(r.now.state).None? {
      TellBeside(env, r, o.criticLog);
      var r1 := Tell(r, o.criticLog);
      BesideReached(env, ReviewNode, r, r1);
      SameReview(r.now.state, r1.now.state);
      if o.critic.Accepted? {
        var c := o.critic.decision;
        JudgedBeside(env, r.now.state, r1.now.state, CurrentSkeptic(r.now.state).value, c);
        if JudgeCritic(env, r1.now.state, CurrentSkeptic(r.now.state).value, c, r1.now.state.available).Accept? {
          ReviewWrites(env, r1, c);
        }
      }
    }
  }

  lemma StrandedBeside(env: Env, d: Disk, e: Disk, o: Oracle)
    requires Aside(d, e)
    ensures StartsStranded(env, d, o) <==> StartsStranded(env, e, o)
    ensures Stranded(d.state) <==> Stranded(e.state)
  {
    hide JudgeCritic, CurrentSkeptic, CurrentCritic, LatestBudget, LatestBoundary;
    if CurrentSkeptic(d.state).Some?
        && o.critic.Accepted? { JudgedBeside(env, d.state, e.state, CurrentSkeptic(d.state).value, o.critic.decision); }
    else { SameReview(d.state, e.state); }
  }

  /** What the reached node means for a stranded step. */
  lemma StrandedReaches(env: Env, n: Node, d: Disk, o: Oracle)
    requires Reached(env, n, d)
      && (n.MandatoryNode? || n.SpecialistNode? || n.BriefingNode? || n.ProposeNode? || n.FinalNode?
          || n.EvaluateNode? || n.TerminalNode? || n.End?)
    ensures !StartsStranded(env, d, o)
  {
    hide JudgeCritic, ProposalOf, ReviewOf, LatestBudget, LatestBoundary, Available, Missing;
  }

  /** How a cycle that neither stopped nor failed moved on. */
  predicate Moved(d: Disk, q: Disk) {
    if d.state.status.UpdatingEvidence? then
      q.state.step == d.state.step && q.state.toolCalls == d.state.toolCalls && |q.ledger| == |d.ledger|
        && (q.state.status.VettingMandatory? || q.state.status.SelectingAdaptive?)
        && (AtRest(q) <==> LatestBudget(d.trace, d.state.step) < LatestBoundary(d.trace, d.state.step))
    else
      q.state.step == d.state.step + (if RequiresBegin(d) then 1 else 0)
        && q.state.toolCalls == d.state.toolCalls + 1 && |q.ledger| == |d.ledger| + 1 && AtRest(q)
  }

  /** A cycle makes at most one tool call. */
  predicate Little(d: Disk, q: Disk) {
    && d.state.step <= q.state.step <= d.state.step + 1
    && d.state.toolCalls <= q.state.toolCalls <= d.state.toolCalls + 1
    && |d.ledger| <= |q.ledger| <= |d.ledger| + 1 && q.state.limits == d.state.limits
  }

  /** The outcome of everything after recovery, for any answers of the models. */
  ghost predicate Concluded(env: Env, d: Disk, q: Run, o: Oracle) {
    && Good(env, q) && Little(d, q.now)
    && (q.exit.Running? ==> Stopped(q.now.state.status) || Moved(d, q.now))
    && (q.exit.Faulted? <==> StartsStranded(env, d, o) || Unrunnable(env, d))
    && (q.exit.Faulted? ==> q.exit.fault == (if StartsStranded(env, d, o) then IllegalTransition else NoRoute))
  }

  lemma MovedFrom(env: Env, d: Disk, p: Disk, q: Disk)
    requires SameWork(d, p) && StepTaken(d, p) && p.state.limits == d.state.limits && !d.state.status.UpdatingEvidence?
    requires AtMostOne(p, q) && (Stopped(q.state.status) || ActedOnce(p, q))
    requires !Stopped(d.state.status) && !d.state.status.Finalizing?
    ensures Little(d, q) && (Stopped(q.state.status) || Moved(d, q))
  {
    hide RequiresBegin, LatestBudget, LatestBoundary;
  }

  lemma LittleFrom(d: Disk, p: Disk, q: Disk)
    requires SameWork(d, p) && StepTaken(d, p) && AtMostOne(p, q)
    ensures Little(d, q)
  {
    hide RequiresBegin, LatestBudget, LatestBoundary;
  }

  /** The paths that decide about an experiment. */
  lemma ReviewPath(env: Env, r: Run, step: Step, o: Oracle, fuel: nat)
    requires Good(env, r) && r.exit.Running? && Good(env, step.r) && step.r.exit.Running? && Routed(env, r.now, step)
      && Registered(env) && fuel >= 8
    requires step.route == Some(ResumeCritic) || step.route == Some(ExecuteApproved)
    ensures Ended(env, step.r.now, Walk(env, Next(RouteNode, step.route).value, step.r, step.route, o, fuel))
    ensures var q := Walk(env, Next(RouteNode, step.route).value, step.r, step.route, o, fuel);
      && (q.exit.Faulted? ==> q.exit.fault.IllegalTransition?) && (q.exit.Faulted? <==> StartsStranded(env, r.now, o))
  {
    hide Inv, Good, Grows, LatestBudget, LatestBoundary, ProposalOf, ReviewOf, Revisions, Ended, StepTaken,
      CriticNode, JudgeCritic, Walk, RequiresBegin, SameWork, Charged;
    StrandedBeside(env, r.now, step.r.now, o);
    var s := step.r.now.state;
    if step.route == Some(ResumeCritic) {
      ReviewTail(env, step.r, step.route, o, fuel);
      ReviewRuns(env, step.r, o);
    } else {
      AdaptiveTail(env, step.r, step.route, o, fuel);
    }
  }

  lemma OtherPath(env: Env, r: Run, step: Step, o: Oracle, fuel: nat)
    requires Good(env, r) && r.exit.Running? && Good(env, step.r) && step.r.exit.Running? && Routed(env, r.now, step)
      && Registered(env) && fuel >= 8
    requires step.route != Some(ResumeCritic) && step.route != Some(ExecuteApproved)
      && step.route != Some(EvaluateResult)
    ensures Ended(env, step.r.now, Walk(env, Next(RouteNode, step.route).value, step.r, step.route, o, fuel))
    ensures var q := Walk(env, Next(RouteNode, step.route).value, step.r, step.route, o, fuel);
      && (q.exit.Faulted? ==> q.exit.fault.NoRoute? && step.route == Some(RunMandatory))
      && (step.route == Some(RunMandatory) ==>
          (q.exit.Faulted? <==> FirstRunnable(env.specs, Missing(r.now.state), CompletedSet(r.now.state)).None?))
  {
    hide Inv, Good, Grows, LatestBudget, LatestBoundary, RequiresBegin, StepTaken, Walk, Kept, Choosing, ForFinal,
      CurrentSkeptic, Charged, FirstRunnable;
    match step.route.value
    case RunMandatory => MandatoryTail(env, step.r, o, fuel);
    case RunSpecialists => SpecialistTail(env, step.r, step.route, o, fuel);
    case CallDirectorBriefing => BriefingTail(env, step.r, step.route, o, fuel);
    case CallSkeptic => ProposeTail(env, step.r, step.route, o, fuel);
    case Finalize => FinalTail(env, FinalNode, step.r, step.route, o, fuel);
    case Terminate => FinalTail(env, TerminalNode, step.r, step.route, o, fuel);
    case NoopTerminal => WalkEnd(env, step.r, step.route, o, fuel);
  }

  lemma EvaluationMoves(d: Disk, p: Disk, q: Disk)
    requires d.state.status.UpdatingEvidence? && Charged(d) && SameWork(d, p) && Aside(d, p) && EvaluatedEnd(p, q)
    ensures Little(d, q) && (Stopped(q.state.status) || Moved(d, q))
    ensures q.state.step == d.state.step && q.state.toolCalls == d.state.toolCalls && |q.ledger| == |d.ledger|
  {
    hide LatestBudget, LatestBoundary, PendingEvaluation;
    if !Stopped(q.state.status) { EvaluatedRest(p, q); }
  }

  lemma EvaluatedRest(p: Disk, q: Disk)
    requires Evaluated(p, q) && (q.state.status.VettingMandatory? || q.state.status.SelectingAdaptive?)
    ensures AtRest(q) <==>
      LatestBudget(p.trace, p.state.step) == 0
        || LatestBudget(p.trace, p.state.step) < LatestBoundary(p.trace, p.state.step)
  {
    hide LatestBudget, LatestBoundary;
  }
}
