/** The models do not decide the verdict: until an experiment is to be chosen,
    no answer of any inference client reaches the state, and what a decisive
    code among the evidence decides is out of every model's reach. */
module Interference {
  import opened Domain
  import opened Store
  import opened Policy
  import opened Nodes
  import opened Invariant
  import opened Steps
  import opened Writes
  import opened Committing
  import opened Recovery
  import opened Executing
  import opened Routing
  import opened NodeSafety
  import opened Outcomes
  import opened Cycle
  import opened Advancing

  /** Two runs ended alike: same status, verdict, reason and evidence. */
  predicate SameVerdict(d: Disk, e: Disk) {
    && Stopped(d.state.status) && e.state.status == d.state.status && e.state.disposition == d.state.disposition
    && e.ledger == d.ledger && e.state.step == d.state.step && e.state.toolCalls == d.state.toolCalls
    && (d.state.status.ReadyToLock? ==> e.state.terminalReason == d.state.terminalReason)
  }

  /** The two runs are one, or ended alike. */
  predicate Alike(p: Run, q: Run) {
    p == q || (p.exit.Running? && q.exit.Running? && SameVerdict(p.now, q.now))
  }

  lemma FinalAlike(env: Env, r: Run, route: Option<Route>, o1: Oracle, o2: Oracle, fuel: nat)
    requires Good(env, r) && r.exit.Running? && Reached(env, FinalNode, r.now) && fuel >= 1
    ensures Alike(Walk(env, FinalNode, r, route, o1, fuel), Walk(env, FinalNode, r, route, o2, fuel))
  {
    hide Inv, Good, Grows, FinalizeNode, ForFinal, Codes, DispositionOf, Walk, First, Extends, FinalReason;
    FinalGood(env, r, o1);
    FinalGood(env, r, o2);
    WalkNode(env, FinalNode, r, route, o1, fuel, Step(FinalizeNode(env, r, o1), None));
    WalkNode(env, FinalNode, r, route, o2, fuel, Step(FinalizeNode(env, r, o2), None));
    WalkEnd(env, FinalizeNode(env, r, o1), route, o1, fuel - 1);
    WalkEnd(env, FinalizeNode(env, r, o2), route, o2, fuel - 1);
  }

  /** The walk made no adaptive experiment, if it did not end the run. */
  predicate Calm(d: Disk, q: Run) {
    q.exit.Running? && !Stopped(q.now.state.status) ==> q.now.state.adaptiveUsed == d.state.adaptiveUsed
  }

  lemma EvaluateAlike(env: Env, r: Run, route: Option<Route>, o1: Oracle, o2: Oracle, fuel: nat)
    requires Good(env, r) && r.exit.Running? && fuel >= 2
    requires r.now.state.status.UpdatingEvidence? || (Stopped(r.now.state.status) && route == Some(RunMandatory))
    ensures Alike(Walk(env, EvaluateNode, r, route, o1, fuel), Walk(env, EvaluateNode, r, route, o2, fuel))
    ensures Calm(r.now, Walk(env, EvaluateNode, r, route, o1, fuel))
    ensures Stopped(r.now.state.status) ==> !Walk(env, EvaluateNode, r, route, o1, fuel).exit.Running?
  {
    hide Inv, Good, Grows, Evaluate, Walk, First, Extends, LatestBudget, LatestBoundary, SameVerdict, Codes,
      DispositionOf, AtMostOne;
    EvaluateGood(env, r);
    var step := Evaluate(env, r);
    WalkNode(env, EvaluateNode, r, route, o1, fuel, step);
    WalkNode(env, EvaluateNode, r, route, o2, fuel, step);
    if r.now.state.status.UpdatingEvidence? {
      if step.r.now.state.status.Finalizing? {
        FinalAlike(env, step.r, Some(Finalize), o1, o2, fuel - 1);
        FinalTail(env, FinalNode, step.r, Some(Finalize), o1, fuel - 1);
      } else {
        WalkEnd(env, step.r, Some(NoopTerminal), o1, fuel - 1);
        WalkEnd(env, step.r, Some(NoopTerminal), o2, fuel - 1);
      }
    }
  }

  lemma MandatoryAlike(env: Env, r: Run, o1: Oracle, o2: Oracle, fuel: nat)
    requires Good(env, r) && r.exit.Running? && Reached(env, MandatoryNode, r.now) && Registered(env) && fuel >= 3
    ensures Alike(Walk(env, MandatoryNode, r, Some(RunMandatory), o1, fuel),
        Walk(env, MandatoryNode, r, Some(RunMandatory), o2, fuel))
    ensures Calm(r.now, Walk(env, MandatoryNode, r, Some(RunMandatory), o1, fuel))
  {
    hide Inv, Good, Grows, Mandatory, Walk, First, Extends, Missing, Charged, FirstRunnable, Performed;
    MandatoryGood(env, r);
    var q := Mandatory(env, r);
    if q.exit.Running? {
      WalkNode(env, MandatoryNode, r, Some(RunMandatory), o1, fuel, Step(q, None));
      WalkNode(env, MandatoryNode, r, Some(RunMandatory), o2, fuel, Step(q, None));
      EvaluateAlike(env, q, Some(RunMandatory), o1, o2, fuel - 1);
    } else {
      WalkStop(env, MandatoryNode, r, Some(RunMandatory), o1, fuel);
      WalkStop(env, MandatoryNode, r, Some(RunMandatory), o2, fuel);
    }
  }

  /** No experiment is being chosen or reviewed. */
  predicate Undecided(s: State) { !s.status.SelectingAdaptive? && !s.status.WaitingForCritic? }

  lemma UndecidedRoute(env: Env, d: Disk, step: Step)
    requires Routed(env, d, step) && Undecided(d.state)
    requires d.state.status.RunningTool? ==> false
    requires Inv(env, d)
    ensures step.route == Some(RunMandatory) || step.route == Some(EvaluateResult) || step.route == Some(Finalize)
      || step.route == Some(NoopTerminal)
    ensures step.route == Some(EvaluateResult) ==> step.r.now.state.status.UpdatingEvidence?
    ensures step.route == Some(NoopTerminal) ==> Stopped(step.r.now.state.status)
  {
    hide Inv, LatestBudget, LatestBoundary, SameWork, StepTaken, CurrentSkeptic, RequiresBegin;
    if !Stopped(d.state.status) { WorkingStatus(env, d); }
  }

  lemma RouteAlike(env: Env, r: Run, o1: Oracle, o2: Oracle, fuel: nat)
    requires Good(env, r) && r.exit.Running? && Undecided(r.now.state) && !r.now.state.status.RunningTool?
      && Registered(env) && fuel >= 9
    ensures Alike(Walk(env, RouteNode, r, None, o1, fuel), Walk(env, RouteNode, r, None, o2, fuel))
    ensures Calm(r.now, Walk(env, RouteNode, r, None, o1, fuel))
  {
    hide Inv, Good, LatestBudget, LatestBoundary, RequiresBegin, Walk, DirectorRoute, OutOfSteps, Aside, First,
      Extends, Kept, StepTaken, SameVerdict, ForFinal, Choosing;
    NowGood(env, r);
    RouteGood(env, r);
    var step := DirectorRoute(env, r);
    if !step.r.exit.Running? {
      WalkStop(env, RouteNode, r, None, o1, fuel);
      WalkStop(env, RouteNode, r, None, o2, fuel);
    } else {
      WalkNode(env, RouteNode, r, None, o1, fuel, step);
      WalkNode(env, RouteNode, r, None, o2, fuel, step);
      UndecidedRoute(env, r.now, step);
      match step.route.value
      case RunMandatory => MandatoryAlike(env, step.r, o1, o2, fuel - 1);
      case EvaluateResult => EvaluateAlike(env, step.r, step.route, o1, o2, fuel - 1);
      case Finalize =>
        FinalAlike(env, step.r, step.route, o1, o2, fuel - 1);
        FinalTail(env, FinalNode, step.r, step.route, o1, fuel - 1);
      case NoopTerminal =>
        WalkEnd(env, step.r, step.route, o1, fuel - 1);
        WalkEnd(env, step.r, step.route, o2, fuel - 1);
    }
  }

  lemma CatchAlike(p: Run, q: Run)
    requires Alike(p, q)
    ensures Alike(Catch(p), Catch(q))
  {
    hide TerminateRun, SameVerdict;
  }

  /** While no experiment is being chosen, an advance is the same for all answers
      of the models, or ends the run with the same verdict. */
  lemma AdvanceAlike(env: Env, d: Disk, o1: Oracle, o2: Oracle)
    requires Inv(env, d) && Registered(env) && Undecided(d.state)
    ensures Alike(Advance(env, d, o1), Advance(env, d, o2))
    ensures Calm(d, Advance(env, d, o1))
  {
    hide Inv, Good, LatestBudget, LatestBoundary, Walk, Recover, First, Extends, SameVerdict, Catch, CommittedState,
      RecoveredEvidence, Alike, Little, Moved, StartsStranded, Unrunnable;
    StartGood(env, d);
    RecoverGood(env, Start(d));
    var q := Recover(env, Start(d));
    if q.exit.Running? {
      if d.state.status.RunningTool? { CommittedRest(env, d.state, RecoveredEvidence(env, d).value); }
      WalkNode(env, RecoverNode, Start(d), None, o1, RECURSION_LIMIT, Step(q, None));
      WalkNode(env, RecoverNode, Start(d), None, o2, RECURSION_LIMIT, Step(q, None));
      RouteAlike(env, q, o1, o2, RECURSION_LIMIT - 1);
      RouteTail(env, q, None, o1, RECURSION_LIMIT - 1);
    } else {
      WalkStop(env, RecoverNode, Start(d), None, o1, RECURSION_LIMIT);
      WalkStop(env, RecoverNode, Start(d), None, o2, RECURSION_LIMIT);
      assert Alike(q, q) by { SelfAlike(q); }
    }
    CatchAlike(Walk(env, RecoverNode, Start(d), None, o1, RECURSION_LIMIT),
        Walk(env, RecoverNode, Start(d), None, o2, RECURSION_LIMIT));
    AdvanceSafe(env, d, o1);
    CatchCalm(env, d, Walk(env, RecoverNode, Start(d), None, o1, RECURSION_LIMIT), o1);
  }

  lemma SelfAlike(q: Run)
    ensures Alike(q, q)
  {
    hide SameVerdict;
  }

  lemma CatchCalm(env: Env, d: Disk, q: Run, o: Oracle)
    requires q.exit.Aborted? || Calm(d, q)
    requires AdvanceMeets(env, d, Catch(q), o) && (q.exit.Aborted? ==> Good(env, q))
    ensures Calm(d, Catch(q))
  {
    hide Good, StartsStranded, Unrunnable, Progressed, Little, Catch, First, Extends;
    if q.exit.Aborted? { CatchGood(env, q); NowGood(env, q); FailingStops(q.exit); } else { NotCaught(q); }
  }

  lemma NotCaught(q: Run)
    requires !q.exit.Aborted?
    ensures Catch(q) == q
  {
  }
}
