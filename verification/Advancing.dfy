/** What every `advance` guarantees: from every durable state, for every answer
    of the models and tools, and at every point where the process may die. */
module Advancing {
  import opened Domain
  import opened Store
  import opened Policy
  import opened Nodes
  import opened Invariant
  import opened Steps
  import opened Writes
  import opened Committing
  import opened Recovery
  import opened Executing
  import opened Routing
  import opened NodeSafety
  import opened Outcomes
  import opened Cycle

  lemma ExhaustedConcludes(env: Env, d: Disk, q: Run, o: Oracle)
    requires Inv(env, d) && Good(env, q) && q.exit.Aborted? && Aside(d, q.now) && OutOfSteps(d)
    ensures Concluded(env, d, q, o)
  {
    hide Inv, Good, LatestBudget, LatestBoundary, FirstRunnable, JudgeCritic, RequiresBegin, Reviewable,
      ReviewExecutes;
    if Stranded(d.state) { StrandedIsFresh(env, d); }
  }

  lemma StrandedIsFresh(env: Env, d: Disk)
    requires Inv(env, d) && Stranded(d.state)
    ensures !RequiresBegin(d) && !OutOfSteps(d) && Open(d.state)
  {
    hide Inv, RequiresBegin, CurrentSkeptic;
    OpenIsFresh(env, d);
  }

  lemma UpdatingConcludes(env: Env, r: Run, step: Step, route: Option<Route>, o: Oracle, fuel: nat)
    requires Good(env, r) && r.exit.Running? && Good(env, step.r) && step.r.exit.Running? && Routed(env, r.now, step)
      && fuel >= 2
    requires r.now.state.status.UpdatingEvidence? && Aside(r.now, step.r.now)
    ensures var q := Walk(env, EvaluateNode, step.r, route, o, fuel);
      && Concluded(env, r.now, q, o) && q.exit.Running?
      && q.now.state.step == r.now.state.step && q.now.state.toolCalls == r.now.state.toolCalls
      && |q.now.ledger| == |r.now.ledger|
  {
    hide Inv, Good, LatestBudget, LatestBoundary, FirstRunnable, RequiresBegin, Reviewable, ReviewExecutes, Walk,
      RoutedTo, Little, EvaluatedEnd, CurrentSkeptic;
    NowGood(env, r);
    WorkingStatus(env, r.now);
    assert step.r.now.state.status.UpdatingEvidence?;
    EvaluateTail(env, step.r, route, o, fuel);
    EvaluationMoves(r.now, step.r.now, Walk(env, EvaluateNode, step.r, route, o, fuel).now);
  }

  lemma RoutedAway(env: Env, d: Disk, step: Step, o: Oracle)
    requires Inv(env, d) && Routed(env, d, step) && step.route != Some(ResumeCritic)
      && step.route != Some(ExecuteApproved)
    ensures !StartsStranded(env, d, o)
  {
    hide Inv, LatestBudget, LatestBoundary, RequiresBegin, Reviewable, ReviewExecutes, CurrentSkeptic, Reached,
      StartsStranded;
    if Stranded(d.state) {
      StrandedIsFresh(env, d);
      StrandedBeside(env, d, step.r.now, o);
      StrandedReaches(env, Next(RouteNode, step.route).value, step.r.now, o);
    } else {
      assert !StartsStranded(env, d, o) by { NotStranded(env, d, o); }
    }
  }

  lemma NotStranded(env: Env, d: Disk, o: Oracle)
    requires !Stranded(d.state)
    ensures !StartsStranded(env, d, o)
  {
    hide Reviewable, ReviewExecutes, Stranded;
  }

  /** From the end of a path back to the state the cycle started in. */
  lemma PathConcludes(env: Env, r: Run, step: Step, q: Run, o: Oracle)
    requires Inv(env, r.now) && Routed(env, r.now, step) && Ended(env, step.r.now, q) && !OutOfSteps(r.now)
      && !r.now.state.status.UpdatingEvidence?
    requires q.exit.Faulted? <==> StartsStranded(env, r.now, o) || Unrunnable(env, r.now)
    requires q.exit.Faulted? ==> q.exit.fault == (if StartsStranded(env, r.now, o) then IllegalTransition else NoRoute)
    requires Stopped(r.now.state.status) || r.now.state.status.Finalizing? ==>
      q.exit.Running? ==> Stopped(q.now.state.status)
    ensures Concluded(env, r.now, q, o)
  {
    hide Inv, Good, LatestBudget, LatestBoundary, RequiresBegin, StartsStranded, Unrunnable, RoutedTo, Little, Kept,
      AtMostOne, ActedOnce, Moved, SameWork, StepTaken;
    LittleFrom(r.now, step.r.now, q.now);
    if q.exit.Running? && !Stopped(r.now.state.status)
        && !r.now.state.status.Finalizing? { MovedFrom(env, r.now, step.r.now, q.now); }
  }

  lemma UnrunnableRoute(env: Env, d: Disk, step: Step)
    requires Routed(env, d, step) && !OutOfSteps(d)
    ensures Unrunnable(env, d) <==>
      step.route == Some(RunMandatory) && FirstRunnable(env.specs, Missing(d.state), CompletedSet(d.state)).None?
  {
    hide FirstRunnable, LatestBudget, LatestBoundary, Kept, RoutedTo;
  }

  lemma StoppingPath(env: Env, d: Disk, step: Step, o: Oracle, fuel: nat)
    requires Inv(env, d) && Routed(env, d, step) && Good(env, step.r) && step.r.exit.Running? && fuel >= 1
    requires Stopped(d.state.status) || d.state.status.Finalizing?
    requires step.route == Some(NoopTerminal) || step.route == Some(Finalize)
    ensures var q := Walk(env, Next(RouteNode, step.route).value, step.r, step.route, o, fuel);
      Stopped(q.now.state.status)
  {
    hide Inv, Good, LatestBudget, LatestBoundary, ForFinal, Kept, DispositionOf, Codes, AtMostOne, First, Extends,
      Walk;
    if step.route == Some(NoopTerminal) { WalkEnd(env, step.r, step.route, o, fuel); }
    else { FinalTail(env, FinalNode, step.r, step.route, o, fuel); }
  }

  /** Everything that follows recovery. */
  lemma RouteTail(env: Env, r: Run, route: Option<Route>, o: Oracle, fuel: nat)
    requires Good(env, r) && r.exit.Running? && !r.now.state.status.RunningTool? && Registered(env) && fuel >= 9
    ensures Concluded(env, r.now, Walk(env, RouteNode, r, route, o, fuel), o)
    ensures r.now.state.status.UpdatingEvidence? ==> var q := Walk(env, RouteNode, r, route, o, fuel);
      q.exit.Running? && q.now.state.step == r.now.state.step && q.now.state.toolCalls == r.now.state.toolCalls
        && |q.now.ledger| == |r.now.ledger|
  {
    hide Inv, Good, LatestBudget, LatestBoundary, RequiresBegin, StartsStranded, Unrunnable, Concluded, Walk,
      DirectorRoute, Routed, Ended, OutOfSteps, Aside;
    NowGood(env, r);
    RouteGood(env, r);
    var step := DirectorRoute(env, r);
    if !step.r.exit.Running? {
      WalkStops(env, r, route, o, fuel);
      RoutingIdle(env, r.now);
      ExhaustedConcludes(env, r.now, step.r, o);
    } else {
      WalkNode(env, RouteNode, r, route, o, fuel, step);
      RoutedMeans(env, r.now, step);
      var q := Walk(env, Next(RouteNode, step.route).value, step.r, step.route, o, fuel - 1);
      if step.route == Some(EvaluateResult) {
        UpdatingConcludes(env, r, step, step.route, o, fuel - 1);
      } else {
        RoutePath(env, r, step, o, fuel - 1);
      }
    }
  }

  lemma RoutingIdle(env: Env, d: Disk)
    requires Inv(env, d) && OutOfSteps(d)
    ensures !d.state.status.UpdatingEvidence?
  {
    hide Inv, RequiresBegin;
  }

  lemma WalkStops(env: Env, r: Run, route: Option<Route>, o: Oracle, fuel: nat)
    requires r.exit.Running? && fuel > 0 && !DirectorRoute(env, r).r.exit.Running?
    ensures Walk(env, RouteNode, r, route, o, fuel) == DirectorRoute(env, r).r
  {
    hide DirectorRoute;
  }

  lemma RoutedMeans(env: Env, d: Disk, step: Step)
    requires Routed(env, d, step)
    ensures step.route.Some? && Next(RouteNode, step.route).Some? && (d.state.status.UpdatingEvidence? ==>
        step.route == Some(EvaluateResult))
    ensures step.route == Some(EvaluateResult) ==> d.state.status.UpdatingEvidence? && Aside(d, step.r.now)
    ensures step.route == Some(EvaluateResult) ==> Next(RouteNode, step.route) == Some(EvaluateNode)
  {
    hide Reached, SameWork, StepTaken, LatestBudget, LatestBoundary, Open, CurrentSkeptic;
  }

  lemma RoutePath(env: Env, r: Run, step: Step, o: Oracle, fuel: nat)
    requires Good(env, r) && r.exit.Running? && !r.now.state.status.RunningTool? && Registered(env) && fuel >= 8
    requires Good(env, step.r) && step.r.exit.Running? && Routed(env, r.now, step)
      && step.route != Some(EvaluateResult) && !OutOfSteps(r.now)
    ensures Concluded(env, r.now, Walk(env, Next(RouteNode, step.route).value, step.r, step.route, o, fuel), o)
  {
    hide Inv, Good, LatestBudget, LatestBoundary, RequiresBegin, StartsStranded, Concluded, Walk, Ended, OutOfSteps,
      Aside, FirstRunnable, Kept, StepTaken, SameWork, Reached;
    NowGood(env, r);
    UnrunnableRoute(env, r.now, step);
    var q := Walk(env, Next(RouteNode, step.route).value, step.r, step.route, o, fuel);
    if step.route == Some(ResumeCritic) || step.route == Some(ExecuteApproved) {
      ReviewPath(env, r, step, o, fuel);
    } else {
      OtherPath(env, r, step, o, fuel);
      RoutedAway(env, r.now, step, o);
    }
    if Stopped(r.now.state.status) || r.now.state.status.Finalizing? { StoppingPath(env, r.now, step, o, fuel); }
    PathConcludes(env, r, step, q, o);
  }

  /** How an `advance` from `d` went on when it neither stopped nor failed. */
  predicate Progressed(d: Disk, q: Disk) {
    if d.state.status.RunningTool? then
      q.state.step == d.state.step && q.state.toolCalls == d.state.toolCalls
        && |q.ledger| == |d.state.evidenceRefs| + 1 && AtRest(q)
    else Moved(d, q)
  }

  /** The outcome of `advance`. */
  ghost predicate AdvanceMeets(env: Env, d: Disk, q: Run, o: Oracle) {
    && Good(env, q) && !q.exit.Aborted? && Little(d, q.now)
    && (q.exit.Running? ==> Stopped(q.now.state.status) || Progressed(d, q.now))
    && (q.exit.Faulted? <==> StartsStranded(env, d, o) || Unrunnable(env, d))
    && (q.exit.Faulted? ==> q.exit.fault == (if StartsStranded(env, d, o) then IllegalTransition else NoRoute))
  }

  lemma CaughtMeets(env: Env, d: Disk, q: Run, o: Oracle)
    requires Concluded(env, d, q, o) && !d.state.status.RunningTool?
    ensures AdvanceMeets(env, d, Catch(q), o)
  {
    hide Good, Catch, StartsStranded, Unrunnable, Moved, First, Extends;
    CatchGood(env, q);
    FailingStops(q.exit);
    if q.exit.Aborted? { assert Abortable(q.now.state, q.exit) by { NowGood(env, q); } }
  }

  lemma FailingStops(e: Exit)
    ensures e.Aborted? && Failing(e.status) ==> Stopped(e.status)
  {
  }

  lemma CommittedUpdates(env: Env, s: State, e: Evidence)
    ensures CommittedState(env, s, e).limits == s.limits
  {
  }

  /** A prepared execution is recovered, evaluated, and the cycle is at rest. */
  lemma RecoveredMeets(env: Env, d: Disk, o: Oracle, fuel: nat)
    requires Inv(env, d) && d.state.status.RunningTool? && Registered(env) && fuel >= 10
    ensures AdvanceMeets(env, d, Catch(Walk(env, RecoverNode, Start(d), None, o, fuel)), o)
  {
    hide Inv, Good, LatestBudget, LatestBoundary, Recover, Walk, CommittedState, StartsStranded, Unrunnable, Catch,
      First, Extends, RecoveredEvidence, Concluded, Little;
    StartGood(env, d);
    RecoverGood(env, Start(d));
    RunningFacts(env, d);
    NeverFaults(env, d, o);
    var q := Recover(env, Start(d));
    if q.exit.Running? {
      CommittedStatus(env, d.state, RecoveredEvidence(env, d).value);
      CommittedUpdates(env, d.state, RecoveredEvidence(env, d).value);
      WalkNode(env, RecoverNode, Start(d), None, o, fuel, Step(q, None));
      RouteTail(env, q, None, o, fuel - 1);
      var w := Walk(env, RouteNode, q, None, o, fuel - 1);
      CaughtRunning(w);
      RecoveredProgress(env, d, q, w, o);
    } else {
      WalkStop(env, RecoverNode, Start(d), None, o, fuel);
      CatchGood(env, q);
      NowGood(env, q);
      FailingStops(q.exit);
      assert Little(d, Catch(q).now) by { LittleEnd(d, q, Catch(q).now, q.exit.status); }
    }
  }

  lemma LittleEnd(d: Disk, q: Run, e: Disk, status: Status)
    requires q.now == d && EndedIn(d, e, status)
    ensures Little(d, e)
  {
  }

  lemma CaughtRunning(w: Run)
    requires w.exit.Running?
    ensures Catch(w) == w
  {
  }

  lemma NeverFaults(env: Env, d: Disk, o: Oracle)
    requires d.state.status.RunningTool?
    ensures !StartsStranded(env, d, o) && !Unrunnable(env, d)
  {
    hide Reviewable, ReviewExecutes, OutOfSteps;
  }

  lemma RecoveredProgress(env: Env, d: Disk, q: Run, w: Run, o: Oracle)
    requires Inv(env, d) && d.state.status.RunningTool? && Announced(d, q.now) && Concluded(env, q.now, w, o)
      && w.exit.Running?
    requires q.now.state.toolCalls == d.state.toolCalls && |q.now.ledger| == |d.state.evidenceRefs| + 1
      && q.now.state.limits == d.state.limits
    requires w.now.state.step == q.now.state.step && w.now.state.toolCalls == q.now.state.toolCalls
      && |w.now.ledger| == |q.now.ledger|
    ensures AdvanceMeets(env, d, w, o)
  {
    hide Inv, Good, LatestBudget, LatestBoundary, StartsStranded, Unrunnable, First, Extends, AtRest;
    NeverFaults(env, d, o);
    RunningFacts(env, d);
  }

  /** From every durable state `advance` keeps every state it writes good, ends
      every abort in a legal terminal status, makes at most one tool call, and
      either stops, comes to rest, or fails: by an illegal transition exactly
      when it starts stranded with an approved experiment, and by a missing
      edge exactly when no tool can run a missing test. */
  lemma AdvanceSafe(env: Env, d: Disk, o: Oracle)
    requires Inv(env, d) && Registered(env)
    ensures AdvanceMeets(env, d, Advance(env, d, o), o)
  {
    hide Inv, Good, LatestBudget, LatestBoundary, Walk, StartsStranded, Unrunnable, Catch, First, Extends, Concluded,
      AdvanceMeets, RecoverEach;
    AdvanceWithin(env, d, o, RECURSION_LIMIT);
  }

  /** Ten nodes are enough: any larger limit on the graph changes nothing. */
  lemma AdvanceWithin(env: Env, d: Disk, o: Oracle, fuel: nat)
    requires Inv(env, d) && Registered(env) && fuel >= 10
    ensures AdvanceMeets(env, d, Catch(Walk(env, RecoverNode, Start(d), None, o, fuel)), o)
  {
    hide Inv, Good, LatestBudget, LatestBoundary, Walk, StartsStranded, Unrunnable, Catch, First, Extends, Concluded,
      AdvanceMeets, RecoverEach;
    if d.state.status.RunningTool? {
      RecoveredMeets(env, d, o, fuel);
    } else {
      StartGood(env, d);
      RecoverGood(env, Start(d));
      assert Recover(env, Start(d)) == Start(d);
      WalkNode(env, RecoverNode, Start(d), None, o, fuel, Step(Start(d), None));
      RouteTail(env, Start(d), None, o, fuel - 1);
      CaughtMeets(env, d, Walk(env, RouteNode, Start(d), None, o, fuel - 1), o);
    }
  }

  /** A cycle that starts at rest never runs into the stranded step: it stops,
      or charges one step, makes one tool call, adds one record, and rests. */
  lemma CycleFromRest(env: Env, d: Disk, o: Oracle)
    requires Inv(env, d) && Registered(env) && AtRest(d) && !Unrunnable(env, d)
    ensures var q := Advance(env, d, o);
      && Good(env, q) && q.exit.Running?
      && (Stopped(q.now.state.status)
          || (q.now.state.step == d.state.step + 1 && q.now.state.toolCalls == d.state.toolCalls + 1
            && |q.now.ledger| == |d.ledger| + 1 && AtRest(q.now)))
  {
    hide Inv, Good, LatestBudget, LatestBoundary, Walk, Unrunnable, Catch, First, Extends, Advance, Little,
      Reviewable, ReviewExecutes, Stranded, RequiresBegin;
    AdvanceSafe(env, d, o);
    if Stranded(d.state) { StrandedIsFresh(env, d); }
  }
}
