/** An advance that finds a step open: exactly when it goes on, and what it
    leaves. */
module Resuming {
  import opened Domain
  import opened Store
  import opened Policy
  import opened Nodes
  import opened Invariant
  import opened Accounting
  import opened Steps
  import opened Writes
  import opened Committing
  import opened Recovery
  import opened Executing
  import opened Routing
  import opened NodeSafety
  import opened Outcomes
  import opened Cycle
  import opened Advancing

  /** A crash may leave any state that a run has written. */
  lemma DiesAt(r: Run, q: Run)
    requires Extends(r, q)
    ensures DiesIn(q, r.now)
  {
    if |q.past| == |r.past| {
      assert (q.past + [q.now])[|q.past|] == r.now;
    } else {
      assert (q.past + [q.now])[|r.past|] == r.now;
    }
  }

  /** The evaluation of the newest result goes on with the run. */
  predicate GoesOn(env: Env, d: Disk) {
    d.state.executions != [] && d.ledger != [] &&
    var (x, result) := Latest(d);
    || (Succeeds(result.status) && Missing(d.state) != {})
    || (result.status.PreconditionFailed? && x.adaptive && Available(env, d.state) != [])
    || (Succeeds(result.status) && Missing(d.state) == {} && Decisive(Codes(d.ledger)).None?
        && MayChoose(env, d.state, x.adaptive, result.status))
  }

  /** `t` is `s` after an evaluation that goes on. */
  predicate ResumedState(s: State, t: State) {
    && t == s.(status := t.status, failures := t.failures, pendingFinal := t.pendingFinal,
               modelCalls := t.modelCalls, retries := t.retries, checkpoints := t.checkpoints)
    && (if Missing(s) != {} then t.status.VettingMandatory? else t.status.SelectingAdaptive?)
  }

  predicate ResumedDisk(d: Disk, q: Disk) {
    && ResumedState(d.state, q.state) && q.ledger == d.ledger
    && LatestBudget(q.trace, q.state.step) == LatestBudget(d.trace, d.state.step)
    && LatestBoundary(q.trace, q.state.step) == LatestBoundary(d.trace, d.state.step)
  }

  /** What GoesOn reads is not changed by side records. */
  lemma GoesOnBeside(env: Env, d: Disk, e: Disk)
    requires Aside(d, e)
    ensures GoesOn(env, d) <==> GoesOn(env, e)
  {
    hide Codes, Decisive, Offer, TestsIn, LatestBudget, LatestBoundary;
  }

  lemma ResumedBeside(d: Disk, e: Disk, q: Disk)
    requires Aside(d, e) && ResumedDisk(e, q)
    ensures ResumedDisk(d, q)
  {
    hide LatestBudget, LatestBoundary, TestsIn;
  }

  lemma DecidedGoesOn(env: Env, d: Disk, q: State)
    requires d.state.executions != [] && d.ledger != []
    requires DecidedAs(env, d.state, q, Latest(d).0.adaptive, Latest(d).1, Decisive(Codes(d.ledger)))
    requires Latest(d).0.adaptive ==> Missing(d.state) == {}
    ensures q.status.VettingMandatory? || q.status.SelectingAdaptive? <==> GoesOn(env, d)
    ensures GoesOn(env, d) ==> ResumedState(d.state, q)
  {
    hide Missing, Available, Codes, Decisive, MayChoose;
  }

  lemma FinalizingReached(env: Env, d: Disk)
    requires d.state.status.Finalizing?
    ensures Reached(env, FinalNode, d)
  {
  }

  /** The rest of a cycle that starts at its evaluation. */
  lemma EvaluateEnds(env: Env, r: Run, route: Option<Route>, o: Oracle, fuel: nat)
    requires Good(env, r) && r.exit.Running? && r.now.state.status.UpdatingEvidence? && fuel >= 2
    ensures var q := Walk(env, EvaluateNode, r, route, o, fuel);
      && Good(env, q) && q.exit.Running?
      && (Stopped(q.now.state.status) <==> !GoesOn(env, r.now))
      && (GoesOn(env, r.now) ==> ResumedDisk(r.now, q.now))
  {
    hide Inv, Good, Grows, Evaluate, LatestBudget, LatestBoundary, Walk, First, Extends, GoesOn, ResumedState,
      DecidedAs, ForFinal, AtMostOne, Codes, DispositionOf, Decisive;
    NowGood(env, r);
    UpdatingFacts(env, r.now);
    EvaluateGood(env, r);
    EvaluationDecides(env, r);
    var step := Evaluate(env, r);
    DecidedGoesOn(env, r.now, step.r.now.state);
    WalkNode(env, EvaluateNode, r, route, o, fuel, step);
    if step.r.now.state.status.Finalizing? {
      FinalizingReached(env, step.r.now);
      FinalTail(env, FinalNode, step.r, Some(Finalize), o, fuel - 1);
    } else {
      WalkEnd(env, step.r, Some(NoopTerminal), o, fuel - 1);
    }
  }

  /** A walk from the Director over a committed result. */
  lemma UpdatingWalk(env: Env, r: Run, o: Oracle, fuel: nat)
    requires Good(env, r) && r.exit.Running? && r.now.state.status.UpdatingEvidence? && fuel >= 9
    ensures var q := Walk(env, RouteNode, r, None, o, fuel);
      && Good(env, q) && q.exit.Running?
      && (Stopped(q.now.state.status) <==> !GoesOn(env, r.now))
      && (GoesOn(env, r.now) ==> ResumedDisk(r.now, q.now))
  {
    hide Inv, Good, Grows, LatestBudget, LatestBoundary, Walk, First, Extends, GoesOn, ResumedDisk, DirectorRoute,
      Routed, Aside, OutOfSteps;
    NowGood(env, r);
    RouteGood(env, r);
    assert !OutOfSteps(r.now) by { UpdatingIsNoRest(r.now); }
    var step := DirectorRoute(env, r);
    RoutedMeans(env, r.now, step);
    WalkNode(env, RouteNode, r, None, o, fuel, step);
    SameStatus(r.now, step.r.now);
    EvaluateEnds(env, step.r, step.route, o, fuel - 1);
    GoesOnBeside(env, r.now, step.r.now);
    if GoesOn(env, r.now) {
      ResumedBeside(r.now, step.r.now, Walk(env, EvaluateNode, step.r, step.route, o, fuel - 1).now);
    }
  }

  lemma UpdatingIsNoRest(d: Disk)
    requires d.state.status.UpdatingEvidence?
    ensures !OutOfSteps(d)
  {
    hide RequiresBegin;
  }

  lemma SameStatus(d: Disk, e: Disk)
    requires Aside(d, e)
    ensures e.state.status == d.state.status
  {
    hide LatestBudget, LatestBoundary;
  }

  /** An advance over a committed result stops exactly when the evaluation does. */
  lemma UpdatingAdvance(env: Env, d: Disk, o: Oracle)
    requires Inv(env, d) && d.state.status.UpdatingEvidence?
    ensures var q := Advance(env, d, o);
      && Good(env, q) && q.exit.Running?
      && (Stopped(q.now.state.status) <==> !GoesOn(env, d))
      && (GoesOn(env, d) ==> ResumedDisk(d, q.now))
  {
    hide Inv, Good, Grows, LatestBudget, LatestBoundary, Walk, First, Extends, GoesOn, ResumedDisk, Recover, Catch;
    StartGood(env, d);
    RecoverGood(env, Start(d));
    assert Recover(env, Start(d)) == Start(d);
    WalkNode(env, RecoverNode, Start(d), None, o, RECURSION_LIMIT, Step(Start(d), None));
    UpdatingWalk(env, Start(d), o, RECURSION_LIMIT - 1);
    CaughtRunning(Walk(env, RouteNode, Start(d), None, o, RECURSION_LIMIT - 1));
  }

  /** The state in which the unfinished execution of `d` is committed. */
  function RecoveredDisk(env: Env, d: Disk, e: Evidence): Disk {
    var referenced := if |d.state.evidenceRefs| <= |d.ledger| then |d.state.evidenceRefs| else 0;
    d.(state := CommittedState(env, d.state, e), ledger := d.ledger[..referenced] + [e])
  }

  /** An advance over an unfinished execution goes on exactly when it is
      recovered and its evaluation goes on. */
  lemma RunningAdvance(env: Env, d: Disk, o: Oracle)
    requires Inv(env, d) && d.state.status.RunningTool?
    ensures d.state.executions != []
    ensures var q := Advance(env, d, o); var found := RecoveredEvidence(env, d);
      && Good(env, q) && q.exit.Running?
      && (Stopped(q.now.state.status) <==> found.None? || !GoesOn(env, RecoveredDisk(env, d, found.value)))
      && (found.Some? && GoesOn(env, RecoveredDisk(env, d, found.value)) ==>
            ResumedState(CommittedState(env, d.state, found.value), q.now.state)
              && q.now.ledger == RecoveredDisk(env, d, found.value).ledger)
  {
    hide Inv, Good, Grows, LatestBudget, LatestBoundary, Walk, First, Extends, GoesOn, ResumedState, Recover, Catch,
      CommittedState, RecoveredEvidence;
    StartGood(env, d);
    RecoverGood(env, Start(d));
    RunningFacts(env, d);
    var q := Recover(env, Start(d));
    if q.exit.Running? {
      var e := RecoveredEvidence(env, d).value;
      CommittedStatus(env, d.state, e);
      WalkNode(env, RecoverNode, Start(d), None, o, RECURSION_LIMIT, Step(q, None));
      UpdatingWalk(env, q, o, RECURSION_LIMIT - 1);
      CaughtRunning(Walk(env, RouteNode, q, None, o, RECURSION_LIMIT - 1));
      SameGoesOn(env, q.now, RecoveredDisk(env, d, e));
    } else {
      WalkStop(env, RecoverNode, Start(d), None, o, RECURSION_LIMIT);
      CatchGood(env, q);
      NowGood(env, q);
      FailingStops(q.exit);
    }
  }

  lemma SameGoesOn(env: Env, d: Disk, e: Disk)
    requires d.state == e.state && d.ledger == e.ledger
    ensures GoesOn(env, d) <==> GoesOn(env, e)
  {
    hide Codes, Decisive, Available, Missing;
  }

  /** A finalizing run is ended by its next advance. */
  lemma FinalizingAdvance(env: Env, d: Disk, o: Oracle)
    requires Inv(env, d) && d.state.status.Finalizing?
    ensures var q := Advance(env, d, o); Good(env, q) && q.exit.Running? && Stopped(q.now.state.status)
  {
    hide Inv, Good, Grows, LatestBudget, LatestBoundary, Walk, First, Extends, Recover, Catch, DirectorRoute, Routed,
      ForFinal, AtMostOne, DispositionOf, Codes;
    StartGood(env, d);
    RecoverGood(env, Start(d));
    WalkNode(env, RecoverNode, Start(d), None, o, RECURSION_LIMIT, Step(Start(d), None));
    RouteGood(env, Start(d));
    var step := DirectorRoute(env, Start(d));
    FinalizingRoute(env, d, step);
    WalkNode(env, RouteNode, Start(d), None, o, RECURSION_LIMIT - 1, step);
    FinalTail(env, FinalNode, step.r, Some(Finalize), o, RECURSION_LIMIT - 2);
    CaughtRunning(Walk(env, FinalNode, step.r, Some(Finalize), o, RECURSION_LIMIT - 2));
  }

  lemma FinalizingRoute(env: Env, d: Disk, step: Step)
    requires d.state.status.Finalizing? && (step.r.exit.Running? ==>
        Routed(env, d, step)) && (step.r.exit.Running? <==> !OutOfSteps(d))
    ensures step.r.exit.Running? && step.route == Some(Finalize) && Reached(env, FinalNode, step.r.now)
  {
    hide ForFinal, Kept, SameWork, StepTaken, RequiresBegin;
  }
}
