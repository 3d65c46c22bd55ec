/** Lives of new runs that reach the two windows between durable writes, for
    every sufficient budget and whatever the models say in the baseline. */
module Witnesses {
  import opened Domain
  import opened Store
  import opened Policy
  import opened Nodes
  import opened Invariant
  import opened Accounting
  import opened Rules
  import opened Steps
  import opened Writes
  import opened Committing
  import opened Recovery
  import opened Executing
  import opened Routing
  import opened NodeSafety
  import opened Outcomes
  import opened Cycle
  import opened Advancing
  import opened Lives
  import opened Resuming
  import opened Driving
  import opened Windows
  import opened Shortfall

  // ---- the baseline ----

  /** Tools that answer, and an experiment that the registry allows. */
  ghost predicate Offering(env: Env, spec: Spec) {
    && Basic(env) && Separate(env.specs) && Obliging(env) && Experiment(env, spec)
    && forall i :: 0 <= i < |env.specs| && env.specs[i].mandatory == Some(SignalQuality) ==>
          env.specs[i].tool.SearchBls?
  }

  predicate Experiment(env: Env, spec: Spec) {
    && Resolve(env.specs, spec.tool) == Some(spec) && spec.adaptive && spec.supported && spec.authorized
    && spec.required <= MANDATORY_TESTS && env.schema(spec.tool, NO_PARAMS).Some?
  }

  /** Limits that leave room for one experiment after the baseline. */
  predicate Ample(limits: Limits, spec: Spec) {
    5 <= limits.steps && 5 <= limits.toolCalls && 1 <= limits.adaptive && Max(1, spec.cost) <= limits.cost
  }

  /** `n` tests of the baseline are done, and decided nothing. */
  ghost predicate Done(env: Env, limits: Limits, d: Disk, n: nat) {
    && Inv(env, d) && AtRest(d) && d.state.limits == limits && d.state.toolCalls == d.state.step == n
    && AllSucceed(d.ledger) && Codes(d.ledger) == {}
  }

  lemma NextTest(env: Env, limits: Limits, d: Disk, n: nat, o: Oracle)
    requires Basic(env) && Separate(env.specs) && Obliging(env) && Done(env, limits, d, n)
    requires n < 4 && n < limits.steps && n < limits.toolCalls
    ensures Done(env, limits, Advance(env, d, o).now, n + 1) && Follows(env, d, Advance(env, d, o).now)
  {
    hide Inv, Basic, Obliging, AllSucceed, Codes, Decisive, RequiresBegin, Advance, Covers;
    BaselineCounts(env, d);
    WorkingStatus(env, d);
    assert Decisive({}).None? by { NothingDecides(); }
    VettingAdvance(env, d, o);
    var q := Advance(env, d, o);
    assert q.now in q.past + [q.now];
    assert DiesIn(Operate(env, d, Advances(o)), q.now);
  }

  lemma NothingDecides()
    ensures Decisive({}).None?
  {
  }

  /** The durable states after each advance of a life without crashes. */
  predicate Uninterrupted(env: Env, life: seq<Disk>, answers: seq<Oracle>) {
    |answers| < |life| && forall k :: 0 <= k < |answers| ==> life[k + 1] == Advance(env, life[k], answers[k]).now
  }

  lemma {:induction false} BaselineLife(env: Env, d: Disk, answers: seq<Oracle>) returns (life: seq<Disk>)
    requires Basic(env) && Separate(env.specs) && Obliging(env) && Initial(d)
    requires |answers| <= 4 && |answers| <= d.state.limits.steps && |answers| <= d.state.limits.toolCalls
    ensures |life| == |answers| + 1 && life[0] == d && Life(env, life) && Uninterrupted(env, life, answers)
    ensures Done(env, d.state.limits, life[|answers|], |answers|)
  {
    hide Inv, Basic, Obliging, Advance, Follows, Initial, Covers, Separate, Done;
    var n := |answers|;
    if n == 0 {
      life := [d];
      InitialDone(env, d);
    } else {
      var init := BaselineLife(env, d, answers[..n - 1]);
      NextTest(env, d.state.limits, init[n - 1], n - 1, answers[n - 1]);
      life := init + [Advance(env, init[n - 1], answers[n - 1]).now];
      forall k | 0 <= k < |life| - 1 ensures Follows(env, life[k], life[k + 1]) {
        if k < n - 1 { assert Follows(env, init[k], init[k + 1]); }
      }
      forall k | 0 <= k < n ensures life[k + 1] == Advance(env, life[k], answers[k]).now {
        if k < n - 1 { assert init[k + 1] == Advance(env, init[k], answers[..n - 1][k]).now; }
      }
    }
  }

  lemma InitialDone(env: Env, d: Disk)
    requires Initial(d)
    ensures Done(env, d.state.limits, d, 0)
  {
    hide Inv, AtRest;
    InitialIsAtRest(env, d);
  }

  // ---- an experiment is to be chosen ----

  /** At a boundary after the baseline, with means for the experiment. */
  ghost predicate Ready(env: Env, spec: Spec, d: Disk) {
    var s := d.state;
    && Inv(env, d) && AtRest(d) && s.status.SelectingAdaptive? && NoAdaptive(s.executions) && s.candidates != []
    && s.step < s.limits.steps && s.toolCalls < s.limits.toolCalls && s.adaptiveUsed < s.limits.adaptive
    && Max(1, spec.cost) <= s.costLeft
  }

  /** A completed signal search of tools that answer leaves a candidate. */
  lemma {:induction false} SearchFinds(env: Env, es: seq<Evidence>)
    requires AllSucceed(es) && SignalQuality in Replay(env, es).completed
    requires forall i :: 0 <= i < |env.specs| && env.specs[i].mandatory == Some(SignalQuality) ==>
      env.specs[i].tool.SearchBls?
    ensures Replay(env, es).candidates != []
  {
    var init, e := es[..|es| - 1], es[|es| - 1];
    assert e in es && forall x :: x in init ==> x in es;
    if SignalQuality in Replay(env, init).completed {
      SearchFinds(env, init);
    } else {
      ResolvedIs(env.specs, e.result.tool);
    }
  }

  lemma ScienceIs(env: Env, d: Disk)
    requires Inv(env, d) && d.state.status.SelectingAdaptive?
    ensures ScienceOf(d.state) == Replay(env, d.ledger)
  {
    hide Replay, Account, AllAllowed, Roles, Proposal, Spent, Working, Reasons, Verdicts, Authority, Executions,
      ValidSnapshot, Budgets;
    AllCompleted(env, d);
    assert d.ledger[..|d.ledger|] == d.ledger;
  }

  lemma {:induction false} NothingPaid(xs: seq<Execution>)
    requires NoAdaptive(xs) && AllValid(xs)
    ensures SumCost(xs) == 0
  {
    if xs != [] {
      var init := xs[..|xs| - 1];
      assert xs[|xs| - 1] in xs && forall x :: x in init ==> x in xs;
      NothingPaid(init);
    }
  }

  lemma {:induction false} NoneAdaptive(xs: seq<Execution>)
    requires CountAdaptive(xs) == 0
    ensures NoAdaptive(xs)
  {
    if xs != [] {
      NoneAdaptive(xs[..|xs| - 1]);
      assert xs == xs[..|xs| - 1] + [xs[|xs| - 1]];
    }
  }

  lemma CostIs(env: Env, d: Disk)
    requires Inv(env, d)
    ensures AllValid(d.state.executions) && d.state.costLeft == d.state.limits.cost - SumCost(d.state.executions)
  {
    hide Ledger, Account, AllAllowed, Roles, Proposal, Spent, Working, Reasons, Verdicts, Authority, Executions;
  }

  lemma BaselineReady(env: Env, spec: Spec, d: Disk)
    requires Offering(env, spec) && Ample(d.state.limits, spec) && Done(env, d.state.limits, d, 4)
    ensures Ready(env, spec, d)
  {
    hide Inv, Basic, Obliging, AllSucceed, Codes, RequiresBegin, Covers, Separate, CountAdaptive, NoAdaptive, Replay,
      AllValid, SumCost, Experiment;
    BaselineCounts(env, d);
    TestsBounded(env, d);
    CountsAre(env, d);
    WorkingStatus(env, d);
    NoneAdaptive(d.state.executions);
    CostIs(env, d);
    NothingPaid(d.state.executions);
    ScienceIs(env, d);
    assert SignalQuality in d.state.completed by { assert SignalQuality !in Missing(d.state); }
    SearchFinds(env, d.ledger);
  }

  // ---- the way to the proposal ----

  /** A node is reached in a step of its own, on the work of `d`. */
  ghost predicate Arrived(env: Env, n: Node, d: Disk, r: Run) {
    && Good(env, r) && r.exit.Running? && Reached(env, n, r.now) && SameWork(d, r.now)
    && r.now.state.step == d.state.step + 1
  }

  ghost predicate AtChoice(env: Env, d: Disk, r: Run) { Arrived(env, ProposeNode, d, r) }

  lemma ArrivedBeside(env: Env, n: Node, d: Disk, p: Run, q: Run)
    requires Arrived(env, n, d, p) && Beside(env, p, q)
    ensures Arrived(env, n, d, q) && q.now.state.context == p.now.state.context
  {
    hide Good, Inv, Reached, LatestBudget, LatestBoundary;
    BesideReached(env, n, p, q);
  }

  /** The Director sent the step to the first of the roles that has not spoken. */
  ghost predicate Directed(env: Env, d: Disk, step: Step) {
    || (step.route == Some(RunSpecialists) && Arrived(env, SpecialistNode, d, step.r))
    || (step.route == Some(CallDirectorBriefing) && Arrived(env, BriefingNode, d, step.r))
    || (step.route == Some(CallSkeptic) && AtChoice(env, d, step.r))
  }

  /** After the baseline the Director charges a step and sends it to a choice. */
  lemma RouteChooses(env: Env, spec: Spec, d: Disk)
    requires Ready(env, spec, d) && Registered(env) && Available(env, d.state) != []
    ensures Directed(env, d, DirectorRoute(env, Start(d)))
  {
    hide Inv, Good, Grows, LatestBudget, LatestBoundary, RequiresBegin, First, Extends, DirectorRoute, Known;
    StartGood(env, d);
    WorkingStatus(env, d);
    RouteGood(env, Start(d));
    var step := DirectorRoute(env, Start(d));
    SameMeans(env, d, step.r.now);
  }

  lemma SameMeans(env: Env, d: Disk, q: Disk)
    requires SameWork(d, q)
    ensures MayPropose(env, q.state) <==> MayPropose(env, d.state)
    ensures Missing(q.state) == Missing(d.state)
  {
  }

  /** The advance of a choice passes through its proposal's node, whatever the
      advisory roles answer. */
  lemma ToProposal(env: Env, spec: Spec, d: Disk, o: Oracle) returns (r: Run, route: Option<Route>, fuel: nat)
    requires Ready(env, spec, d) && Registered(env) && Available(env, d.state) != []
    ensures AtChoice(env, d, r) && fuel >= 8
    ensures Walk(env, RecoverNode, Start(d), None, o, RECURSION_LIMIT) == Walk(env, ProposeNode, r, route, o, fuel)
  {
    hide Inv, Good, Grows, LatestBudget, LatestBoundary, Walk, First, Extends, Recover, DirectorRoute, RequiresBegin,
      Available, Reached, SameWork;
    StartGood(env, d);
    RecoverGood(env, Start(d));
    WalkNode(env, RecoverNode, Start(d), None, o, RECURSION_LIMIT, Step(Start(d), None));
    RouteChooses(env, spec, d);
    var step := DirectorRoute(env, Start(d));
    WalkNode(env, RouteNode, Start(d), None, o, RECURSION_LIMIT - 1, step);
    r, route, fuel := step.r, step.route, RECURSION_LIMIT - 2;
    if route == Some(RunSpecialists) {
      r := PastSpecialists(env, d, r, route, o, fuel);
      fuel := fuel - 1;
    }
    if route != Some(CallSkeptic) {
      r := PastBriefing(env, d, r, route, o, fuel);
      fuel := fuel - 1;
    }
  }

  lemma PastSpecialists(env: Env, d: Disk, r: Run, route: Option<Route>, o: Oracle, fuel: nat) returns (q: Run)
    requires Arrived(env, SpecialistNode, d, r) && fuel > 0
    ensures Arrived(env, BriefingNode, d, q)
      && Walk(env, SpecialistNode, r, route, o, fuel) == Walk(env, BriefingNode, q, route, o, fuel - 1)
  {
    hide Good, Walk, Specialists, First, Extends, Fresh, CurrentSkeptic, Missing, Available, Known;
    SpecialistsBeside(env, r, o);
    q := Specialists(env, r, o);
    ArrivedBeside(env, SpecialistNode, d, r, q);
    WalkNode(env, SpecialistNode, r, route, o, fuel, Step(q, None));
  }

  lemma PastBriefing(env: Env, d: Disk, r: Run, route: Option<Route>, o: Oracle, fuel: nat) returns (q: Run)
    requires Arrived(env, BriefingNode, d, r) && fuel > 0
    ensures AtChoice(env, d, q)
      && Walk(env, BriefingNode, r, route, o, fuel) == Walk(env, ProposeNode, q, route, o, fuel - 1)
  {
    hide Good, Walk, DirectorBriefing, First, Extends, Fresh, CurrentSkeptic, Missing, Available, Known;
    BriefingBeside(env, r, o);
    q := DirectorBriefing(env, r, o);
    ArrivedBeside(env, BriefingNode, d, r, q);
    WalkNode(env, BriefingNode, r, route, o, fuel, Step(q, None));
  }

  /** A state that a walk has written was durable in its advance. */
  lemma DiesWithin(env: Env, d: Disk, o: Oracle, n: Node, r: Run, route: Option<Route>, fuel: nat, p: Run, e: Disk)
    requires Walk(env, RecoverNode, Start(d), None, o, RECURSION_LIMIT) == Walk(env, n, r, route, o, fuel)
    requires Extends(p, Walk(env, n, r, route, o, fuel)) && DiesIn(p, e)
    ensures DiesIn(Advance(env, d, o), e) && Follows(env, d, e)
  {
    hide Walk, Catch, First;
    var w := Walk(env, n, r, route, o, fuel);
    var q := Advance(env, d, o);
    assert q == Catch(w);
    Onward(p, w, q);
    DiesLater(p, q, e);
    assert DiesIn(Operate(env, d, Advances(o)), e);
  }

  lemma DiesLater(p: Run, q: Run, e: Disk)
    requires Extends(p, q) && DiesIn(p, e)
    ensures DiesIn(q, e)
  {
    if e in p.past {
      var i :| 0 <= i < |p.past| && p.past[i] == e;
      assert q.past[..|p.past|][i] == e && q.past[i] == e;
      assert (q.past + [q.now])[i] == e;
    } else {
      DiesAt(p, q);
    }
  }

  // ---- the proposal ----

  /** A proposal of the experiment for the step after `s`. */
  function Proposing(spec: Spec, s: State): Skeptic {
    Skeptic("proposal", s.step + 1, s.context, false, true, Use(spec.tool), NO_PARAMS,
            if s.costLeft < 0 then 0 else s.costLeft, spec.cost)
  }

  /** The models propose the experiment, and approve of it. */
  function Agreeing(spec: Spec, s: State): Oracle {
    var k := Proposing(spec, s);
    Oracle([], Skipped, Skipped, [], Skipped, [], Skipped, [], Accepted(k), [], Accepted(Approval(k, s)), [], Skipped)
  }

  lemma Unmade(env: Env, spec: Spec, d: Disk, params: Params)
    requires Ready(env, spec, d) && Separate(env.specs) && Experiment(env, spec)
    ensures !Executed(d.state.executions, Signature(spec.tool, params)) && Missing(d.state) == {}
      && MANDATORY_TESTS <= CompletedSet(d.state)
  {
    hide Inv, RequiresBegin, Resolve, Separate, NoAdaptive, AllCovered, Missing;
    WorkingStatus(env, d);
    TallyOf(env, d);
    SignaturesAre(env, d);
    NoTestOf(env, spec);
    forall x | x in d.state.executions ensures x.signature != Signature(spec.tool, params) {
      assert Covered(env, x, d.state.completed) by { CoveredBy(env, d.state.executions, d.state.completed, x); }
      assert !x.adaptive by { NotAdaptive(d.state.executions, x); }
    }
    NothingMissing(d.state);
  }

  lemma NothingMissing(s: State)
    requires Missing(s) == {}
    ensures MANDATORY_TESTS <= CompletedSet(s)
  {
    forall t | t in MANDATORY_TESTS ensures t in CompletedSet(s) { assert t !in Missing(s); }
  }

  lemma CoveredBy(env: Env, xs: seq<Execution>, completed: seq<Test>, x: Execution)
    requires AllCovered(env, xs, completed) && x in xs
    ensures Covered(env, x, completed)
  {
  }

  lemma NotAdaptive(xs: seq<Execution>, x: Execution)
    requires NoAdaptive(xs) && x in xs
    ensures !x.adaptive
  {
  }

  lemma SignaturesAre(env: Env, d: Disk)
    requires Inv(env, d)
    ensures forall x :: x in d.state.executions ==> x.signature == Signature(x.tool, x.params)
  {
    hide Ledger, Account, AllAllowed, Roles, Proposal, Spent, Working, Reasons, Verdicts, Authority, ValidSnapshot,
      Budgets;
  }

  lemma NoTestOf(env: Env, spec: Spec)
    requires Separate(env.specs) && Experiment(env, spec)
    ensures TestOf(env, spec.tool).None?
  {
    ResolvedIs(env.specs, spec.tool);
  }

  lemma ItIsOffered(env: Env, spec: Spec, d: Disk)
    requires Ready(env, spec, d) && Separate(env.specs) && Experiment(env, spec)
    ensures Use(spec.tool) in Available(env, d.state)
  {
    hide Inv, RequiresBegin, Resolve, Separate, NoAdaptive, Executed, OfferedTools, Missing;
    Unmade(env, spec, d, NO_PARAMS);
    ResolvedIs(env.specs, spec.tool);
    OfferMeans(env, MeansOf(d.state));
    OfferableIs(MeansOf(d.state), spec);
    assert spec in env.specs && Offerable(MeansOf(d.state), spec);
  }

  /** The validation lets the proposal through. */
  lemma ProposalFits(env: Env, spec: Spec, d: Disk, s: State)
    requires Ready(env, spec, d) && Separate(env.specs) && Experiment(env, spec)
    requires s.available == Available(env, s) && MeansOf(s) == MeansOf(d.state) && s.step == d.state.step + 1
      && s.context == d.state.context
    ensures JudgeSkeptic(env, s, Proposing(spec, d.state), s.available).Accept?
  {
    hide Inv, RequiresBegin, Resolve, Separate, NoAdaptive, Executed, Offer, Missing;
    Unmade(env, spec, d, env.schema(spec.tool, NO_PARAMS).value);
    ItIsOffered(env, spec, d);
    NothingMissingSet(d.state);
  }

  lemma NothingMissingSet(s: State)
    requires MANDATORY_TESTS <= CompletedSet(s)
    ensures MANDATORY_TESTS - TestsIn(s.completed) == {}
  {
  }

  /** The agreed proposal is recorded at its node. */
  lemma ProposalStands(env: Env, spec: Spec, d: Disk, r: Run)
    requires Ready(env, spec, d) && Separate(env.specs) && Experiment(env, spec) && AtChoice(env, d, r)
    ensures SkepticNode(env, r, Agreeing(spec, d.state)).exit.Running?
  {
    hide Inv, Good, RequiresBegin, Separate, NoAdaptive, SkepticNode, JudgeSkeptic, Missing, Offer, Fresh,
      CurrentSkeptic;
    ChoiceMeans(env, d, r);
    ContextIs(env, d, r);
    ProposalFits(env, spec, d, r.now.state);
    SkepticGood(env, r, Agreeing(spec, d.state));
  }

  lemma ChoiceMeans(env: Env, d: Disk, r: Run)
    requires AtChoice(env, d, r)
    ensures r.now.state.available == Available(env, r.now.state) && MeansOf(r.now.state) == MeansOf(d.state)
  {
    hide Good, Offer, Missing, CurrentSkeptic, Fresh;
  }

  /** From a new run, whatever the models say in the baseline, there is a life
      that reaches the stranded state, and answers that make it fail. */
  lemma ProposalsStrand(env: Env, spec: Spec, d: Disk, answers: seq<Oracle>) returns (life: seq<Disk>, last: Oracle)
    requires Offering(env, spec) && Initial(d) && Ample(d.state.limits, spec) && |answers| == 4
    ensures |life| == 6 && life[0] == d && Life(env, life) && Uninterrupted(env, life, answers)
    ensures Stranded(life[5].state) && Advance(env, life[5], last).exit == Faulted(IllegalTransition)
  {
    hide Inv, Good, Basic, Separate, Initial, Advance, Walk, SkepticNode, Ready, Done, Experiment, Stranded, Follows,
      AtChoice, Extends, First, Available;
    var base := BaselineLife(env, d, answers);
    var b := base[4];
    SameLimitsDone(env, d.state.limits, b);
    BasicRegisters(env);
    BaselineReady(env, spec, b);
    ItIsOffered(env, spec, b);
    var o := Agreeing(spec, b.state);
    var r, route, fuel := ToProposal(env, spec, b, o);
    ProposalStands(env, spec, b, r);
    ChoiceReached(env, b, r);
    assert Proposing(spec, b.state).action == Use(spec.tool);
    var e;
    e, last := EveryExperimentCanBeLost(env, r, o);
    WalkExtends(env, ProposeNode, r, route, o, fuel);
    DiesWithin(env, b, o, ProposeNode, r, route, fuel, SkepticNode(env, r, o), e);
    life := OneMore(env, base, answers, e);
  }

  lemma BasicRegisters(env: Env)
    requires Basic(env)
    ensures Registered(env)
  {
  }

  lemma SameLimitsDone(env: Env, limits: Limits, d: Disk)
    requires Done(env, limits, d, 4)
    ensures d.state.limits == limits
  {
    hide Inv;
  }

  lemma ChoiceReached(env: Env, d: Disk, r: Run)
    requires AtChoice(env, d, r)
    ensures Good(env, r) && r.exit.Running? && Reached(env, ProposeNode, r.now)
  {
    hide Good, Reached;
  }

  /** A walk goes on from what its first node left. */
  lemma WalkExtends(env: Env, n: Node, r: Run, route: Option<Route>, o: Oracle, fuel: nat)
    requires !n.End? && r.exit.Running? && fuel > 0
    ensures Extends(Perform(env, n, r, o).r, Walk(env, n, r, route, o, fuel))
  {
    hide Extends, Perform, Next;
    Itself(Perform(env, n, r, o).r);
  }

  lemma OneMore(env: Env, base: seq<Disk>, answers: seq<Oracle>, e: Disk) returns (life: seq<Disk>)
    requires Life(env, base) && Uninterrupted(env, base, answers) && Follows(env, base[|base| - 1], e)
    ensures life == base + [e] && Life(env, life) && Uninterrupted(env, life, answers)
  {
    hide Follows, Advance, Initial;
    life := base + [e];
    forall k | 0 <= k < |life| - 1 ensures Follows(env, life[k], life[k + 1]) {
      if k < |base| - 1 { assert Follows(env, base[k], base[k + 1]); }
    }
    forall k | 0 <= k < |answers| ensures life[k + 1] == Advance(env, life[k], answers[k]).now {
      assert base[k + 1] == Advance(env, base[k], answers[k]).now;
    }
  }

  // ---- the announcement ----

  /** The agreed review sends the experiment to its execution. */
  lemma ReviewStands(env: Env, spec: Spec, d: Disk, r: Run) returns (q: Run)
    requires Ready(env, spec, d) && Separate(env.specs) && Experiment(env, spec) && AtChoice(env, d, r)
    ensures var k := SkepticNode(env, r, Agreeing(spec, d.state));
      && Good(env, k) && k.exit.Running?
      && q == CriticNode(env, k, Agreeing(spec, d.state)) && Good(env, q) && q.exit.Running?
      && Reached(env, VerdictNode, q.now) && q.now.state.status.WaitingForCritic? && SameWork(d, q.now)
      && CurrentSkeptic(q.now.state) == Some(Proposing(spec, d.state))
      && CurrentCritic(q.now.state) == Some(Approval(Proposing(spec, d.state), d.state))
  {
    hide Inv, Good, RequiresBegin, Separate, NoAdaptive, SkepticNode, CriticNode, JudgeSkeptic, Missing, Offer, Fresh,
      CurrentSkeptic, CurrentCritic, Experiment, Live;
    var o := Agreeing(spec, d.state);
    ProposalStands(env, spec, d, r);
    SkepticGood(env, r, o);
    var k := SkepticNode(env, r, o);
    ContextIs(env, d, k);
    assert JudgeCritic(env, k.now.state, Proposing(spec, d.state), o.critic.decision, k.now.state.available).Accept?;
    ReviewRuns(env, k, o);
    CriticGood(env, k, o);
    q := CriticNode(env, k, o);
  }

  lemma ContextIs(env: Env, d: Disk, q: Run)
    requires Inv(env, d) && Good(env, q) && SameWork(d, q.now)
    ensures q.now.state.context == d.state.context
  {
    hide Inv, Good;
    NowGood(env, q);
    ContextCounts(env, d);
    ContextCounts(env, q.now);
  }

  lemma ContextCounts(env: Env, d: Disk)
    requires Inv(env, d)
    ensures d.state.context == |d.state.evidenceRefs| + 1
  {
    hide Replay, Records, Account, AllAllowed, Roles, Proposal, Spent, Working, Reasons, Verdicts, Authority,
      Executions, ValidSnapshot, Budgets;
  }

  /** Tools that answer perform every experiment that was approved. */
  lemma ApprovedRuns(env: Env, r: Run)
    requires Good(env, r) && r.exit.Running? && Registered(env) && Obliging(env)
      && r.now.state.status.WaitingForCritic? && ForExecution(r.now.state)
    ensures ExecuteAdaptive(env, r).exit.Running?
  {
    hide Good, Inv, Refusal, CurrentSkeptic, CurrentCritic, Chosen, Execute, Receive, CommittedState, LatestBudget,
      LatestBoundary, Live, Commit, Extends, First, CommittedRun;
    NowGood(env, r);
    WorkingStatus(env, r.now);
    OpenIsFresh(env, r.now);
    OpenHasSkeptic(r.now.state);
    ApprovedPasses(env, r.now);
    var (tool, params) := Request(r.now.state);
    assert ExecuteAdaptive(env, r) == Execute(env, r, tool, params, true);
    PreparedGood(env, r, tool, params, true);
    var p := PreparedRun(env, r, tool, params, true);
    var x := NextExecution(env, r.now.state, tool, params, true);
    assert Current(p.now) == x;
    Unrefused(env, r, tool, params, true);
    var outcome := env.invoke(tool, x.params, x.action, p.now.ledger);
    assert Idempotent(env, tool, params);
    ReceiveGood(env, p, outcome);
  }

  /** From a new run, whatever the models say in the baseline, there is a life
      that reaches the commit of an experiment that was never announced. */
  lemma AnnouncementsAreLost(env: Env, spec: Spec, d: Disk, answers: seq<Oracle>) returns (life: seq<Disk>)
    requires Offering(env, spec) && Initial(d) && Ample(d.state.limits, spec) && |answers| == 4
    ensures |life| == 6 && life[0] == d && Life(env, life) && Uninterrupted(env, life, answers)
    ensures CommittedExperiment(env, life[4], life[5])
    ensures Done(env, d.state.limits, life[4], 4) && Ready(env, spec, life[4])
    ensures CurrentSkeptic(life[5].state) == Some(Proposing(spec, life[4].state))
    ensures CurrentCritic(life[5].state) == Some(Approval(Proposing(spec, life[4].state), life[4].state))
  {
    hide Inv, Good, Basic, Separate, Initial, Advance, Walk, SkepticNode, CriticNode, Ready, Done, Experiment,
      Follows, Extends, First, Available, ExecuteAdaptive, CriticRoute, CurrentSkeptic, CurrentCritic, Obliging,
      Reached;
    var base := BaselineLife(env, d, answers);
    var b := base[4];
    SameLimitsDone(env, d.state.limits, b);
    BasicRegisters(env);
    BaselineReady(env, spec, b);
    ItIsOffered(env, spec, b);
    var o := Agreeing(spec, b.state);
    var r, route, fuel := ToProposal(env, spec, b, o);
    var q := ReviewStands(env, spec, b, r);
    var k := SkepticNode(env, r, o);
    WalkNode(env, ProposeNode, r, route, o, fuel, Step(k, None));
    WalkNode(env, ReviewNode, k, route, o, fuel - 1, Step(q, None));
    VerdictGood(env, q);
    var s := CriticRoute(q);
    WalkNode(env, VerdictNode, q, route, o, fuel - 2, s);
    ReachedExecution(env, s.r.now);
    ApprovedRuns(env, s.r);
    var c := AnnouncementCanBeLost(env, s.r);
    WalkExtends(env, AdaptiveNode, s.r, s.route, o, fuel - 3);
    DiesWithin(env, b, o, AdaptiveNode, s.r, s.route, fuel - 3, ExecuteAdaptive(env, s.r), c);
    life := OneMore(env, base, answers, c);
  }

  lemma ReachedExecution(env: Env, d: Disk)
    requires Reached(env, AdaptiveNode, d)
    ensures ForExecution(d.state)
  {
    hide ForExecution, Charged;
  }

  // ---- what becomes of it ----

  /** The execution that a closed proposal of this step stands for was its own. */
  lemma LastIsSpent(env: Env, d: Disk)
    requires Inv(env, d) && !Stopped(d.state.status) && CurrentSkeptic(d.state).Some? && !Live(d.state)
    ensures d.state.executions != [] && WasLast(env, d.state, d.state.executions[|d.state.executions| - 1])
  {
    hide Ledger, Account, AllAllowed, Roles, Proposal, Working, Reasons, Verdicts, Authority, ValidSnapshot, Budgets,
      Executions, CurrentSkeptic, WasLast;
  }

  /** With the shipped registry no step is ever left unannounced: its one
      experiment has no successor. */
  lemma NeverUnannounced(env: Env, d: Disk)
    requires Inv(env, d) && Registered(env) && Shipped(env)
    ensures !Unannounced(d)
  {
    hide Inv, NoAdaptive, RequiresBegin, CurrentSkeptic, CurrentCritic, Live, Stands;
    if Unannounced(d) {
      NoneMade(env, d);
      LastIsSpent(env, d);
      NotAdaptive(d.state.executions, d.state.executions[|d.state.executions| - 1]);
      assert false;
    }
  }

  /** So there the lost announcement costs nothing: the next advance ends the run. */
  lemma ShippedEnds(env: Env, d: Disk, c: Disk, o: Oracle)
    requires Registered(env) && Shipped(env) && CommittedExperiment(env, d, c)
    ensures Advance(env, c, o).exit.Running? && Stopped(Advance(env, c, o).now.state.status)
  {
    hide Inv, Good, Advance, GoesOn, ResumedDisk, Unannounced, LatestBudget, LatestBoundary, CurrentSkeptic, Live;
    LostAnnouncementIsReached(env, d, c, o);
    UpdatingAdvance(env, c, o);
    NowGood(env, Advance(env, c, o));
    NeverUnannounced(env, Advance(env, c, o).now);
  }

  /** A second experiment that can still be paid after the first. */
  ghost predicate Affordable(env: Env, limits: Limits, spec: Spec, other: Spec) {
    && Experiment(env, other) && other.tool != spec.tool
    && 2 <= limits.adaptive && spec.cost + Max(1, other.cost) <= limits.cost
  }

  /** The committed experiment is the only one so far, and was paid. */
  lemma OnlyExperiment(env: Env, spec: Spec, d: Disk, c: Disk)
    requires Ready(env, spec, d) && Grows(d, c) && CommittedExperiment(env, d, c) && Experiment(env, spec)
    requires CurrentSkeptic(c.state) == Some(Proposing(spec, d.state))
      && CurrentCritic(c.state) == Some(Approval(Proposing(spec, d.state), d.state))
    ensures var xs := c.state.executions;
      && xs != [] && NoAdaptive(xs[..|xs| - 1]) && xs[|xs| - 1].tool == spec.tool
      && c.state.adaptiveUsed == 1 && c.state.costLeft == c.state.limits.cost - spec.cost
  {
    hide Inv, NoAdaptive, RequiresBegin, CurrentSkeptic, CurrentCritic, Live, CountAdaptive, SumCost, AllValid,
      Resolve, LatestBudget, LatestBoundary, Answered;
    var xs := c.state.executions;
    var last := xs[|xs| - 1];
    LastIsSpent(env, c);
    SignaturesAre(env, c);
    assert last in xs;
    WorkingStatus(env, d);
    CountsAre(env, d);
    CountsAre(env, c);
    NoneCounted(d.state.executions);
    LastCounts(env, d, c, last);
    NoneAdaptive(xs[..|xs| - 1]);
    CostIs(env, c);
    PaidLast(xs);
    AllowedIs(env, c, last);
  }

  lemma LastCounts(env: Env, d: Disk, c: Disk, last: Execution)
    requires c.state.executions != [] && last == c.state.executions[|c.state.executions| - 1] && last.adaptive
    requires Grows(d, c) && Missing(d.state) == {} && c.state.toolCalls == d.state.toolCalls + 1
      && d.state.adaptiveUsed == 0 && c.state.adaptiveUsed == CountAdaptive(c.state.executions)
    ensures c.state.adaptiveUsed == 1 && CountAdaptive(c.state.executions[..|c.state.executions| - 1]) == 0
  {
  }

  lemma PaidLast(xs: seq<Execution>)
    requires xs != [] && NoAdaptive(xs[..|xs| - 1]) && AllValid(xs)
    ensures SumCost(xs) == xs[|xs| - 1].cost
  {
    var init := xs[..|xs| - 1];
    assert forall x :: x in init ==> x in xs;
    NothingPaid(init);
  }

  lemma AllowedIs(env: Env, d: Disk, x: Execution)
    requires Inv(env, d) && x in d.state.executions
    ensures Allowed(env, x, CompletedSet(d.state))
  {
    hide Ledger, Account, Roles, Proposal, Spent, Working, Reasons, Verdicts, Authority, ValidSnapshot, Budgets,
      Executions, Allowed;
  }

  /** An experiment that was not made is still on offer, if it can be paid. */
  lemma StillOffered(env: Env, spec: Spec, other: Spec, c: Disk)
    requires Inv(env, c) && Separate(env.specs) && Experiment(env, other) && other.tool != spec.tool
    requires var xs := c.state.executions; xs != [] && NoAdaptive(xs[..|xs| - 1]) && xs[|xs| - 1].tool == spec.tool
    requires Missing(c.state) == {} && other.cost <= c.state.costLeft
    ensures Available(env, c.state) != []
  {
    hide Inv, Resolve, NoAdaptive, Executed, OfferedTools, Missing;
    var xs := c.state.executions;
    SignaturesAre(env, c);
    ResolvedIs(env.specs, other.tool);
    forall x | x in xs ensures x.signature != Signature(other.tool, NO_PARAMS) {
      AllowedIs(env, c, x);
      var i :| 0 <= i < |xs| && xs[i] == x;
      if i < |xs| - 1 { assert x == xs[..|xs| - 1][i]; NotAdaptive(xs[..|xs| - 1], x); }
    }
    NotExecuted(xs, Signature(other.tool, NO_PARAMS));
    NothingMissing(c.state);
    OfferMeans(env, MeansOf(c.state));
    assert Offered(other, CompletedSet(c.state), c.state.costLeft, xs);
    assert other in env.specs && Use(other.tool) in Available(env, c.state);
  }

  lemma NotExecuted(xs: seq<Execution>, sig: Signature)
    requires forall x :: x in xs ==> x.signature != sig
    ensures !Executed(xs, sig)
  {
  }

  lemma PlainCodes(d: Disk, c: Disk)
    requires d.ledger <= c.ledger && |c.ledger| == |d.ledger| + 1 && c.ledger[|d.ledger|].result.code.None?
    ensures Codes(c.ledger) == Codes(d.ledger)
  {
    var e := c.ledger[|d.ledger|];
    assert c.ledger == d.ledger + [e];
    assert forall x :: x in c.ledger <==> x in d.ledger || x == e;
  }

  /** After the lost announcement of the first, the second is still on offer. */
  lemma SecondOffered(env: Env, spec: Spec, other: Spec, d: Disk, c: Disk)
    requires Offering(env, spec) && Affordable(env, d.state.limits, spec, other)
    requires Ready(env, spec, d) && Grows(d, c) && CommittedExperiment(env, d, c) && Codes(d.ledger) == {}
    requires CurrentSkeptic(c.state) == Some(Proposing(spec, d.state))
      && CurrentCritic(c.state) == Some(Approval(Proposing(spec, d.state), d.state))
    ensures GoesOn(env, c)
  {
    hide Inv, NoAdaptive, RequiresBegin, CurrentSkeptic, CurrentCritic, Live, Basic, Separate, Experiment, Missing,
      Codes, Decisive, Available, LatestBudget, LatestBoundary, Grows;
    OnlyExperiment(env, spec, d, c);
    StillOffered(env, spec, other, c);
    PlainCodes(d, c);
    NothingDecides();
  }

  /** Where a second experiment can be paid, a new run can be brought into the
      unannounced step, for all answers in between; from there every advance
      ends it without a call. */
  lemma UnannouncedIsReached(
      env: Env, spec: Spec, other: Spec, d: Disk, answers: seq<Oracle>, o: Oracle) returns (life: seq<Disk>)
    requires Offering(env, spec) && Initial(d) && Ample(d.state.limits, spec) && |answers| == 4
    requires Affordable(env, d.state.limits, spec, other)
    ensures |life| == 7 && life[0] == d && Life(env, life) && Uninterrupted(env, life, answers)
    ensures CommittedExperiment(env, life[4], life[5]) && life[6] == Advance(env, life[5], o).now
    ensures Unannounced(life[6])
    ensures forall o2 :: var q := Advance(env, life[6], o2);
      q.exit.Running? && Stopped(q.now.state.status) && q.now.state.toolCalls == life[5].state.toolCalls
        && q.now.ledger == life[5].ledger
  {
    hide Inv, Good, Grows, Basic, Separate, Initial, Advance, Ready, Follows, CurrentSkeptic, CurrentCritic, GoesOn,
      Unannounced, CommittedExperiment, Experiment, Obliging, Codes;
    var base := AnnouncementsAreLost(env, spec, d, answers);
    BasicRegisters(env);
    assert Follows(env, base[4], base[5]);
    IsInv(env, base[4]);
    FollowsGood(env, base[4], base[5]);
    SecondOffered(env, spec, other, base[4], base[5]);
    LostAnnouncementIsReached(env, base[4], base[5], o);
    var q := Advance(env, base[5], o);
    assert q.now in q.past + [q.now];
    assert DiesIn(Operate(env, base[5], Advances(o)), q.now);
    FollowsBy(env, base[5], q.now, Advances(o));
    life := OneMore(env, base, answers, q.now);
  }

  lemma IsInv(env: Env, d: Disk)
    requires Done(env, d.state.limits, d, 4)
    ensures Inv(env, d)
  {
    hide Inv;
  }

  lemma FollowsBy(env: Env, d: Disk, e: Disk, op: Operation)
    requires DiesIn(Operate(env, d, op), e)
    ensures Follows(env, d, e)
  {
    hide Operate;
  }

  // ---- the shipped registry ----

  lemma ShippedOffers(env: Env)
    requires Registered(env) && Shipped(env) && Obliging(env) && env.schema(HarmonicTest, NO_PARAMS).Some?
    ensures Offering(env, REGISTRY[4])
  {
    hide REGISTRY, Covers, Obliging;
    ShippedIsBasic(env);
    RegistrySize();
    RegistryAt(4);
    ResolveAt(REGISTRY, 4);
    forall i | 0 <= i < |REGISTRY| && REGISTRY[i].mandatory == Some(SignalQuality) ensures REGISTRY[i].tool.SearchBls? {
      SearchAt(i);
    }
  }

  lemma SearchAt(i: nat)
    requires i < |REGISTRY| && REGISTRY[i].mandatory == Some(SignalQuality)
    ensures REGISTRY[i].tool.SearchBls?
  {
  }

  /** With the shipped registry and some tools, every new run of sufficient
      limits has a life into each of the two windows, whatever the models say in
      the baseline; the first can fail, and the second ends the run at once. */
  lemma ShippedReaches(env: Env, d: Disk, answers: seq<Oracle>, o: Oracle)
      returns (stranded: seq<Disk>, last: Oracle, lost: seq<Disk>)
    requires Registered(env) && Shipped(env) && env.schema(HarmonicTest, NO_PARAMS).Some?
    requires Initial(d) && Ample(d.state.limits, REGISTRY[4]) && |answers| == 4
    ensures var other := WithTools(env, AlwaysReady(), PlainHandlers());
      && |stranded| == 6 && stranded[0] == d && Life(other, stranded) && Uninterrupted(other, stranded, answers)
      && Stranded(stranded[5].state) && Advance(other, stranded[5], last).exit == Faulted(IllegalTransition)
    ensures var other := WithTools(env, AlwaysReady(), PlainHandlers());
      && |lost| == 6 && lost[0] == d && Life(other, lost) && Uninterrupted(other, lost, answers)
      && CommittedExperiment(other, lost[4], lost[5])
      && Advance(other, lost[5], o).exit.Running? && Stopped(Advance(other, lost[5], o).now.state.status)
  {
    hide Initial, Life, Uninterrupted, Stranded, CommittedExperiment, Advance, REGISTRY, Shipped, Registered,
      Offering;
    var other := WithTools(env, AlwaysReady(), PlainHandlers());
    SameSchema(env, other);
    ShippedOffers(other);
    RegistrySize();
    stranded, last := ProposalsStrand(other, REGISTRY[4], d, answers);
    lost := AnnouncementsAreLost(other, REGISTRY[4], d, answers);
    ShippedEnds(other, lost[4], lost[5], o);
  }
}
