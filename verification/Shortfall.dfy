/** When the driver's budget of advances is too small: exactly for which
    durable states it can be spent before the run stops. */
module Shortfall {
  import opened Domain
  import opened Store
  import opened Policy
  import opened Nodes
  import opened Invariant
  import opened Accounting
  import opened Rules
  import opened Steps
  import opened Committing
  import opened Recovery
  import opened Executing
  import opened Routing
  import opened NodeSafety
  import opened Outcomes
  import opened Cycle
  import opened Advancing
  import opened Lives
  import opened Resuming
  import opened Driving

  // ---- counting tests ----

  predicate NoRepeats(ts: seq<Test>) { forall i, j :: 0 <= i < j < |ts| ==> ts[i] != ts[j] }

  lemma {:induction false} LearnedOnce(env: Env, es: seq<Evidence>)
    ensures NoRepeats(Replay(env, es).completed)
  {
    if es != [] {
      LearnedOnce(env, es[..|es| - 1]);
      LearnsOnce(env, Replay(env, es[..|es| - 1]), es[|es| - 1]);
    }
  }

  lemma LearnsOnce(env: Env, k: Science, e: Evidence)
    requires NoRepeats(k.completed)
    ensures NoRepeats(Learn(env, k, e).completed) && |Learn(env, k, e).completed| <= |k.completed| + 1
    ensures TestOf(env, e.result.tool).None? ==> Learn(env, k, e).completed == k.completed
  {
  }

  lemma {:induction false} DistinctTests(ts: seq<Test>)
    requires NoRepeats(ts)
    ensures |TestsIn(ts)| == |ts|
  {
    if ts != [] {
      var init, last := ts[..|ts| - 1], ts[|ts| - 1];
      DistinctTests(init);
      assert TestsIn(ts) == TestsIn(init) + {last};
    }
  }

  lemma SubsetSize(a: set<Test>, b: set<Test>)
    requires a <= b
    ensures |a| <= |b| && (|a| == |b| ==> a == b)
  {
    assert b == a + (b - a);
  }

  /** At most four tests are ever completed, and all four are the whole baseline. */
  lemma TestsBounded(env: Env, d: Disk)
    requires Inv(env, d)
    ensures |d.state.completed| <= 4
    ensures Missing(d.state) == {} <==> |d.state.completed| == 4
  {
    hide Inv, Replay, TestsIn;
    CompletedIsReplay(env, d);
    LearnedOnce(env, d.ledger[..|d.state.evidenceRefs|]);
    FourTests(d.state.completed);
  }

  lemma EveryTest(t: Test)
    ensures t in MANDATORY_TESTS
  {
  }

  lemma FourTests(ts: seq<Test>)
    requires NoRepeats(ts)
    ensures |ts| <= 4 && (MANDATORY_TESTS - TestsIn(ts) == {} <==> |ts| == 4)
  {
    hide NoRepeats;
    DistinctTests(ts);
    var all := MANDATORY_TESTS;
    assert |all| == 4;
    assert TestsIn(ts) <= all by {
      forall t | t in TestsIn(ts) ensures t in all {
        EveryTest(t);
      }
    }
    SubsetSize(TestsIn(ts), all);
  }

  lemma CompletedIsReplay(env: Env, d: Disk)
    requires Inv(env, d)
    ensures |d.state.evidenceRefs| <= |d.ledger|
    ensures d.state.completed == Replay(env, d.ledger[..|d.state.evidenceRefs|]).completed
  {
    hide Replay, Account, AllAllowed, Roles, Proposal, Spent, Working, Reasons, Verdicts, Authority, Executions,
      ValidSnapshot, Budgets;
  }

  /** No adaptive tool is registered for a mandatory test. */
  predicate Separate(specs: seq<Spec>) {
    forall i :: 0 <= i < |specs| && specs[i].adaptive ==> specs[i].mandatory.None?
  }

  /** Only baseline executions complete tests. */
  lemma {:induction false} CompletedByBaseline(env: Env, xs: seq<Execution>, es: seq<Evidence>)
    requires |xs| == |es| && forall i :: 0 <= i < |xs| && xs[i].adaptive ==> TestOf(env, es[i].result.tool).None?
    ensures |Replay(env, es).completed| <= |xs| - CountAdaptive(xs)
  {
    if es != [] {
      var n := |es| - 1;
      CompletedByBaseline(env, xs[..n], es[..n]);
      LearnedOnce(env, es[..n]);
      LearnsOnce(env, Replay(env, es[..n]), es[n]);
    }
  }

  lemma AdaptiveHasNoTest(env: Env, d: Disk, i: nat)
    requires Inv(env, d) && Separate(env.specs) && i < |d.ledger| && i < |d.state.executions|
      && d.state.executions[i].adaptive
    ensures TestOf(env, d.ledger[i].result.tool).None?
  {
    hide Replay, Account, Roles, Proposal, Spent, Working, Reasons, Verdicts, Authority, Executions, ValidSnapshot,
      Budgets;
    var x := d.state.executions[i];
    assert x in d.state.executions;
    assert Allowed(env, x, CompletedSet(d.state));
    assert Answers(env, d.ledger[i], x, i);
    ResolvedIs(env.specs, x.tool);
  }

  /** Every completed test was completed by a baseline execution of its own. */
  lemma TestsAreBaselines(env: Env, d: Disk)
    requires Inv(env, d) && Separate(env.specs)
    ensures |d.state.completed| <= Baselines(d.state)
  {
    hide Inv, Replay, CountAdaptive;
    CompletedIsReplay(env, d);
    CountsAre(env, d);
    var xs, n := d.state.executions, |d.state.evidenceRefs|;
    forall i | 0 <= i < n && xs[i].adaptive ensures TestOf(env, d.ledger[i].result.tool).None? {
      AdaptiveHasNoTest(env, d, i);
    }
    CompletedByBaseline(env, xs[..n], d.ledger[..n]);
    if |xs| > n { CountPrefix(xs); } else { assert xs[..n] == xs; }
  }

  lemma CountPrefix(xs: seq<Execution>)
    requires xs != []
    ensures CountAdaptive(xs[..|xs| - 1]) <= CountAdaptive(xs) <= CountAdaptive(xs[..|xs| - 1]) + 1
  {
  }

  lemma TallyOf(env: Env, d: Disk)
    requires Inv(env, d) && Even(d.state.status)
    ensures Baselines(d.state) <= |d.state.completed| && AllCovered(env, d.state.executions, d.state.completed)
  {
    hide Ledger, AllAllowed, Roles, Proposal, Spent, Working, Reasons, Verdicts, Authority, Executions, ValidSnapshot,
      Budgets, Unswayed, Choosable, Finals, AllCovered;
  }

  // ---- what a spent budget means ----

  /** No deadline strikes. */
  ghost predicate Timeless(world: Circumstances) { forall i: nat :: world(i).1.None? }

  /** The steps still to be charged. */
  function Left(s: State): int { s.limits.steps - s.step }

  /** The tool calls of `n` advances that do not stop. */
  function Calls(s: State, n: int): int { if s.status.RunningTool? || s.status.UpdatingEvidence? then n - 1 else n }

  /** The tool calls that use up the driver's budget. */
  function Actions(s: State): int { Calls(s, Left(s) + 1) }

  /** The durable state when the budget was spent. */
  lemma {:induction false} SpentState(env: Env, d: Disk, world: Circumstances, k: nat, budget: nat) returns (f: Disk)
    requires Inv(env, d) && Registered(env) && Timeless(world) && k < budget && !Stopped(d.state.status)
    requires DriveFrom(env, d, world, k, budget).ending.BudgetSpent?
    ensures Inv(env, f) && Grows(d, f) && f.state.limits == d.state.limits
    ensures f.state.status.Initialized? || f.state.status.VettingMandatory? || f.state.status.SelectingAdaptive?
    ensures f.state.toolCalls == d.state.toolCalls + Calls(d.state, budget - k)
    decreases budget - k
  {
    hide Inv, Good, Grows, Needed, Advance, First, Extends, FailRun, RequiresBegin;
    var q := Advance(env, d, world(k).0);
    assert world(k).1.None?;
    AdvanceProgresses(env, d, world(k).0);
    SameLimits(env, d, world(k).0);
    AdvanceGrows(env, d, world(k).0);
    MovedStatus(d, q.now);
    if k + 1 == budget {
      f := q.now;
    } else {
      f := SpentState(env, q.now, world, k + 1, budget);
      GrowsTrans(d, q.now, f);
    }
  }

  lemma MovedStatus(d: Disk, q: Disk)
    requires Progressed(d, q)
    ensures q.state.status.Initialized? || q.state.status.VettingMandatory? || q.state.status.SelectingAdaptive?
    ensures q.state.toolCalls
            == d.state.toolCalls + (if d.state.status.RunningTool? || d.state.status.UpdatingEvidence? then 0 else 1)
  {
    hide RequiresBegin, LatestBudget, LatestBoundary;
  }

  lemma BudgetIs(env: Env, d: Disk)
    requires Inv(env, d)
    ensures AdvanceBudget(d.state) == Left(d.state) + 1 > 0
  {
    hide Inv;
    CountsAre(env, d);
  }

  /** For every registry and whatever tools and models answer: the driver's budget
      is spent only from inside a step, only if the tool calls that it takes are
      left, and only if the baseline and the experiments together allow them. */
  lemma SpentMeans(env: Env, d: Disk, world: Circumstances)
    requires Inv(env, d) && Registered(env) && Timeless(world)
    requires DriveFrom(env, d, world, 0, AdvanceBudget(d.state)).ending.BudgetSpent?
    ensures !Stopped(d.state.status) && !d.state.status.Finalizing? && !AtRest(d) && Left(d.state) + 1 < Needed(d)
    ensures d.state.toolCalls + Actions(d.state) <= d.state.limits.toolCalls
    ensures d.state.toolCalls + Actions(d.state) <= 4 + d.state.limits.adaptive
  {
    hide Inv, Good, Grows, DriveFrom, RequiresBegin, AdvanceBudget;
    BudgetIs(env, d);
    StoppedNeverSpends(env, d, world, AdvanceBudget(d.state));
    DriveReachesStop(env, d, world, 0, AdvanceBudget(d.state));
    assert Needed(d) > AdvanceBudget(d.state);
    if !Stopped(d.state.status) && (d.state.status.Finalizing? || AtRest(d)) { NeededMeans(env, d); }
    var f := SpentState(env, d, world, 0, AdvanceBudget(d.state));
    CountsAre(env, f);
    TallyOf(env, f);
    TestsBounded(env, f);
  }

  lemma StoppedNeverSpends(env: Env, d: Disk, world: Circumstances, budget: nat)
    requires budget > 0
    ensures Stopped(d.state.status) ==> !DriveFrom(env, d, world, 0, budget).ending.BudgetSpent?
  {
    hide Advance, FailRun;
  }

  lemma NeededMeans(env: Env, d: Disk)
    requires Inv(env, d) && !Stopped(d.state.status) && (d.state.status.Finalizing? || AtRest(d))
    ensures Needed(d) <= Left(d.state) + 1
  {
    hide Inv, RequiresBegin;
    CountsAre(env, d);
  }

  // ---- the shipped registry ----

  /** The shipped registry: every tool but the search takes no parameters. */
  ghost predicate Shipped(env: Env) {
    && env.specs == REGISTRY
    && (forall t, p :: env.schema(t, p).Some? && !t.SearchBls? ==> env.schema(t, p).value == NO_PARAMS)
    && (forall i :: 0 <= i < 4 ==> env.schema(REGISTRY[i].tool, NO_PARAMS).Some?)
  }

  lemma RegistryFacts()
    ensures |REGISTRY| == 6
    ensures UniqueTools(REGISTRY) && Separate(REGISTRY) && Covers(REGISTRY)
    ensures forall i :: 0 <= i < |REGISTRY| && REGISTRY[i].adaptive && REGISTRY[i].supported ==>
      REGISTRY[i].tool == HarmonicTest
  {
    hide REGISTRY;
    RegistryCovers();
    RegistrySize();
    forall i, j | 0 <= i < j < |REGISTRY| ensures REGISTRY[i].tool != REGISTRY[j].tool {
      RegistryAt(i);
      RegistryAt(j);
    }
    forall i | 0 <= i < |REGISTRY|
      ensures REGISTRY[i].adaptive ==>
        REGISTRY[i].mandatory.None? && (REGISTRY[i].supported ==> REGISTRY[i].tool == HarmonicTest)
    {
      RegistryAt(i);
    }
  }

  lemma RegistrySize()
    ensures |REGISTRY| == 6
  {
  }

  lemma RegistryAt(i: nat)
    requires i < |REGISTRY|
    ensures var tools := [SearchBls, OddEvenTool, SecondaryEclipseTool, ContaminationScreening, HarmonicTest,
        CentroidLocalization];
      && REGISTRY[i].tool == tools[i] && (REGISTRY[i].adaptive <==> i >= 4) && (REGISTRY[i].mandatory.Some? <==> i < 4)
      && (REGISTRY[i].supported <==> i < 5)
      && REGISTRY[i].required == {} && REGISTRY[i].authorized && REGISTRY[i].idempotent
      && REGISTRY[i].cost == (if i < 4 then 0 else i - 3)
  {
    if i == 0 { } else if i == 1 { } else if i == 2 { } else if i == 3 { } else if i == 4 { } else { }
  }

  /** The one experiment of the shipped registry has no second run. */
  lemma HarmonicOnce(env: Env, d: Disk, i: nat)
    requires Inv(env, d) && Shipped(env) && Even(d.state.status) && i < |d.state.executions|
      && d.state.executions[i].adaptive
    ensures Executed(d.state.executions, Signature(HarmonicTest, NO_PARAMS))
  {
    hide Replay, Account, Roles, Proposal, Spent, Working, Reasons, Verdicts, Authority, ValidSnapshot, Budgets,
      Missing, Resolve;
    RegistryFacts();
    AllCompleted(env, d);
    var x := d.state.executions[i];
    assert x in d.state.executions;
    assert Allowed(env, x, CompletedSet(d.state));
    ResolvedIs(env.specs, x.tool);
    assert x.tool == HarmonicTest;
    assert Answers(env, d.ledger[i], x, i);
    assert x.signature == Signature(HarmonicTest, NO_PARAMS);
  }

  /** A run of the shipped registry that still goes on has made no experiment. */
  lemma NoneMade(env: Env, d: Disk)
    requires Inv(env, d) && Shipped(env) && Registered(env)
    requires d.state.status.Initialized? || d.state.status.VettingMandatory? || d.state.status.SelectingAdaptive?
    ensures NoAdaptive(d.state.executions)
  {
    hide Inv, Offered, Executed, Offer;
    if !NoAdaptive(d.state.executions) {
      var x :| x in d.state.executions && x.adaptive;
      var i :| 0 <= i < |d.state.executions| && d.state.executions[i] == x;
      WorkingStatus(env, d);
      AdaptiveIsLate(env, d);
      HarmonicOnce(env, d, i);
      SomethingOffered(env, d);
      NothingElse(env, d);
    }
  }

  lemma AdaptiveIsLate(env: Env, d: Disk)
    requires Inv(env, d) && !NoAdaptive(d.state.executions)
    ensures Missing(d.state) == {}
  {
    hide Ledger, Account, AllAllowed, Roles, Proposal, Spent, Reasons, Verdicts, Authority, ValidSnapshot, Budgets,
      Executions, Missing, NoAdaptive;
  }

  lemma SomethingOffered(env: Env, d: Disk)
    requires Inv(env, d) && d.state.status.SelectingAdaptive? && !NoAdaptive(d.state.executions)
    ensures Offer(env, MeansOf(d.state)) != []
  {
    hide Ledger, AllAllowed, Roles, Proposal, Spent, Reasons, Verdicts, Authority, ValidSnapshot, Budgets, Executions,
      Working, NoAdaptive, Offer, Tally, Unswayed, Finals;
  }

  lemma {:induction false} OfferedSome(specs: seq<Spec>, completed: set<Test>, costLeft: int, xs: seq<Execution>)
      returns (i: nat)
    requires OfferedTools(specs, completed, costLeft, xs) != []
    ensures i < |specs| && Offered(specs[i], completed, costLeft, xs)
  {
    if Offered(specs[0], completed, costLeft, xs) {
      i := 0;
    } else {
      i := OfferedSome(specs[1..], completed, costLeft, xs);
      i := i + 1;
    }
  }

  lemma NothingElse(env: Env, d: Disk)
    requires Shipped(env) && Executed(d.state.executions, Signature(HarmonicTest, NO_PARAMS))
    ensures Offer(env, MeansOf(d.state)) == []
  {
    hide Executed;
    RegistryFacts();
    var m := MeansOf(d.state);
    if OfferedTools(env.specs, TestsIn(m.completed), m.costLeft, m.executions) != [] {
      var i := OfferedSome(env.specs, TestsIn(m.completed), m.costLeft, m.executions);
      assert false;
    }
  }

  // ---- tools that answer ----

  /** A plain success without an interpretation. */
  function PlainResult(tool: Tool, params: Params, action: nat): ToolResult {
    ToolResult(tool, Success, action, false, map[], None, params)
  }

  /** Every input is at hand, and every tool succeeds. */
  ghost predicate Obliging(env: Env) {
    && (forall tool, es :: env.inputsReady(tool, es))
    && (forall tool, params, action, es ::
          env.invoke(tool, params, action, es) == Returns(PlainResult(tool, params, action)))
  }

  /** Every mandatory tool may run, again if need be, without parameters. */
  ghost predicate Basic(env: Env) {
    && Covers(env.specs) && Registered(env)
    && forall i :: 0 <= i < |env.specs| && env.specs[i].mandatory.Some? ==> Runnable(env, env.specs[i])
  }

  predicate Runnable(env: Env, spec: Spec) {
    spec.authorized && spec.idempotent && env.schema(spec.tool, NO_PARAMS).Some?
  }

  lemma NotYetRun(env: Env, xs: seq<Execution>, completed: seq<Test>, spec: Spec, params: Params)
    requires NoAdaptive(xs) && AllCovered(env, xs, completed) && Resolve(env.specs, spec.tool) == Some(spec)
    requires forall i :: 0 <= i < |xs| ==> xs[i].signature == Signature(xs[i].tool, xs[i].params)
    requires spec.mandatory.Some? && spec.mandatory.value !in completed
    ensures !Executed(xs, Signature(spec.tool, params))
  {
    forall x | x in xs ensures x.signature != Signature(spec.tool, params) {
      var i :| 0 <= i < |xs| && xs[i] == x;
      assert Covered(env, x, completed);
    }
  }

  lemma BaselineFacts(env: Env, d: Disk)
    requires Inv(env, d) && Missing(d.state) != {} && !Stopped(d.state.status)
    ensures NoAdaptive(d.state.executions) && AdmissionOpen(d.state)
    ensures forall i :: 0 <= i < |d.state.executions| ==>
      d.state.executions[i].signature == Signature(d.state.executions[i].tool, d.state.executions[i].params)
  {
    hide Ledger, Account, AllAllowed, Roles, Proposal, Spent, Reasons, Authority, ValidSnapshot, Budgets, Missing,
      NoAdaptive, DispositionOf, Codes, Decisive;
  }

  /** A missing test with a tool for it is not refused. */
  lemma NotRefused(env: Env, d: Disk, spec: Spec)
    requires Inv(env, d) && Basic(env) && Obliging(env) && d.state.status.VettingMandatory?
      && d.state.toolCalls < d.state.limits.toolCalls
    requires FirstRunnable(env.specs, Missing(d.state), CompletedSet(d.state)) == Some(spec)
    ensures Refusal(env, d, spec.tool, NO_PARAMS, false).None? && env.schema(spec.tool, NO_PARAMS).Some?
      && Resolve(env.specs, spec.tool) == Some(spec)
    ensures TestOf(env, spec.tool) == spec.mandatory && spec.mandatory.Some?
      && spec.mandatory.value !in d.state.completed && spec.idempotent
  {
    hide Inv, FirstRunnable, Executed, Resolve, AllCovered;
    RunnableFits(env, d.state, spec);
    var i := FirstRunnableAt(env.specs, Missing(d.state), CompletedSet(d.state));
    assert Runnable(env, env.specs[i]);
    BaselineFacts(env, d);
    TallyOf(env, d);
    NotYetRun(env, d.state.executions, d.state.completed, spec, env.schema(spec.tool, NO_PARAMS).value);
  }

  /** The result of a step of the baseline that goes on. */
  ghost predicate BaselineStep(d: Disk, q: Disk) {
    && q.state.status.UpdatingEvidence? && q.state.executions != [] && |q.ledger| == |d.ledger| + 1
    && d.ledger <= q.ledger
    && Latest(q).0.adaptive == false && Latest(q).1.status.Success? && Latest(q).1.code.None?
    && |q.state.completed| == |d.state.completed| + 1 && q.state.limits == d.state.limits
  }

  lemma CommitSteps(env: Env, p: Disk, result: ToolResult)
    requires p.state.executions != [] && !Current(p).adaptive && result.tool == Current(p).tool
      && result.status.Success? && result.code.None?
    requires TestOf(env, Current(p).tool).Some? && TestOf(env, Current(p).tool).value !in p.state.completed
    requires result.action == |p.state.executions| - 1
    ensures var q := CommitOf(env, p, result); BaselineStep(p, q)
  {
    hide TestOf, UpdatedHypotheses, UpdatedCandidates, CompletedTests;
    CommitTests(env, p.state, RecordFor(Current(p), result), Current(p));
  }

  lemma StepFrom(d: Disk, p: Disk, q: Disk, r: Disk)
    requires BaselineStep(p, q) && p.ledger == d.ledger && p.state.completed == d.state.completed
      && p.state.limits == d.state.limits
    requires r.state == q.state && r.ledger == q.ledger
    ensures BaselineStep(d, r)
  {
  }

  /** With tools that answer, the mandatory node performs and commits its test. */
  lemma MandatoryActs(env: Env, r: Run)
    requires Good(env, r) && r.exit.Running? && Reached(env, MandatoryNode, r.now) && Basic(env) && Obliging(env)
    requires r.now.state.toolCalls < r.now.state.limits.toolCalls
    ensures var q := Mandatory(env, r); Good(env, q) && q.exit.Running? && BaselineStep(r.now, q.now)
  {
    hide Inv, Good, Grows, LatestBudget, LatestBoundary, Execute, TerminateRun, CurrentSkeptic, FirstRunnable,
      Charged, Receive, Refusal, First, Extends, BaselineStep, CommitOf, Resolve, Announced, Missing, TestOf,
      Performed;
    NowGood(env, r);
    CoveringRuns(env, r.now);
    ReachedRunnable(env, r.now);
    var spec := FirstRunnable(env.specs, Missing(r.now.state), CompletedSet(r.now.state)).value;
    VettingFacts(env, r.now);
    MandatoryGood(env, r);
    var s := r.now.state.(status := VettingMandatory);
    SaveGood(env, r, s);
    var r1 := Save(r, s);
    SameCompleted(r.now.state, s);
    NotRefused(env, r1.now, spec);
    PreparedGood(env, r1, spec.tool, NO_PARAMS, false);
    var p := PreparedRun(env, r1, spec.tool, NO_PARAMS, false);
    var x := NextExecution(env, s, spec.tool, NO_PARAMS, false);
    assert Current(p.now) == x;
    Unrefused(env, r1, spec.tool, NO_PARAMS, false);
    var outcome := env.invoke(spec.tool, x.params, x.action, p.now.ledger);
    assert Idempotent(env, spec.tool, NO_PARAMS);
    ReceiveGood(env, p, outcome);
    CommitSteps(env, p.now, outcome.result);
    StepFrom(r.now, p.now, CommitOf(env, p.now, outcome.result), Mandatory(env, r).now);
  }

  lemma SameCompleted(s: State, t: State)
    requires t == s.(status := t.status)
    ensures Missing(t) == Missing(s) && CompletedSet(t) == CompletedSet(s)
  {
  }

  lemma ReachedRunnable(env: Env, d: Disk)
    requires Reached(env, MandatoryNode, d) && Covers(env.specs)
    ensures FirstRunnable(env.specs, Missing(d.state), CompletedSet(d.state)).Some?
  {
    hide FirstRunnable, Charged;
    var t :| t in Missing(d.state);
    var i :| 0 <= i < |env.specs| && RunsFirst(env.specs[i], t);
    FirstFinds(env.specs, Missing(d.state), CompletedSet(d.state), i);
  }

  /** The codes of a step of the baseline are those of before. */
  lemma StepCodes(d: Disk, q: Disk)
    requires BaselineStep(d, q)
    ensures Codes(q.ledger) == Codes(d.ledger)
  {
    var e := q.ledger[|d.ledger|];
    assert q.ledger == d.ledger + [e];
    assert forall x :: x in q.ledger <==> x in d.ledger || x == e;
  }

  /** A step of the baseline goes on, unless it is the last and the evidence decides. */
  lemma StepGoesOn(env: Env, d: Disk, q: Disk)
    requires BaselineStep(d, q) && (Missing(q.state) == {} ==> Decisive(Codes(d.ledger)).None?)
    ensures GoesOn(env, q)
  {
    hide Codes, Decisive, Missing, Available;
    StepCodes(d, q);
  }

  /** `d` is inside or before a step of the baseline. */
  predicate Vetting(s: State) { s.status.Initialized? || s.status.VettingMandatory? }

  /** With tools that answer, an advance of the baseline performs one test and goes on. */
  lemma VettingAdvance(env: Env, d: Disk, o: Oracle)
    requires Inv(env, d) && Basic(env) && Obliging(env) && Vetting(d.state) && !OutOfSteps(d)
    requires d.state.toolCalls < d.state.limits.toolCalls
    requires |d.state.completed| == 3 ==> Decisive(Codes(d.ledger)).None?
    ensures var q := Advance(env, d, o);
      && q.exit.Running? && !Stopped(q.now.state.status) && Inv(env, q.now) && Progressed(d, q.now)
      && Codes(q.now.ledger) == Codes(d.ledger) && q.now.state.limits == d.state.limits
      && (AllSucceed(d.ledger) ==> AllSucceed(q.now.ledger))
  {
    hide Inv, Good, Grows, LatestBudget, LatestBoundary, Walk, First, Extends, Recover, Catch, DirectorRoute, Routed,
      RequiresBegin, OutOfSteps, Mandatory, BaselineStep, AllSucceed, GoesOn, ResumedDisk, Codes, Decisive, Missing,
      Charged, StartsStranded, Unrunnable, Little, Moved;
    StartGood(env, d);
    AdvanceSafe(env, d, o);
    SameLimits(env, d, o);
    RecoverGood(env, Start(d));
    WalkNode(env, RecoverNode, Start(d), None, o, RECURSION_LIMIT, Step(Start(d), None));
    RouteGood(env, Start(d));
    var step := DirectorRoute(env, Start(d));
    VettingRoute(env, d, step);
    WalkNode(env, RouteNode, Start(d), None, o, RECURSION_LIMIT - 1, step);
    MandatoryActs(env, step.r);
    var q := Mandatory(env, step.r);
    NowGood(env, q);
    WalkNode(env, MandatoryNode, step.r, step.route, o, RECURSION_LIMIT - 2, Step(q, None));
    StepFromSame(d, step.r.now, q.now);
    if Missing(q.now.state) == {} { LastStep(env, d, q.now); }
    StepGoesOn(env, d, q.now);
    StepCodes(d, q.now);
    StepSucceeds(d, q.now);
    StepUpdates(d, q.now);
    EvaluateEnds(env, q, step.route, o, RECURSION_LIMIT - 3);
    var w := Walk(env, EvaluateNode, q, step.route, o, RECURSION_LIMIT - 3);
    CaughtRunning(w);
    NowGood(env, w);
    ResumedLedger(q.now, w.now);
  }

  predicate AllSucceed(ledger: seq<Evidence>) { forall e :: e in ledger ==> e.result.status.Success? }

  lemma StepSucceeds(d: Disk, q: Disk)
    requires BaselineStep(d, q)
    ensures AllSucceed(d.ledger) ==> AllSucceed(q.ledger)
  {
    assert q.ledger == d.ledger + [q.ledger[|d.ledger|]];
  }

  lemma StepUpdates(d: Disk, q: Disk)
    requires BaselineStep(d, q)
    ensures q.state.status.UpdatingEvidence?
  {
  }

  lemma ResumedLedger(d: Disk, q: Disk)
    requires ResumedDisk(d, q)
    ensures q.ledger == d.ledger
  {
    hide LatestBudget, LatestBoundary, ResumedState;
  }

  lemma StepFromSame(d: Disk, p: Disk, q: Disk)
    requires BaselineStep(p, q) && SameWork(d, p)
    ensures BaselineStep(d, q)
  {
  }

  lemma LastStep(env: Env, d: Disk, q: Disk)
    requires Inv(env, q) && BaselineStep(d, q) && Missing(q.state) == {}
    ensures |d.state.completed| == 3
  {
    hide Inv;
    TestsBounded(env, q);
  }

  lemma VettingRoute(env: Env, d: Disk, step: Step)
    requires Vetting(d.state) && !OutOfSteps(d) && (step.r.exit.Running? ==> Routed(env, d, step))
      && (step.r.exit.Running? <==> !OutOfSteps(d))
    ensures step.r.exit.Running? && step.route == Some(RunMandatory) && Reached(env, MandatoryNode, step.r.now)
      && SameWork(d, step.r.now)
  {
    hide Kept, StepTaken, RequiresBegin, OutOfSteps, Missing, Charged;
  }

  // ---- the exact condition ----

  /** The record of the newest execution is already in the ledger, unevaluated. */
  predicate Unevaluated(d: Disk) {
    (d.state.status.RunningTool? || d.state.status.UpdatingEvidence?) && d.ledger != []
      && |d.ledger| == |d.state.executions|
  }

  /** The states from which the driver's budget can be spent, as far as the
      shipped registry goes: inside a step of the baseline, with as many tool
      calls and tests left as the budget has advances, a fixed result that
      counts, and evidence that does not decide if the baseline gets complete. */
  predicate Short(d: Disk) {
    var s := d.state;
    && !Stopped(s.status) && !s.status.Finalizing? && !AtRest(d)
    && s.toolCalls + Actions(s) <= s.limits.toolCalls && s.toolCalls + Actions(s) <= 4
    && (Unevaluated(d) ==> Succeeds(d.ledger[|d.ledger| - 1].result.status))
    && (s.toolCalls + Actions(s) == 4 ==> Decisive(Codes(d.ledger)).None?)
    && (s.toolCalls == 4 && Unevaluated(d) ==>
          d.ledger[|d.ledger| - 1].result.status.Success? || s.adaptiveUsed < s.limits.adaptive)
  }

  /** In the baseline every completed test is a tool call, and back. */
  lemma BaselineCounts(env: Env, d: Disk)
    requires Inv(env, d) && Separate(env.specs) && !Stopped(d.state.status)
    ensures |d.state.completed| <= d.state.toolCalls - d.state.adaptiveUsed
    ensures d.state.toolCalls < 4 ==>
      Missing(d.state) != {} && NoAdaptive(d.state.executions) && d.state.adaptiveUsed == 0
    ensures d.state.toolCalls <= 4 ==> d.state.adaptiveUsed == 0
    ensures Even(d.state.status) && d.state.toolCalls <= 4 ==> |d.state.completed| == d.state.toolCalls
  {
    hide Inv, NoAdaptive, CountAdaptive, AllCovered;
    TestsAreBaselines(env, d);
    TestsBounded(env, d);
    CountsAre(env, d);
    NoneCounted(d.state.executions);
    if !NoAdaptive(d.state.executions) { AdaptiveIsLate(env, d); }
    if Even(d.state.status) { TallyOf(env, d); }
  }

  /** With tools that answer, `n` advances of the baseline are all used up. */
  lemma {:induction false} VettingSpends(env: Env, d: Disk, world: Circumstances, k: nat, budget: nat)
    requires Inv(env, d) && Basic(env) && Separate(env.specs) && Obliging(env) && Timeless(world) && k <= budget
    requires Vetting(d.state) || d.state.status.SelectingAdaptive?
    requires d.state.toolCalls + (budget - k) <= d.state.limits.toolCalls && d.state.toolCalls + (budget - k) <= 4
    requires d.state.toolCalls + (budget - k) == 4 ==> Decisive(Codes(d.ledger)).None?
    requires budget - k <= Left(d.state) + (if RequiresBegin(d) then 0 else 1)
    ensures DriveFrom(env, d, world, k, budget).ending.BudgetSpent?
    decreases budget - k
  {
    hide Inv, Advance, First, Extends, FailRun, RequiresBegin, Codes, Decisive, LatestBudget, LatestBoundary;
    if k < budget {
      BaselineCounts(env, d);
      WorkingStatus(env, d);
      StillSteps(d, budget - k);
      VettingAdvance(env, d, world(k).0);
      assert world(k).1.None?;
      var q := Advance(env, d, world(k).0);
      AdvanceProgresses(env, d, world(k).0);
      VettingMoved(env, d, q.now);
      VettingSpends(env, q.now, world, k + 1, budget);
    }
  }

  lemma StillSteps(d: Disk, n: int)
    requires n > 0 && n <= Left(d.state) + (if RequiresBegin(d) then 0 else 1)
    ensures !OutOfSteps(d)
  {
    hide RequiresBegin;
  }

  lemma VettingMoved(env: Env, d: Disk, q: Disk)
    requires Vetting(d.state) && Progressed(d, q) && q.state.limits == d.state.limits
    ensures q.state.toolCalls == d.state.toolCalls + 1 && AtRest(q) && RequiresBegin(q)
    ensures Left(q.state) == Left(d.state) - (if RequiresBegin(d) then 1 else 0)
  {
    hide RequiresBegin;
  }

  /** A short state inside a vetting step. */
  lemma ShortVetting(env: Env, d: Disk, world: Circumstances)
    requires Inv(env, d) && Basic(env) && Separate(env.specs) && Obliging(env) && Timeless(world) && Short(d)
      && Even(d.state.status)
    ensures DriveFrom(env, d, world, 0, AdvanceBudget(d.state)).ending.BudgetSpent?
  {
    hide Inv, DriveFrom, Codes, Decisive, RequiresBegin, AdvanceBudget;
    BudgetIs(env, d);
    BaselineCounts(env, d);
    WorkingStatus(env, d);
    CountsAre(env, d);
    EvenStatus(env, d);
    VettingSpends(env, d, world, 0, AdvanceBudget(d.state));
  }

  lemma EvenStatus(env: Env, d: Disk)
    requires Inv(env, d) && Short(d) && Even(d.state.status) && d.state.toolCalls < 4 && Missing(d.state) != {}
    ensures Vetting(d.state) && !RequiresBegin(d)
  {
    hide Inv, Codes, Decisive, RequiresBegin;
    WorkingStatus(env, d);
  }

  /** What follows the first advance of a short state with a result at hand. */
  lemma ResumedSpends(env: Env, d: Disk, q: Disk, world: Circumstances)
    requires Inv(env, q) && Basic(env) && Separate(env.specs) && Obliging(env) && Timeless(world)
    requires q.state.status.VettingMandatory? || q.state.status.SelectingAdaptive?
    requires q.state.toolCalls == d.state.toolCalls && q.state.limits == d.state.limits && q.state.step == d.state.step
    requires d.state.toolCalls + Left(d.state) <= d.state.limits.toolCalls && d.state.toolCalls + Left(d.state) <= 4
    requires d.state.toolCalls + Left(d.state) == 4 ==> Decisive(Codes(q.ledger)).None?
    requires Left(d.state) >= 0
    ensures DriveFrom(env, q, world, 1, Left(d.state) + 1).ending.BudgetSpent?
  {
    hide Inv, DriveFrom, Codes, Decisive, RequiresBegin;
    VettingSpends(env, q, world, 1, Left(d.state) + 1);
  }

  lemma DriveOn(env: Env, d: Disk, world: Circumstances, budget: nat)
    requires Inv(env, d) && Registered(env) && Timeless(world) && budget > 0 && !Stopped(d.state.status)
    requires Advance(env, d, world(0).0).exit.Running? && !Stopped(Advance(env, d, world(0).0).now.state.status)
    ensures DriveFrom(env, d, world, 0, budget) == DriveFrom(env, Advance(env, d, world(0).0).now, world, 1, budget)
  {
    hide Inv, Good, Advance, First, Extends, FailRun, Needed, Progressed;
    assert world(0).1.None?;
    AdvanceProgresses(env, d, world(0).0);
  }

  /** A committed result of a short state goes on. */
  lemma ShortGoesOn(env: Env, d: Disk)
    requires Inv(env, d) && Separate(env.specs) && Short(d) && d.state.status.UpdatingEvidence?
    ensures GoesOn(env, d)
  {
    hide Inv, Codes, Decisive, Missing, RequiresBegin, Available, NoAdaptive;
    UpdatingFacts(env, d);
    BaselineCounts(env, d);
    TestsBounded(env, d);
    CountsAre(env, d);
    BaselineOnly(env, d);
  }

  lemma BaselineOnly(env: Env, d: Disk)
    requires Inv(env, d) && d.state.adaptiveUsed == 0 && d.state.executions != []
    ensures NoAdaptive(d.state.executions) && !d.state.executions[|d.state.executions| - 1].adaptive
  {
    hide Inv, CountAdaptive;
    CountsAre(env, d);
    NoneCounted(d.state.executions);
    assert d.state.executions[|d.state.executions| - 1] in d.state.executions;
  }

  lemma ShortUpdating(env: Env, d: Disk, world: Circumstances)
    requires Inv(env, d) && Basic(env) && Separate(env.specs) && Obliging(env) && Timeless(world) && Short(d)
      && d.state.status.UpdatingEvidence?
    ensures DriveFrom(env, d, world, 0, AdvanceBudget(d.state)).ending.BudgetSpent?
  {
    hide Inv, DriveFrom, Codes, Decisive, RequiresBegin, AdvanceBudget, GoesOn, Advance, First, Extends, Good,
      LatestBudget, LatestBoundary;
    BudgetIs(env, d);
    CountsAre(env, d);
    ShortGoesOn(env, d);
    UpdatingAdvance(env, d, world(0).0);
    var q := Advance(env, d, world(0).0);
    NowGood(env, q);
    DriveOn(env, d, world, AdvanceBudget(d.state));
    ResumedSpends(env, d, q.now, world);
  }

  /** The unfinished execution of a short state can be recovered. */
  lemma ShortRecovers(env: Env, d: Disk)
    requires Inv(env, d) && Basic(env) && Separate(env.specs) && Obliging(env) && Short(d)
      && d.state.status.RunningTool?
    ensures d.state.executions != [] && RecoveredEvidence(env, d).Some?
    ensures var e := RecoveredEvidence(env, d).value;
      if |d.ledger| == |d.state.executions| then d.ledger != [] && e == d.ledger[|d.ledger| - 1]
      else e.result.status.Success? && e.result.code.None?
  {
    hide Inv, Codes, Decisive, Missing, RequiresBegin, Available, NoAdaptive, Resolve;
    RunningFacts(env, d);
    CountsAre(env, d);
    BaselineCounts(env, d);
    BaselineOnly(env, d);
    var x := Current(d);
    if |d.ledger| == |d.state.evidenceRefs| {
      RunningHasTest(env, d);
      ResolvedIs(env.specs, x.tool);
      LastValidated(env, d);
    }
  }

  lemma RunningHasTest(env: Env, d: Disk)
    requires Inv(env, d) && d.state.status.RunningTool? && d.state.executions != [] && !Current(d).adaptive
    ensures TestOf(env, Current(d).tool).Some?
  {
    hide Ledger, AllAllowed, Roles, Proposal, Spent, Working, Reasons, Verdicts, Authority, Executions, ValidSnapshot,
      Budgets, Unswayed, Choosable, Finals, AllCovered;
  }

  lemma CodesPushed(es: seq<Evidence>, e: Evidence)
    requires e.result.code.None?
    ensures Codes(es + [e]) == Codes(es)
  {
    assert forall x :: x in es + [e] <==> x in es || x == e;
  }

  /** A short state whose unfinished execution has been committed is short. */
  lemma ShortCommitted(env: Env, d: Disk, u: Disk, e: Evidence)
    requires Inv(env, d) && Short(d) && d.state.status.RunningTool? && d.state.executions != []
    requires |d.state.evidenceRefs| <= |d.ledger| <= |d.state.executions| == |d.state.evidenceRefs| + 1
    requires u.state == CommittedState(env, d.state, e) && u.ledger == d.ledger[..|d.state.evidenceRefs|] + [e]
    requires if |d.ledger| == |d.state.executions| then e == d.ledger[|d.ledger| - 1]
             else e.result.status.Success? && e.result.code.None?
    ensures Short(u) && Codes(u.ledger) == Codes(d.ledger)
  {
    hide Inv, Codes, Decisive, RequiresBegin, UpdatedHypotheses, UpdatedCandidates, CompletedTests;
    if |d.ledger| == |d.state.executions| {
      assert u.ledger == d.ledger;
    } else {
      assert d.ledger[..|d.state.evidenceRefs|] == d.ledger;
      CodesPushed(d.ledger, e);
    }
  }

  lemma ShortRunning(env: Env, d: Disk, world: Circumstances)
    requires Inv(env, d) && Basic(env) && Separate(env.specs) && Obliging(env) && Timeless(world) && Short(d)
      && d.state.status.RunningTool?
    ensures DriveFrom(env, d, world, 0, AdvanceBudget(d.state)).ending.BudgetSpent?
  {
    hide Inv, DriveFrom, Codes, Decisive, RequiresBegin, AdvanceBudget, GoesOn, Advance, First, Extends, Good,
      LatestBudget, LatestBoundary, Recover, RecoveredEvidence, CommittedState, Short, Announced;
    BudgetIs(env, d);
    CountsAre(env, d);
    ShortRecovers(env, d);
    RunningFacts(env, d);
    StartGood(env, d);
    RecoverGood(env, Start(d));
    var e := RecoveredEvidence(env, d).value;
    var u := Recover(env, Start(d)).now;
    NowGood(env, Recover(env, Start(d)));
    ShortCommitted(env, d, u, e);
    CommittedStatus(env, d.state, e);
    CommittedRest(env, d.state, e);
    ShortGoesOn(env, u);
    SameGoesOn(env, u, RecoveredDisk(env, d, e));
    RunningAdvance(env, d, world(0).0);
    var q := Advance(env, d, world(0).0);
    NowGood(env, q);
    DriveOn(env, d, world, AdvanceBudget(d.state));
    ShortSums(d);
    ResumedSpends(env, d, q.now, world);
  }

  lemma ShortSums(d: Disk)
    requires Short(d) && d.state.status.RunningTool?
    ensures d.state.toolCalls + Left(d.state) <= d.state.limits.toolCalls && d.state.toolCalls + Left(d.state) <= 4
    ensures d.state.toolCalls + Left(d.state) == 4 ==> Decisive(Codes(d.ledger)).None?
  {
    hide Codes, Decisive, RequiresBegin;
  }

  /** In every short state, for every answer of every model: tools that answer
      use up the driver's budget, and the run is given up. */
  lemma ShortSpends(env: Env, d: Disk, world: Circumstances)
    requires Inv(env, d) && Basic(env) && Separate(env.specs) && Obliging(env) && Timeless(world) && Short(d)
    ensures DriveFrom(env, d, world, 0, AdvanceBudget(d.state)).ending.BudgetSpent?
  {
    hide Inv, DriveFrom, Codes, Decisive, RequiresBegin, AdvanceBudget;
    if d.state.status.RunningTool? { ShortRunning(env, d, world); }
    else if d.state.status.UpdatingEvidence? { ShortUpdating(env, d, world); }
    else { ShortVetting(env, d, world); }
  }

  // ---- nothing else is short ----

  lemma SpentFirst(env: Env, d: Disk, world: Circumstances, budget: nat)
    requires budget > 0 && DriveFrom(env, d, world, 0, budget).ending.BudgetSpent?
    ensures Advance(env, d, world(0).0).exit.Running? || Advance(env, d, world(0).0).exit.Aborted?
    ensures !Stopped(Advance(env, d, world(0).0).now.state.status) && !Stopped(d.state.status)
  {
    hide Advance, FailRun;
  }

  /** A result that went on, in the baseline. */
  lemma WentOn(env: Env, u: Disk)
    requires Inv(env, u) && u.state.status.UpdatingEvidence? && GoesOn(env, u) && u.state.adaptiveUsed == 0
    ensures u.ledger != [] && Succeeds(u.ledger[|u.ledger| - 1].result.status)
    ensures u.state.toolCalls == 4 ==>
      u.ledger[|u.ledger| - 1].result.status.Success? || u.state.adaptiveUsed < u.state.limits.adaptive
  {
    hide Inv, Codes, Decisive, Missing, Available, NoAdaptive;
    UpdatingFacts(env, u);
    BaselineOnly(env, u);
    CountsAre(env, u);
    TestsBounded(env, u);
    UpdatingTally(env, u);
  }

  lemma UpdatingTally(env: Env, u: Disk)
    requires Inv(env, u) && u.state.status.UpdatingEvidence? && u.state.executions != []
      && Counts(u.state.executions[|u.state.executions| - 1])
    ensures Baselines(u.state) <= |u.state.completed|
  {
    hide Ledger, AllAllowed, Roles, Proposal, Spent, Working, Reasons, Verdicts, Authority, Executions, ValidSnapshot,
      Budgets, Unswayed, Choosable, Finals, AllCovered;
  }

  /** The fixed result of a spent state counts. */
  lemma SpentResult(env: Env, d: Disk, world: Circumstances)
    requires Inv(env, d) && Registered(env) && Timeless(world) && Unevaluated(d) && d.state.adaptiveUsed == 0
    requires DriveFrom(env, d, world, 0, AdvanceBudget(d.state)).ending.BudgetSpent?
    ensures var status := d.ledger[|d.ledger| - 1].result.status;
      Succeeds(status) && (d.state.toolCalls == 4 ==> status.Success? || d.state.adaptiveUsed < d.state.limits.adaptive)
  {
    hide Inv, DriveFrom, Codes, Decisive, AdvanceBudget, GoesOn, Advance, First, Extends, Good, LatestBudget,
      LatestBoundary, Recover, RecoveredEvidence, CommittedState, Announced;
    BudgetIs(env, d);
    SpentFirst(env, d, world, AdvanceBudget(d.state));
    if d.state.status.UpdatingEvidence? {
      UpdatingAdvance(env, d, world(0).0);
      WentOn(env, d);
    } else {
      RunningFacts(env, d);
      CountsAre(env, d);
      RunningAdvance(env, d, world(0).0);
      StartGood(env, d);
      RecoverGood(env, Start(d));
      var q := Recover(env, Start(d));
      var e := RecoveredEvidence(env, d).value;
      NowGood(env, q);
      FixedEvidence(env, d);
      SameGoesOn(env, q.now, RecoveredDisk(env, d, e));
      CommittedStatus(env, d.state, e);
      CommittedRest(env, d.state, e);
      WentOn(env, q.now);
    }
  }

  lemma FixedEvidence(env: Env, d: Disk)
    requires d.state.executions != [] && |d.ledger| == |d.state.evidenceRefs| + 1
    ensures RecoveredEvidence(env, d) == Some(d.ledger[|d.ledger| - 1])
  {
  }

  lemma CodesGrow(a: seq<Evidence>, b: seq<Evidence>)
    requires a <= b
    ensures Codes(a) <= Codes(b)
  {
  }

  /** The last state of a spent budget is inside the baseline, or just past it. */
  lemma SpentBaseline(env: Env, d: Disk, f: Disk)
    requires Inv(env, d) && Inv(env, f) && Registered(env) && Shipped(env) && Grows(d, f)
    requires f.state.status.Initialized? || f.state.status.VettingMandatory? || f.state.status.SelectingAdaptive?
    ensures f.state.toolCalls <= 4 && (f.state.toolCalls == 4 ==> Decisive(Codes(d.ledger)).None?)
  {
    hide Inv, Grows, Codes, Decisive, CountAdaptive, NoAdaptive, AllCovered;
    CountsAre(env, f);
    NoneMade(env, f);
    NoneCounted(f.state.executions);
    TallyOf(env, f);
    TestsBounded(env, f);
    if f.state.toolCalls == 4 {
      WorkingStatus(env, f);
      SelectingIsUndecisive(env, f);
      GrownLedger(d, f);
      CodesGrow(d.ledger, f.ledger);
      DecisiveLess(Codes(d.ledger), Codes(f.ledger));
    }
  }

  /** With the shipped registry, whatever its tools and the models answer, the
      driver's budget is spent from short states only. */
  lemma SpentIsShort(env: Env, d: Disk, world: Circumstances)
    requires Inv(env, d) && Registered(env) && Shipped(env) && Timeless(world)
    requires DriveFrom(env, d, world, 0, AdvanceBudget(d.state)).ending.BudgetSpent?
    ensures Short(d)
  {
    hide Inv, Good, Grows, DriveFrom, RequiresBegin, AdvanceBudget, Codes, Decisive, CountAdaptive, NoAdaptive,
      Advance, AllCovered;
    RegistryFacts();
    SpentMeans(env, d, world);
    BudgetIs(env, d);
    CountsAre(env, d);
    var f := SpentState(env, d, world, 0, AdvanceBudget(d.state));
    SpentBaseline(env, d, f);
    BaselineCounts(env, d);
    if Unevaluated(d) { SpentResult(env, d, world); }
  }

  lemma GrownLedger(d: Disk, f: Disk)
    requires Grows(d, f)
    ensures d.ledger <= f.ledger
  {
  }

  // ---- both halves ----

  type Readiness = (Tool, seq<Evidence>) -> bool

  type Handlers = (Tool, Params, nat, seq<Evidence>) -> ToolOutcome

  /** The same program with other tools behind it. */
  function WithTools(env: Env, ready: Readiness, handlers: Handlers): Env {
    env.(inputsReady := ready, invoke := handlers)
  }

  ghost predicate Spends(env: Env, d: Disk, world: Circumstances) {
    DriveFrom(env, d, world, 0, AdvanceBudget(d.state)).ending.BudgetSpent?
  }

  /** Some tools and some answers of the models use up the driver's budget. */
  ghost predicate CanBeSpent(env: Env, d: Disk) {
    exists ready: Readiness, handlers: Handlers, world: Circumstances ::
      Timeless(world) && Spends(WithTools(env, ready, handlers), d, world)
  }

  /** The invariant does not speak about what the tools will do. */
  lemma InvWithTools(env: Env, d: Disk, ready: Readiness, handlers: Handlers)
    requires Inv(env, d)
    ensures Inv(WithTools(env, ready, handlers), d)
  {
    var other := WithTools(env, ready, handlers);
    RecordsWithTools(env, d, ready, handlers);
    OffersWithTools(env, d, ready, handlers);
    hide Ledger, Proposal, Spent, Reasons, AllAllowed, Account, Budgets, Executions, Roles, Working, Verdicts,
      Authority, ValidSnapshot;
  }

  lemma RecordsWithTools(env: Env, d: Disk, ready: Readiness, handlers: Handlers)
    requires Inv(env, d)
    ensures var other := WithTools(env, ready, handlers); Ledger(other, d.state, d.ledger)
  {
    hide Replay, Account, AllAllowed, Roles, Proposal, Spent, Working, Reasons, Verdicts, Authority, Executions,
      ValidSnapshot, Budgets;
    var other := WithTools(env, ready, handlers);
    ReplaySame(env, other, Committed(d.state.evidenceRefs, d.ledger));
    forall i | 0 <= i < |d.ledger| ensures Answers(other, d.ledger[i], d.state.executions[i], i) {
      assert Answers(env, d.ledger[i], d.state.executions[i], i);
    }
  }

  lemma OffersWithTools(env: Env, d: Disk, ready: Readiness, handlers: Handlers)
    requires Inv(env, d)
    ensures var other := WithTools(env, ready, handlers);
      && Proposal(other, d.state, Fresh(d)) && Spent(other, d.state) && Reasons(other, d.state, d.ledger)
      && AllAllowed(other, d.state.executions, CompletedSet(d.state)) && Account(other, d)
  {
    hide Ledger, Roles, Working, Verdicts, Authority, Executions, ValidSnapshot, Budgets, LatestBudget,
      LatestBoundary, ProposalOf, ReviewOf, Codes, Decisive, TestsIn, NoAdaptive, Revisions, Unswayed;
    var other := WithTools(env, ready, handlers);
    forall x | x in d.state.executions ensures Allowed(other, x, CompletedSet(d.state)) {
      assert Allowed(env, x, CompletedSet(d.state));
    }
    TallyWithTools(env, d, other);
  }

  lemma TallyWithTools(env: Env, d: Disk, other: Env)
    requires Account(env, d) && other.specs == env.specs
    ensures Tally(other, d.state.status, Baselines(d.state), d.state.executions, d.state.completed)
  {
    hide Unswayed, Choosable, Finals;
    var xs := d.state.executions;
    assert forall x :: Covered(env, x, d.state.completed) == Covered(other, x, d.state.completed);
  }

  lemma ShippedIsBasic(env: Env)
    requires Shipped(env) && Registered(env)
    ensures Basic(env) && Separate(env.specs)
  {
    hide REGISTRY;
    RegistryFacts();
    forall i | 0 <= i < |env.specs| && env.specs[i].mandatory.Some? ensures Runnable(env, env.specs[i]) {
      RegistryAt(i);
    }
  }

  function AlwaysReady(): Readiness { (tool: Tool, es: seq<Evidence>) => true }

  function PlainHandlers(): Handlers {
    (tool: Tool, params: Params, action: nat, es: seq<Evidence>) => Returns(PlainResult(tool, params, action))
  }

  /** Exactly the short states can use up the driver's budget; and from a short
      state no answer of any model can prevent it. */
  lemma ShortExactly(env: Env, d: Disk)
    requires Inv(env, d) && Registered(env) && Shipped(env)
    ensures CanBeSpent(env, d) <==> Short(d)
    ensures Short(d) ==>
      forall world: Circumstances | Timeless(world) :: Spends(WithTools(env, AlwaysReady(), PlainHandlers()), d, world)
  {
    hide Inv, DriveFrom, Short, AdvanceBudget, REGISTRY;
    if Short(d) {
      var other := WithTools(env, AlwaysReady(), PlainHandlers());
      InvWithTools(env, d, AlwaysReady(), PlainHandlers());
      SameSchema(env, other);
      ShippedIsBasic(other);
      forall world: Circumstances | Timeless(world) ensures Spends(other, d, world) { ShortSpends(other, d, world); }
      var still: Circumstances := (i: nat) => (Silence(), None);
      assert Timeless(still);
      assert Spends(other, d, still);
    }
    if CanBeSpent(env, d) {
      var ready: Readiness, handlers: Handlers, world: Circumstances :| Timeless(world)
        && Spends(WithTools(env, ready, handlers), d, world);
      InvWithTools(env, d, ready, handlers);
      SameSchema(env, WithTools(env, ready, handlers));
      SpentIsShort(WithTools(env, ready, handlers), d, world);
    }
  }

  lemma SameSchema(env: Env, other: Env)
    requires other.specs == env.specs && other.schema == env.schema
    ensures Registered(env) ==> Registered(other)
    ensures Shipped(env) ==> Shipped(other)
  {
    hide REGISTRY;
    if Registered(env) { forall t, p ensures Idempotent(other, t, p) { assert Idempotent(env, t, p); } }
  }

  /** Models that never answer. */
  function Silence(): Oracle {
    Oracle([], Skipped, Skipped, [], Skipped, [], Skipped, [], GaveUp(ModelTimeout, Failed), [],
        GaveUp(ModelTimeout, Failed), [], Skipped)
  }

  // ---- a witness ----

  /** The first charge of a new run is a state in which its process may die. */
  lemma FirstCharge(env: Env, d: Disk, o: Oracle) returns (c: Disk)
    requires Initial(d) && d.state.limits.steps >= 1
    ensures DiesIn(Advance(env, d, o), c) && Inv(env, c)
    ensures c.state == d.state.(step := 1) && c.ledger == [] && !RequiresBegin(c)
  {
    hide Inv, Good, Grows, LatestBudget, LatestBoundary, Walk, First, Extends, Recover, Catch, FreshCycle, Emit,
      Initial;
    InitialIsAtRest(env, d);
    InitialFacts(d);
    StartGood(env, d);
    var r := Start(d);
    RecoverGood(env, r);
    PendingIs(env, d);
    BeginGood(env, r);
    var b := Begin(r);
    NowGood(env, b);
    c := b.now;
    PendingIs(env, c);
    ChargedOnce(env, d, c);
    BeginGood(env, b);
    assert RecoverCheckpoints(r) == r;
    Admissible(env, d);
    assert DetermineRoute(env, r) == FreshCycle(env, b);
    var s := DirectorRoute(env, r);
    Itself(s.r);
    Onward(b, FreshCycle(env, b).r, s.r);
    ReachesEnd(env, r, b, s, o);
    DiesAt(b, Advance(env, d, o));
  }

  lemma InitialFacts(d: Disk)
    requires Initial(d)
    ensures d.state.status.Initialized? && d.state.step == 0 && d.decisions == [] && d.state.checkpoints == []
      && d.ledger == []
    ensures d.state.accepted == [] && d.state.toolCalls == 0 && d.state.executions == [] && !PendingEvaluation(d)
  {
  }

  lemma ReachesEnd(env: Env, r: Run, b: Run, s: Step, o: Oracle)
    requires r.past == [] && Recover(env, r) == r && r.exit.Running? && s == DirectorRoute(env, r) && Extends(b, s.r)
    ensures Extends(b, Advance(env, r.now, o))
  {
    hide Extends, Recover, DirectorRoute, Catch, First;
    var w := Walk(env, RecoverNode, r, None, o, RECURSION_LIMIT);
    WalkNode(env, RecoverNode, r, None, o, RECURSION_LIMIT, Step(r, None));
    var w1 := Walk(env, RouteNode, r, None, o, RECURSION_LIMIT - 1);
    if s.r.exit.Running? {
      WalkNode(env, RouteNode, r, None, o, RECURSION_LIMIT - 1, s);
      match Next(RouteNode, if s.route.Some? then s.route else None)
      case None => Onward(b, s.r, w1);
      case Some(m) => Onward(b, s.r, w1);
    } else {
      WalkStop(env, RouteNode, r, None, o, RECURSION_LIMIT - 1);
    }
    Onward(b, w1, Catch(w1));
  }

  /** Every new run with two to four steps whose process dies right after the
      first of them is charged is given up on its resumption, although that step
      is not the last, every tool answers, and whatever the models say. */
  lemma EarlyCrashFallsShort(env: Env, d: Disk, o: Oracle, world: Circumstances) returns (c: Disk)
    requires Initial(d) && Basic(env) && Separate(env.specs) && Obliging(env) && Timeless(world)
    requires 2 <= d.state.limits.steps <= 4 && d.state.limits.steps <= d.state.limits.toolCalls
    ensures DiesIn(Advance(env, d, o), c) && c.state.step < c.state.limits.steps
    ensures Short(c) && Spends(env, c, world)
  {
    hide Inv, DriveFrom, AdvanceBudget, Advance, RequiresBegin, Initial, Obliging, Basic;
    InitialFacts(d);
    c := FirstCharge(env, d, o);
    assert Codes(c.ledger) == {};
    ShortSpends(env, c, world);
  }
}
