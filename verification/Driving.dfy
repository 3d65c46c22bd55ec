/** The outer driver: it advances a run until it stops, within a budget of
    advances, and gives the run up when that goes wrong. */
module Driving {
  import opened Domain
  import opened Store
  import opened Policy
  import opened Nodes
  import opened Invariant
  import opened Accounting
  import opened Steps
  import opened Committing
  import opened Recovery
  import opened Executing
  import opened Routing
  import opened NodeSafety
  import opened Outcomes
  import opened Cycle
  import opened Advancing
  import opened Interference
  import opened Resuming
  import opened Lives
  import opened Controlling

  /** How the driver ended. */
  datatype Ending = ReachedStop | NoProgress | BudgetSpent | OutOfTime | Unexpected(fault: Fault)

  datatype Drive = Drive(disk: Disk, advances: nat, ending: Ending)

  /** What the world does to the k-th advance: the models' answers, and the
      number of durable writes after which the deadline strikes, if it does. */
  type Circumstances = nat -> (Oracle, Option<nat>)

  function GiveUp(d: Disk): Disk { FailRun(Start(d)).now }

  function AdvanceBudget(s: State): nat { Max(1, if s.step <= s.limits.steps then s.limits.steps - s.step + 1 else 1) }

  /** `_drive` after `k` advances. */
  function DriveFrom(env: Env, d: Disk, world: Circumstances, k: nat, budget: nat): Drive
    decreases budget - k
  {
    if budget <= k then Drive(GiveUp(d), k, BudgetSpent)
    else if Stopped(d.state.status) then Drive(d, k, ReachedStop)
    else
      var (answers, deadline) := world(k);
      var q := Advance(env, d, answers);
      if deadline.Some? then Drive(GiveUp(Cut(q, deadline.value)), k, OutOfTime)
      else if q.exit.Faulted? then Drive(GiveUp(q.now), k, Unexpected(q.exit.fault))
      else if Stopped(q.now.state.status) then Drive(q.now, k + 1, ReachedStop)
      else if q.now.state == d.state then Drive(GiveUp(q.now), k + 1, NoProgress)
      else DriveFrom(env, q.now, world, k + 1, budget)
  }

  /** Every registered mandatory test can be run first. */
  predicate Covers(specs: seq<Spec>) {
    forall t :: t in MANDATORY_TESTS ==> exists i :: 0 <= i < |specs| && RunsFirst(specs[i], t)
  }

  predicate RunsFirst(spec: Spec, t: Test) { spec.mandatory == Some(t) && spec.required == {} }

  lemma {:induction false} FirstFinds(specs: seq<Spec>, missing: set<Test>, completed: set<Test>, i: nat)
    requires i < |specs| && specs[i].mandatory.Some? && specs[i].mandatory.value in missing && specs[i].required == {}
    ensures FirstRunnable(specs, missing, completed).Some?
  {
    if !(specs[0].mandatory.Some? && specs[0].mandatory.value in missing && specs[0].required <= completed) {
      FirstFinds(specs[1..], missing, completed, i - 1);
    }
  }

  /** With such a registry the edge that leads nowhere is never reached. */
  lemma CoveringRuns(env: Env, d: Disk)
    requires Inv(env, d) && Covers(env.specs)
    ensures !Unrunnable(env, d)
  {
    hide Inv, RequiresBegin, FirstRunnable;
    if d.state.status.Initialized? || d.state.status.VettingMandatory? {
      WorkingStatus(env, d);
      var t :| t in Missing(d.state);
      var i :| 0 <= i < |env.specs| && RunsFirst(env.specs[i], t);
      FirstFinds(env.specs, Missing(d.state), CompletedSet(d.state), i);
    }
  }

  /** The shipped registry: four mandatory tools without prerequisites, and two
      adaptive ones, of which one is not implemented. */
  const REGISTRY: seq<Spec> := [
    Spec(SearchBls, Some(SignalQuality), false, 0, {}, true, true, true),
    Spec(OddEvenTool, Some(OddEven), false, 0, {}, true, true, true),
    Spec(SecondaryEclipseTool, Some(SecondaryEclipse), false, 0, {}, true, true, true),
    Spec(ContaminationScreening, Some(Contamination), false, 0, {}, true, true, true),
    Spec(HarmonicTest, None, true, 1, {}, true, true, true),
    Spec(CentroidLocalization, None, true, 2, {}, false, true, true)]

  lemma RegistryCovers()
    ensures Covers(REGISTRY)
  {
    forall t | t in MANDATORY_TESTS ensures exists i :: 0 <= i < |REGISTRY| && RunsFirst(REGISTRY[i], t) {
      var i := match t case SignalQuality => 0 case OddEven => 1 case SecondaryEclipse => 2 case Contamination => 3;
      assert RunsFirst(REGISTRY[i], t);
    }
  }

  /** How many advances a run may still need. */
  function Needed(d: Disk): int {
    var left := d.state.limits.steps - d.state.step;
    if Stopped(d.state.status) then 0
    else if d.state.status.Finalizing? then 1
    else if AtRest(d) then left + 1
    else if d.state.status.UpdatingEvidence?
      && !(LatestBudget(d.trace, d.state.step) < LatestBoundary(d.trace, d.state.step)) then left + 3
    else left + 2
  }

  lemma StepsBounded(env: Env, d: Disk)
    requires Inv(env, d)
    ensures d.state.step <= d.state.limits.steps
  {
    hide Ledger, Roles, Proposal, Spent, Working, Account, AllAllowed, Reasons, Verdicts, Authority, Executions,
      ValidSnapshot;
  }

  /** An advance that neither stops nor fails makes progress. */
  lemma AdvanceProgresses(env: Env, d: Disk, o: Oracle)
    requires Inv(env, d) && Registered(env) && !Stopped(d.state.status)
    ensures var q := Advance(env, d, o);
      && Good(env, q) && Inv(env, q.now) && !q.exit.Aborted?
      && (q.exit.Running? && !Stopped(q.now.state.status) ==>
          q.now.state != d.state && Needed(q.now) < Needed(d) && Progressed(d, q.now))
  {
    hide Inv, Good, LatestBudget, LatestBoundary, Advance, First, Extends, StartsStranded, Unrunnable, Little;
    AdvanceSafe(env, d, o);
    if d.state.status.Finalizing? { FinalizingAdvance(env, d, o); }
    NowGood(env, Advance(env, d, o));
    StepsBounded(env, Advance(env, d, o).now);
    FreshTaken(env, d, Advance(env, d, o));
  }

  lemma FreshTaken(env: Env, d: Disk, q: Run)
    requires Inv(env, d) && !Stopped(d.state.status) && Little(d, q.now)
    ensures q.now.state.limits == d.state.limits
    ensures RequiresBegin(d) ==> AtRest(d)
  {
    hide Inv, LatestBudget, LatestBoundary, PendingEvaluation;
    WorkingStatus(env, d);
    PendingIs(env, d);
  }

  /** The driver does not stall, and does not run out of enough advances. */
  ghost predicate EndsWell(env: Env, d: Disk, r: Drive, room: int) {
    && !r.ending.NoProgress? && !r.ending.OutOfTime?
    && (1 <= room && Needed(d) <= room ==> !r.ending.BudgetSpent?)
    && (r.ending.ReachedStop? ==> Stopped(r.disk.state.status) && Inv(env, r.disk))
  }

  /** From any durable state the driver never stalls; given the advances the
      run needs, it reaches a stop status, unless an advance fails. */
  lemma {:induction false} DriveReachesStop(env: Env, d: Disk, world: Circumstances, k: nat, budget: nat)
    requires Inv(env, d) && Registered(env) && forall i: nat :: world(i).1.None?
    ensures EndsWell(env, d, DriveFrom(env, d, world, k, budget), budget - k)
    decreases budget - k
  {
    hide Inv, Good, Needed, Advance, First, Extends, FailRun, Progressed;
    if k < budget && !Stopped(d.state.status) {
      var q := Advance(env, d, world(k).0);
      assert world(k).1.None?;
      AdvanceProgresses(env, d, world(k).0);
      if q.exit.Running? && !Stopped(q.now.state.status) {
        NeededSome(env, q.now);
        DriveReachesStop(env, q.now, world, k + 1, budget);
      }
    }
  }

  lemma NeededSome(env: Env, d: Disk)
    requires Inv(env, d) && !Stopped(d.state.status)
    ensures Needed(d) >= 1
  {
    hide Inv, RequiresBegin, LatestBudget, LatestBoundary;
    StepsBounded(env, d);
  }

  /** From a cycle boundary the driver's own budget is always enough, whatever
      the models answer: it ends in a stop status without giving the run up. */
  lemma BudgetSuffices(env: Env, d: Disk, world: Circumstances)
    requires Inv(env, d) && Registered(env) && Covers(env.specs) && AtRest(d) && forall i: nat :: world(i).1.None?
    ensures DriveFrom(env, d, world, 0, AdvanceBudget(d.state)).ending == ReachedStop
  {
    hide Inv, Good, Advance, First, Extends, FailRun, DriveFrom, RequiresBegin;
    StepsBounded(env, d);
    RestStops(env, d, world, 0, AdvanceBudget(d.state));
  }

  lemma {:induction false} RestStops(env: Env, d: Disk, world: Circumstances, k: nat, budget: nat)
    requires Inv(env, d) && Registered(env) && Covers(env.specs) && AtRest(d) && forall i: nat :: world(i).1.None?
    requires budget - k == d.state.limits.steps - d.state.step + 1
    ensures DriveFrom(env, d, world, k, budget).ending == ReachedStop
    decreases budget - k
  {
    hide Inv, Good, Advance, First, Extends, FailRun, RequiresBegin, Unrunnable;
    StepsBounded(env, d);
    CoveringRuns(env, d);
    CycleFromRest(env, d, world(k).0);
    assert world(k).1.None?;
    var q := Advance(env, d, world(k).0);
    if !Stopped(q.now.state.status) {
      NowGood(env, q);
      AdvanceProgresses(env, d, world(k).0);
      StepsBounded(env, q.now);
      SameLimits(env, d, world(k).0);
      RestStops(env, q.now, world, k + 1, budget);
    }
  }

  lemma SameLimits(env: Env, d: Disk, o: Oracle)
    requires Inv(env, d) && Registered(env)
    ensures Advance(env, d, o).now.state.limits == d.state.limits
  {
    hide Inv, Good, Advance, First, Extends, StartsStranded, Unrunnable, Progressed;
    AdvanceSafe(env, d, o);
  }

  /** A new run starts at a cycle boundary. */
  lemma InitialIsAtRest(env: Env, d: Disk)
    requires Initial(d)
    ensures Inv(env, d) && AtRest(d)
  {
    hide Inv;
    InitialIsGood(env, d);
    if d.trace != [] { assert d.trace[..0] == [] && LatestBudget([], 0) == 0; }
  }

  // ---- the models and the verdict ----

  /** The durable state after up to k uninterrupted advances. */
  function Forward(env: Env, d: Disk, answers: seq<Oracle>): Disk
    decreases |answers|
  {
    if answers == [] || Stopped(d.state.status) || !Advance(env, d, answers[0]).exit.Running? then d
    else Forward(env, Advance(env, d, answers[0]).now, answers[1..])
  }

  /** Experiments are being chosen on evidence that decided nothing. */
  predicate Undecisive(d: Disk) { d.state.status.SelectingAdaptive? && Decisive(Codes(d.ledger)).None? }

  lemma SelectingIsUndecisive(env: Env, d: Disk)
    requires Inv(env, d) && NoAdaptive(d.state.executions)
      && (d.state.status.SelectingAdaptive? || d.state.status.WaitingForCritic?)
    ensures Decisive(Codes(d.ledger)).None?
  {
    hide Ledger, Roles, Proposal, Spent, Working, Authority, Executions, ValidSnapshot, Budgets, Codes, Decisive;
  }

  lemma {:induction false} NoneCounted(xs: seq<Execution>)
    ensures NoAdaptive(xs) <==> CountAdaptive(xs) == 0
  {
    if xs != [] {
      var init := xs[..|xs| - 1];
      NoneCounted(init);
      assert xs == init + [xs[|xs| - 1]];
    }
  }

  /** Before its first choice an advance makes no adaptive experiment. */
  lemma BaselineStays(env: Env, d: Disk, o: Oracle)
    requires Inv(env, d) && Registered(env) && Undecided(d.state) && !Stopped(d.state.status)
      && NoAdaptive(d.state.executions)
    requires Advance(env, d, o).exit.Running? && !Stopped(Advance(env, d, o).now.state.status)
    ensures NoAdaptive(Advance(env, d, o).now.state.executions)
      && !Advance(env, d, o).now.state.status.WaitingForCritic?
  {
    hide Inv, Good, Advance, First, Extends, NoAdaptive, CountAdaptive, LatestBudget, LatestBoundary;
    AdvanceAlike(env, d, o, o);
    AdvanceProgresses(env, d, o);
    AdaptiveCounts(env, d);
    AdaptiveCounts(env, Advance(env, d, o).now);
    NoneCounted(d.state.executions);
    NoneCounted(Advance(env, d, o).now.state.executions);
  }

  lemma AdaptiveCounts(env: Env, d: Disk)
    requires Inv(env, d)
    ensures d.state.adaptiveUsed == CountAdaptive(d.state.executions)
  {
    hide Ledger, Roles, Proposal, Spent, Working, Authority, Executions, ValidSnapshot, Account, AllAllowed, Reasons,
      Verdicts;
  }

  /** Two behaviours bring a run into the same state, in which the evidence has
      decided nothing. */
  predicate Meet(env: Env, d: Disk, a: seq<Oracle>, b: seq<Oracle>) {
    Forward(env, d, a) == Forward(env, d, b) && Undecisive(Forward(env, d, a))
  }

  /** Run twice with any two behaviours of the models, a run before its first
      experiment either ends with the same verdict, or passes through one and
      the same state in which the evidence has decided nothing. */
  lemma {:induction false} VerdictIsDeterministic(env: Env, d: Disk, a: seq<Oracle>, b: seq<Oracle>)
    requires Inv(env, d) && Registered(env) && NoAdaptive(d.state.executions) && |a| == |b|
      && !d.state.status.WaitingForCritic?
    ensures || Forward(env, d, a) == Forward(env, d, b)
            || SameVerdict(Forward(env, d, a), Forward(env, d, b))
            || exists k :: 0 <= k <= |a| && Meet(env, d, a[..k], b[..k])
    decreases |a|
  {
    hide Inv, Good, Advance, First, Extends, NoAdaptive, Undecisive, SameVerdict;
    if a == [] || Stopped(d.state.status) {
      assert Forward(env, d, a) == Forward(env, d, b);
    } else if d.state.status.SelectingAdaptive? {
      assert Undecisive(d) by { SelectingIsUndecisive(env, d); UndecisiveIs(d); }
      assert Meet(env, d, a[..0], b[..0]);
    } else {
      AdvanceAlike(env, d, a[0], b[0]);
      AdvanceProgresses(env, d, a[0]);
      var p, q := Advance(env, d, a[0]), Advance(env, d, b[0]);
      if p == q && p.exit.Running? {
        if Stopped(p.now.state.status) {
          assert Forward(env, p.now, a[1..]) == p.now == Forward(env, p.now, b[1..]);
        } else {
          BaselineStays(env, d, a[0]);
          VerdictIsDeterministic(env, p.now, a[1..], b[1..]);
          if k :| 0 <= k <= |a| - 1 && Meet(env, p.now, a[1..][..k], b[1..][..k]) {
            assert a[..k + 1][0] == a[0] && a[..k + 1][1..] == a[1..][..k];
            assert b[..k + 1][0] == b[0] && b[..k + 1][1..] == b[1..][..k];
            assert Forward(env, d, a[..k + 1]) == Forward(env, p.now, a[1..][..k]);
            assert Meet(env, d, a[..k + 1], b[..k + 1]);
          }
        }
      } else if p != q {
        assert SameVerdict(p.now, q.now) && Stopped(p.now.state.status)
          && Stopped(q.now.state.status) by { VerdictStops(p, q); }
        assert Forward(env, p.now, a[1..]) == p.now && Forward(env, q.now, b[1..]) == q.now;
      }
    }
  }

  lemma UndecisiveIs(d: Disk)
    requires d.state.status.SelectingAdaptive? && Decisive(Codes(d.ledger)).None?
    ensures Undecisive(d)
  {
  }

  lemma VerdictStops(p: Run, q: Run)
    requires Alike(p, q) && p != q
    ensures SameVerdict(p.now, q.now) && Stopped(p.now.state.status) && Stopped(q.now.state.status)
  {
  }

  lemma AdvanceGrows(env: Env, d: Disk, o: Oracle)
    requires Inv(env, d) && Registered(env)
    ensures Grows(d, Advance(env, d, o).now)
  {
    hide Inv, Good, Grows, Advance, First, Extends, StartsStranded, Unrunnable, Little, Progressed;
    AdvanceSafe(env, d, o);
    var q := Advance(env, d, o);
    HistoryGrows(env, q, |q.past|);
    assert First(q) == d;
  }

  lemma CountsAre(env: Env, d: Disk)
    requires Inv(env, d)
    ensures d.state.toolCalls == |d.state.executions| <= d.state.limits.toolCalls
    ensures d.state.adaptiveUsed == CountAdaptive(d.state.executions) <= d.state.limits.adaptive
    ensures |d.state.evidenceRefs| <= |d.ledger| <= |d.state.executions| <= |d.state.evidenceRefs| + 1
    ensures d.state.step <= d.state.limits.steps
  {
    hide Replay, Account, AllAllowed, Roles, Proposal, Spent, Working, Reasons, Verdicts, Authority, Executions,
      ValidSnapshot;
  }

  /** Every state on the way grows into the end. */
  lemma {:induction false} ForwardGrows(env: Env, d: Disk, answers: seq<Oracle>, k: nat)
    requires Inv(env, d) && Registered(env) && k <= |answers|
    ensures Inv(env, Forward(env, d, answers)) && Inv(env, Forward(env, d, answers[..k]))
    ensures Grows(Forward(env, d, answers[..k]), Forward(env, d, answers)) && Grows(d, Forward(env, d, answers))
    decreases |answers|
  {
    hide Inv, Grows, Good, Advance, First, Extends, StartsStranded, Unrunnable, Little, Progressed;
    GrowsSelf(d);
    if answers != [] && !Stopped(d.state.status) && Advance(env, d, answers[0]).exit.Running? {
      var q := Advance(env, d, answers[0]);
      AdvanceSafe(env, d, answers[0]);
      NowGood(env, q);
      AdvanceGrows(env, d, answers[0]);
      ForwardGrows(env, q.now, answers[1..], if k > 0 then k - 1 else 0);
      GrowsTrans(d, q.now, Forward(env, q.now, answers[1..]));
      if k > 0 {
        assert answers[..k][0] == answers[0] && answers[..k][1..] == answers[1..][..k - 1];
      } else {
        assert answers[..0] == [];
      }
    } else if k > 0 {
      assert answers[..k][0] == answers[0];
    }
  }

  /** Without a new execution there is no new evidence. */
  lemma SameEvidence(env: Env, e: Disk, f: Disk)
    requires Inv(env, e) && Inv(env, f) && Grows(e, f) && e.state.status.SelectingAdaptive?
      && NoAdaptive(f.state.executions)
    ensures e.ledger == f.ledger
  {
    hide Inv, NoAdaptive, CountAdaptive, TestsIn;
    WorkingStatus(env, e);
    AllCompleted(env, e);
    CountsAre(env, e);
    CountsAre(env, f);
    NoneCounted(f.state.executions);
  }

  lemma DecisiveIsUnswayed(env: Env, f: Disk)
    requires Inv(env, f) && Decisive(BaselineCodes(f.state.executions, f.ledger)).Some?
    ensures NoAdaptive(f.state.executions)
  {
    hide Ledger, AllAllowed, Roles, Proposal, Spent, Working, Reasons, Verdicts, Authority, Executions, ValidSnapshot,
      Budgets, Tally, Choosable, Finals, Decisive, BaselineCodes, BaselineFirst;
  }

  /** When the mandatory evidence of a finished run holds a decisive code, every
      other behaviour of the models, timeouts, invalid answers and exhausted
      budgets included, ends with the same status, disposition and evidence. */
  lemma DecisiveBaselineDecides(env: Env, d: Disk, a: seq<Oracle>, b: seq<Oracle>)
    requires Inv(env, d) && Registered(env) && NoAdaptive(d.state.executions) && |a| == |b|
      && !d.state.status.WaitingForCritic?
    requires var f := Forward(env, d, a);
      Stopped(f.state.status) && Decisive(BaselineCodes(f.state.executions, f.ledger)).Some?
    ensures var f, g := Forward(env, d, a), Forward(env, d, b);
      g.state.status == f.state.status && g.state.disposition == f.state.disposition && g.ledger == f.ledger
  {
    hide Inv, Grows, Forward, NoAdaptive, Decisive, Codes, BaselineCodes;
    VerdictIsDeterministic(env, d, a, b);
    var f := Forward(env, d, a);
    ForwardGrows(env, d, a, 0);
    if k :| 0 <= k <= |a| && Forward(env, d, a[..k]) == Forward(env, d, b[..k]) && Undecisive(Forward(env, d, a[..k])) {
      ForwardGrows(env, d, a, k);
      var e := Forward(env, d, a[..k]);
      DecisiveIsUnswayed(env, f);
      SameEvidence(env, e, f);
      BaselineCodesAre(f.state.executions, f.ledger);
      DecisiveLess(BaselineCodes(f.state.executions, f.ledger), Codes(f.ledger));
    }
  }

  lemma CutGood(env: Env, d: Disk, q: Run, writes: nat)
    requires Good(env, q) && First(q) == d
    ensures Inv(env, Cut(q, writes)) && Grows(d, Cut(q, writes))
  {
    hide Inv, Grows, Good;
    var i := if writes < |q.past| then writes else |q.past|;
    assert Cut(q, writes) == At(q, i);
    HistoryGrows(env, q, i);
  }

  lemma GiveUpGood(env: Env, d: Disk)
    requires Inv(env, d)
    ensures Inv(env, GiveUp(d)) && Grows(d, GiveUp(d)) && Stopped(GiveUp(d).state.status)
  {
    hide Inv, Grows, Good, FailRun, First, Extends;
    StartGood(env, d);
    FailRunGood(env, Start(d));
    var q := FailRun(Start(d));
    NowGood(env, q);
    FirstStart(d);
    HistoryGrows(env, q, |q.past|);
  }

  lemma FirstStart(d: Disk)
    ensures First(FailRun(Start(d))) == d
  {
    hide FailRun;
  }

  /** Whatever happens to the driver, deadlines and unexpected errors included,
      it leaves a good state in which the run has stopped, grown from the one it
      was given. */
  lemma {:induction false} DriveKeeps(env: Env, d: Disk, world: Circumstances, k: nat, budget: nat)
    requires Inv(env, d) && Registered(env)
    ensures var r := DriveFrom(env, d, world, k, budget);
      Inv(env, r.disk) && Grows(d, r.disk) && Stopped(r.disk.state.status)
    decreases budget - k
  {
    hide Inv, Grows, Good, Advance, FailRun, First, Extends, StartsStranded, Unrunnable, Little, Progressed, GiveUp,
      Cut;
    GrowsSelf(d);
    if budget <= k {
      GiveUpGood(env, d);
    } else if !Stopped(d.state.status) {
      var q := Advance(env, d, world(k).0);
      AdvanceSafe(env, d, world(k).0);
      NowGood(env, q);
      AdvanceGrows(env, d, world(k).0);
      if world(k).1.Some? {
        var c := Cut(q, world(k).1.value);
        CutGood(env, d, q, world(k).1.value);
        GiveUpGood(env, c);
        GrowsTrans(d, c, GiveUp(c));
      } else if q.exit.Faulted? {
        GiveUpGood(env, q.now);
        GrowsTrans(d, q.now, GiveUp(q.now));
      } else if !Stopped(q.now.state.status) {
        if q.now.state == d.state {
          GiveUpGood(env, q.now);
          GrowsTrans(d, q.now, GiveUp(q.now));
        } else {
          DriveKeeps(env, q.now, world, k + 1, budget);
          GrowsTrans(d, q.now, DriveFrom(env, q.now, world, k + 1, budget).disk);
        }
      }
    }
  }

  // ---- the driver as it runs ----

  class RunService {
    const controller: Controller

    constructor (controller: Controller)
      ensures this.controller == controller
    {
      this.controller := controller;
    }

    /** `_drive`: advance until the run stops, stalls, fails, or runs out of
        advances or time. */
    method DriveRun(world: Circumstances) returns (advances: nat, ending: Ending)
      requires controller.Valid()
      modifies controller
      ensures controller.Valid()
      ensures Drive(controller.store, advances, ending) ==
        DriveFrom(controller.env, old(controller.store), world, 0, AdvanceBudget(old(controller.state)))
      ensures Inv(controller.env, old(controller.store)) && Registered(controller.env) ==>
        && Inv(controller.env, controller.store) && Grows(old(controller.store), controller.store)
        && Stopped(controller.state.status)
    {
      hide Advance, FailRun, AdvanceBudget, Inv, Grows, Good, Extends, First, AdvanceMeets;
      if Inv(controller.env, controller.store) && Registered(controller.env) {
        DriveKeeps(controller.env, controller.store, world, 0, AdvanceBudget(controller.state));
      }
      advances := 0;
      var budget := AdvanceBudget(controller.state);
      while advances < budget
        invariant controller.Valid() && 0 <= advances
        invariant DriveFrom(controller.env, controller.store, world, advances, budget) ==
          DriveFrom(controller.env, old(controller.store), world, 0, budget)
        decreases budget - advances
      {
        if Stopped(controller.state.status) { return advances, ReachedStop; }
        var before := controller.state;
        var (answers, deadline) := world(advances);
        if deadline.Some? {
          controller.Interrupted(answers, deadline.value);
          controller.FailDurableRun();
          return advances, OutOfTime;
        }
        controller.AdvanceOnce(answers);
        if controller.exit.Faulted? {
          var fault := controller.exit.fault;
          controller.Restart();
          controller.FailDurableRun();
          return advances, Unexpected(fault);
        }
        advances := advances + 1;
        if Stopped(controller.state.status) { return advances, ReachedStop; }
        if controller.state == before {
          controller.Restart();
          controller.FailDurableRun();
          return advances, NoProgress;
        }
      }
      controller.Restart();
      controller.FailDurableRun();
      return advances, BudgetSpent;
    }
  }
}
