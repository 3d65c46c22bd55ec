/** The account of baseline and experiments: each kind of durable write keeps
    the tally of tests, the order of executions, and the Director's last word. */
module Accounting {
  import opened Domain
  import opened Store
  import opened Policy
  import opened Nodes
  import opened Invariant

  /** A write that touches neither executions, tests, evidence nor status. */
  predicate SameAccount(d: Disk, e: Disk) {
    && e.state.status == d.state.status && e.state.executions == d.state.executions
    && e.state.completed == d.state.completed && e.state.toolCalls == d.state.toolCalls
    && e.state.adaptiveUsed == d.state.adaptiveUsed && e.state.limits == d.state.limits
    && e.state.costLeft == d.state.costLeft && e.ledger == d.ledger
  }

  lemma AccountKept(env: Env, d: Disk, e: Disk)
    requires Account(env, d) && SameAccount(d, e)
    requires Finals(env, e.state, e.decisions)
    ensures Account(env, e)
  {
    hide Tally, Unswayed, Finals, NoAdaptive, Offer;
  }

  lemma AccountFiles(env: Env, d: Disk, e: Disk)
    requires Account(env, d) && e.state == d.state && e.ledger == d.ledger && e.decisions == d.decisions
    ensures Account(env, e)
  {
    hide Tally, Unswayed, Finals, Choosable;
  }

  /** `s` differs from the snapshot in telemetry and role checkpoints only. */
  predicate SideOnly(d: Disk, s: State) {
    s == d.state.(modelCalls := s.modelCalls, retries := s.retries, failures := s.failures,
        checkpoints := s.checkpoints)
  }

  lemma AccountSide(env: Env, d: Disk, s: State)
    requires Account(env, d) && SideOnly(d, s)
    ensures Account(env, d.(state := s))
  {
    hide Tally, Unswayed, ProposalOf, ReviewOf, Revisions, Offer, Known;
    AccountKept(env, d, d.(state := s));
  }

  lemma AccountCharge(env: Env, d: Disk, s: State)
    requires Account(env, d) && s == d.state.(step := d.state.step + 1)
    requires !Open(d.state) && CurrentSkeptic(s).None?
    ensures Account(env, d.(state := s))
  {
    hide Tally, Unswayed, CurrentSkeptic, Revisions, Offer, Known, Open;
    AccountKept(env, d, d.(state := s));
  }

  lemma KnownPushed(ds: seq<Checkpoint>, c: Checkpoint, role: Role, phase: Phase, context: nat)
    ensures Known(ds + [c], role, phase, context) ==>
      Known(ds, role, phase, context) || (c.role == role && c.phase == phase && c.context == context)
  {
  }

  lemma AccountDecision(env: Env, d: Disk, c: Checkpoint)
    requires Account(env, d) && (c.role.Director? && c.phase.Final? ==> ForFinal(env, d.state))
    ensures Account(env, d.(decisions := d.decisions + [c]))
  {
    hide Tally, Unswayed, ForFinal, Known;
    KnownPushed(d.decisions, c, Director, Final, d.state.context);
    AccountKept(env, d, d.(decisions := d.decisions + [c]));
  }

  lemma AccountSelecting(env: Env, d: Disk)
    requires Account(env, d) && d.state.status.SelectingAdaptive? && CurrentSkeptic(d.state).None?
    ensures Account(env, d.(state := Selecting(env, d.state)))
  {
    hide Tally, Unswayed, ProposalOf, ReviewOf, Revisions, Offer, Known;
    AccountKept(env, d, d.(state := Selecting(env, d.state)));
  }

  /** A proposal is accepted only when nothing speaks for concluding the run. */
  lemma AccountAccept(env: Env, d: Disk, k: Skeptic)
    requires Account(env, d) && d.state.status.SelectingAdaptive? && CurrentSkeptic(d.state).None?
    requires BudgetReason(d.state).None? && Available(env, d.state) != []
    ensures Account(env, d.(state := d.state.(accepted := d.state.accepted + [k])))
  {
    hide Tally, Unswayed, ProposalOf, ReviewOf, Revisions, Offer, Known;
    AccountKept(env, d, d.(state := d.state.(accepted := d.state.accepted + [k])));
  }

  lemma AccountWaiting(env: Env, d: Disk)
    requires Account(env, d) && d.state.status.SelectingAdaptive? && Live(d.state)
    ensures Account(env, d.(state := d.state.(status := WaitingForCritic)))
  {
    hide AllCovered, Unswayed, ProposalOf, ReviewOf, Revisions, Offer, Known, NoAdaptive;
  }

  lemma AccountReview(env: Env, d: Disk, c: Critic)
    requires Account(env, d) && Open(d.state) && CurrentCritic(d.state).None?
    ensures Account(env, d.(state := d.state.(critics := d.state.critics + [c])))
  {
    hide Tally, Unswayed, ProposalOf, ReviewOf, Revisions, Offer, Known;
    AccountKept(env, d, d.(state := d.state.(critics := d.state.critics + [c])));
  }

  lemma AccountResolved(env: Env, d: Disk)
    requires Account(env, d) && Open(d.state) && d.state.revisions < Revisions(d.state.critics)
    ensures Account(env, d.(state := d.state.(revisions := Revisions(d.state.critics))))
  {
    hide Tally, Unswayed, ProposalOf, ReviewOf, Revisions, Offer, Known;
    AccountKept(env, d, d.(state := d.state.(revisions := Revisions(d.state.critics))));
  }

  // ---- executions ----

  lemma BaselineCodesAre(xs: seq<Execution>, ledger: seq<Evidence>)
    ensures BaselineCodes(xs, ledger) <= Codes(ledger)
    ensures |ledger| <= |xs| && NoAdaptive(xs) ==> BaselineCodes(xs, ledger) == Codes(ledger)
  {
    forall c | c in Codes(ledger) && |ledger| <= |xs| && NoAdaptive(xs) ensures c in BaselineCodes(xs, ledger) {
      var e :| e in ledger && e.result.code == Some(c);
      var i :| 0 <= i < |ledger| && ledger[i] == e;
      assert xs[i] in xs;
    }
  }

  lemma DecisiveLess(a: set<Code>, b: set<Code>)
    requires a <= b && Decisive(b).None?
    ensures Decisive(a).None?
  {
  }

  /** An execution joins the account: the first experiment only after a baseline
      that decided nothing, a baseline execution only before any experiment. */
  lemma UnswayedPush(xs: seq<Execution>, x: Execution, ledger: seq<Evidence>)
    requires Unswayed(xs, ledger) && |ledger| <= |xs|
    requires if x.adaptive then NoAdaptive(xs) ==> Decisive(Codes(ledger)).None? else NoAdaptive(xs)
    ensures Unswayed(xs + [x], ledger)
  {
    hide Decisive, Codes;
    var ys := xs + [x];
    assert BaselineCodes(ys, ledger) == BaselineCodes(xs, ledger);
    BaselineCodesAre(xs, ledger);
    if x.adaptive && NoAdaptive(xs) { DecisiveLess(BaselineCodes(xs, ledger), Codes(ledger)); }
    forall i, j | 0 <= i < j < |ys| && ys[i].adaptive ensures ys[j].adaptive {
      assert ys[i] == xs[i];
      assert xs[i] in xs;
    }
    if NoAdaptive(xs) && !x.adaptive { assert forall y :: y in ys ==> y in xs || y == x; }
  }

  lemma UnswayedRecord(xs: seq<Execution>, ledger: seq<Evidence>, e: Evidence)
    requires Unswayed(xs, ledger) && |xs| == |ledger| + 1
    ensures Unswayed(xs, ledger + [e])
  {
    hide Decisive;
    var n := |ledger|;
    if xs[n].adaptive {
      assert BaselineCodes(xs, ledger + [e]) == BaselineCodes(xs, ledger);
    } else {
      forall x | x in xs ensures !x.adaptive {
        var i :| 0 <= i < |xs| && xs[i] == x;
      }
    }
  }

  /** How executions end does not matter to their order. */
  lemma UnswayedEnds(xs: seq<Execution>, ys: seq<Execution>, ledger: seq<Evidence>)
    requires Unswayed(xs, ledger) && |xs| == |ys| && forall i :: 0 <= i < |xs| ==> ys[i].adaptive == xs[i].adaptive
    ensures Unswayed(ys, ledger)
  {
    hide Decisive;
    assert BaselineCodes(ys, ledger) == BaselineCodes(xs, ledger);
    if NoAdaptive(xs) {
      forall y | y in ys ensures !y.adaptive {
        var i :| 0 <= i < |ys| && ys[i] == y;
        assert xs[i] in xs;
      }
    }
  }

  /** A status in which no execution is unfinished or unevaluated. */
  predicate Even(s: Status) { !Stopped(s) && !s.RunningTool? && !s.UpdatingEvidence? }

  lemma TallyPush(env: Env, status: Status, baselines: int, xs: seq<Execution>, x: Execution, completed: seq<Test>)
    requires Even(status) && Tally(env, status, baselines, xs, completed)
    requires !x.adaptive ==> TestOf(env, x.tool).Some? && TestOf(env, x.tool).value !in completed
    ensures Tally(env, RunningTool, baselines + (if x.adaptive then 0 else 1), xs + [x], completed)
  {
    assert (xs + [x])[..|xs|] == xs;
  }

  lemma CoveredMore(env: Env, xs: seq<Execution>, ys: seq<Execution>, completed: seq<Test>, more: seq<Test>)
    requires AllCovered(env, xs, completed) && completed <= more && |xs| == |ys|
    requires forall i :: 0 <= i < |xs| ==> ys[i].tool == xs[i].tool && ys[i].adaptive == xs[i].adaptive
    ensures AllCovered(env, ys, more)
  {
    forall y | y in ys ensures Covered(env, y, more) {
      var i :| 0 <= i < |ys| && ys[i] == y;
      assert Covered(env, xs[i], completed) by { assert xs[i] in xs; }
    }
  }

  /** The commit of a result: the test it completes is the one it was for. */
  lemma TallyCommit(
      env: Env, baselines: int, xs: seq<Execution>, ys: seq<Execution>, completed: seq<Test>, more: seq<Test>)
    requires Tally(env, RunningTool, baselines, xs, completed) && xs != [] && |xs| == |ys| && completed <= more
    requires forall i :: 0 <= i < |xs| ==> ys[i].tool == xs[i].tool && ys[i].adaptive == xs[i].adaptive
    requires var y := ys[|ys| - 1]; Counts(y) && !y.adaptive ==>
      var t := TestOf(env, y.tool); t.Some? && more == if t.value in completed then completed else completed + [t.value]
    ensures Tally(env, UpdatingEvidence, baselines, ys, more)
  {
    var n := |xs| - 1;
    CoveredMore(env, xs[..n], ys[..n], completed, more);
    assert ys[n].tool == xs[n].tool && ys[n].adaptive == xs[n].adaptive;
  }

  lemma CommitTests(env: Env, s: State, e: Evidence, x: Execution)
    requires e.result.tool == x.tool && TestOf(env, x.tool).Some? && Succeeds(e.result.status)
    ensures var t := TestOf(env, x.tool).value;
      CompletedTests(env, s, e) == if t in s.completed then s.completed else s.completed + [t]
  {
  }

  lemma TestsGrow(env: Env, s: State, e: Evidence)
    ensures s.completed <= CompletedTests(env, s, e)
  {
  }

  /** An evaluated result that counts leaves the account even. */
  lemma TallyEvaluated(env: Env, status: Status, baselines: int, xs: seq<Execution>, completed: seq<Test>)
    requires Tally(env, UpdatingEvidence, baselines, xs, completed) && Even(status)
    requires xs != [] && Counts(xs[|xs| - 1])
    ensures Tally(env, status, baselines, xs, completed)
  {
    var n := |xs| - 1;
    forall x | x in xs ensures Covered(env, x, completed) {
      var i :| 0 <= i < |xs| && xs[i] == x;
      if i < n { assert xs[..n][i] == x; }
    }
  }

  lemma NoFinalAhead(ds: seq<Checkpoint>, context: nat)
    requires NoLater(ds, context)
    ensures !Known(ds, Director, Final, context + 1)
  {
  }

  lemma LastBaseline(xs: seq<Execution>)
    requires BaselineFirst(xs) && xs != [] && !xs[|xs| - 1].adaptive
    ensures NoAdaptive(xs)
  {
    forall x | x in xs ensures !x.adaptive {
      var i :| 0 <= i < |xs| && xs[i] == x;
    }
  }

  lemma StoppedAccount(env: Env, e: Disk)
    requires Stopped(e.state.status) && Unswayed(e.state.executions, e.ledger)
    ensures Account(env, e)
  {
    hide Unswayed;
  }

  lemma UnswayedOf(env: Env, d: Disk)
    requires Account(env, d)
    ensures Unswayed(d.state.executions, d.ledger)
  {
    hide Unswayed, Tally, Choosable, Finals;
  }

  // ---- the registry ----

  lemma {:induction false} ResolveAt(specs: seq<Spec>, i: nat)
    requires UniqueTools(specs) && i < |specs|
    ensures Resolve(specs, specs[i].tool) == Some(specs[i])
  {
    if i > 0 {
      assert specs[0].tool != specs[i].tool;
      ResolveAt(specs[1..], i - 1);
    }
  }

  lemma {:induction false} OfferedAt(
      specs: seq<Spec>, tool: Tool, completed: set<Test>, costLeft: int, xs: seq<Execution>) returns (i: nat)
    requires Use(tool) in OfferedTools(specs, completed, costLeft, xs)
    ensures i < |specs| && specs[i].tool == tool && Offered(specs[i], completed, costLeft, xs)
  {
    if specs[0].tool == tool && Offered(specs[0], completed, costLeft, xs) {
      i := 0;
    } else {
      i := OfferedAt(specs[1..], tool, completed, costLeft, xs);
      i := i + 1;
    }
  }

  /** What is on offer is offered by the one entry of its tool. */
  lemma OfferedResolves(env: Env, m: Means, tool: Tool)
    requires UniqueTools(env.specs) && Use(tool) in Offer(env, m)
    ensures Resolve(env.specs, tool).Some?
      && Offered(Resolve(env.specs, tool).value, TestsIn(m.completed), m.costLeft, m.executions)
  {
    hide Offered;
    var i := OfferedAt(env.specs, tool, TestsIn(m.completed), m.costLeft, m.executions);
    ResolveAt(env.specs, i);
  }
}
