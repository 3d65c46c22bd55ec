/** The whole life of a run: any sequence of advances, give-ups, locks and
    reveals, each of which may die after any of its durable writes. */
module Lives {
  import opened Domain
  import opened Store
  import opened Policy
  import opened Nodes
  import opened Invariant
  import opened Committing
  import opened Executing
  import opened Rules
  import opened NodeSafety
  import opened Outcomes
  import opened Cycle
  import opened Advancing
  import opened LockReveal

  datatype Operation = Advances(answers: Oracle) | GivesUp | Locks(at: nat) | Reveals(provider: Provider)

  function Operate(env: Env, d: Disk, op: Operation): (q: Run)
    ensures First(q) == d
  {
    match op
    case Advances(answers) => Advance(env, d, answers)
    case GivesUp => FailRun(Start(d))
    case Locks(at) => Lock(Start(d), at).r
    case Reveals(provider) => Reveal(Start(d), provider).r
  }

  /** `create`: the snapshot before any work; the first event may be lost. */
  predicate Initial(d: Disk) {
    var s := d.state;
    && s.status.Initialized? && s.lock.GroundTruthLocked? && ScienceOf(s) == Science([], [], [], None)
    && s.evidenceRefs == [] && s.executions == [] && s.accepted == [] && s.critics == [] && s.checkpoints == []
    && s.step == s.modelCalls == s.toolCalls == s.adaptiveUsed == s.costUsed == s.revisions == s.retries == 0
    && s.costLeft == s.limits.cost && s.context == 1
    && d.ledger == [] && d.decisions == [] && d.catalog.None? && (d.trace == [] || d.trace == [Event(1, 0, Created)])
  }

  lemma InitialIsGood(env: Env, d: Disk)
    requires Initial(d)
    ensures Inv(env, d)
  {
    hide DispositionOf;
    assert Missing(d.state) == MANDATORY_TESTS && SignalQuality in MANDATORY_TESTS;
  }

  /** The durable states at which some process took over from the one before. */
  ghost predicate Life(env: Env, life: seq<Disk>) {
    && life != [] && Initial(life[0])
    && forall k :: 0 <= k < |life| - 1 ==> Follows(env, life[k], life[k + 1])
  }

  ghost predicate Follows(env: Env, d: Disk, e: Disk) {
    exists op :: DiesIn(Operate(env, d, op), e)
  }

  lemma GrowsTrans(d: Disk, e: Disk, f: Disk)
    requires Grows(d, e) && Grows(e, f)
    ensures Grows(d, f)
  {
  }

  lemma GrowsSelf(d: Disk)
    ensures Grows(d, d)
  {
  }

  lemma {:induction false} HistoryGrows(env: Env, q: Run, i: nat)
    requires Good(env, q) && i <= |q.past|
    ensures Inv(env, At(q, i)) && Grows(First(q), At(q, i))
  {
    hide Inv, Grows;
    if i == 0 {
      GrowsSelf(First(q));
    } else {
      HistoryGrows(env, q, i - 1);
      GrowsTrans(First(q), At(q, i - 1), At(q, i));
    }
  }

  lemma OperateGood(env: Env, d: Disk, op: Operation)
    requires Inv(env, d) && Registered(env)
    ensures Good(env, Operate(env, d, op))
  {
    hide Inv, Good, Advance, FailRun, First, Extends, StartsStranded, Unrunnable, Little, Progressed;
    StartGood(env, d);
    match op
    case Advances(answers) => AdvanceSafe(env, d, answers);
    case GivesUp => FailRunGood(env, Start(d));
    case Locks(at) => LockGood(env, Start(d), at);
    case Reveals(provider) => RevealGood(env, Start(d), provider);
  }

  lemma FollowsGood(env: Env, d: Disk, e: Disk)
    requires Inv(env, d) && Registered(env) && Follows(env, d, e)
    ensures Inv(env, e) && Grows(d, e)
  {
    hide Inv, Grows, Good, Operate;
    var op :| DiesIn(Operate(env, d, op), e);
    var q := Operate(env, d, op);
    OperateGood(env, d, op);
    var i :| 0 <= i < |q.past + [q.now]| && (q.past + [q.now])[i] == e;
    assert e == At(q, i);
    HistoryGrows(env, q, i);
  }

  /** Every durable state of every life meets the invariant, and nothing that a
      later state must keep is ever taken back. */
  lemma {:induction false} LifeIsGood(env: Env, life: seq<Disk>, i: nat, j: nat)
    requires Life(env, life) && Registered(env) && i <= j < |life|
    ensures Inv(env, life[i]) && Inv(env, life[j]) && Grows(life[i], life[j])
    decreases j
  {
    hide Inv, Grows, Initial, Follows;
    if j == 0 {
      InitialIsGood(env, life[0]);
      GrowsSelf(life[0]);
    } else {
      LifeIsGood(env, life, if i < j then i else j - 1, j - 1);
      assert Follows(env, life[j - 1], life[j - 1 + 1]);
      FollowsGood(env, life[j - 1], life[j]);
      if i < j { GrowsTrans(life[i], life[j - 1], life[j]); } else { GrowsSelf(life[j]); }
    }
  }

  // ---- what that means ----

  /** Every counter is what its records say, within its limit, in every durable
      state of every life; no action is ever charged twice. */
  lemma BudgetsAreConserved(env: Env, life: seq<Disk>, k: nat)
    requires Life(env, life) && Registered(env) && k < |life|
    ensures var s := life[k].state;
      && s.toolCalls == |s.executions| <= s.limits.toolCalls
      && s.adaptiveUsed == CountAdaptive(s.executions) <= s.limits.adaptive
      && s.costUsed == SumCost(s.executions) == s.limits.cost - s.costLeft && 0 <= s.costLeft
      && s.step <= s.limits.steps && s.modelCalls <= s.limits.modelCalls && s.retries <= s.limits.retries
      && s.revisions <= s.limits.revisions
      && (forall i, j :: 0 <= i < j < |s.executions| ==> s.executions[i].signature != s.executions[j].signature)
  {
    hide Life, Ledger, Roles, Proposal, Spent, Working, Account, AllAllowed, Reasons, Verdicts, Authority, Initial,
      Grows;
    LifeIsGood(env, life, k, k);
  }

  /** The ids of a ledger's records. */
  function Ids(ledger: seq<Evidence>): seq<EvidenceId> { seq(|ledger|, i requires 0 <= i < |ledger| => ledger[i].id) }

  /** The ledger is what the snapshot refers to, and perhaps one record of the
      execution that has not been committed; the snapshot's science is the
      replay of what it refers to, and its measurements are quoted from it. */
  lemma LedgerAgrees(env: Env, life: seq<Disk>, k: nat)
    requires Life(env, life) && Registered(env) && k < |life|
    ensures var d := life[k]; var n := |d.state.evidenceRefs|;
      && n <= |d.ledger| <= n + 1 && Ids(d.ledger)[..n] == d.state.evidenceRefs
      && (|d.ledger| == n + 1 ==>
          d.ledger[n].action == n && n < |d.state.executions| && d.state.executions[n].evidence.None?)
      && (|d.ledger| == n + 1 && !Stopped(d.state.status) ==> d.state.executions[n].status.Prepared?)
      && ScienceOf(d.state) == Replay(env, d.ledger[..n]) && Provenance(d.state, d.ledger)
  {
    hide Life, Initial, Grows, Replay, Budgets, ValidSnapshot, Roles, Proposal, Spent, Account, AllAllowed, Reasons,
      Verdicts, Authority, Provenance;
    LifeIsGood(env, life, k, k);
    var d := life[k];
    ProvenanceHolds(env, d);
    var n := |d.state.evidenceRefs|;
    forall i | 0 <= i < n ensures Ids(d.ledger)[i] == d.state.evidenceRefs[i] {
      assert Referenced(d.state.evidenceRefs[i], d.ledger[i], d.state.executions[i]);
    }
    if |d.ledger| == n + 1 { assert Answers(env, d.ledger[n], d.state.executions[n], n); }
  }

  /** In every durable state exactly the tests are complete that a record shows to
      which the snapshot refers; the candidate is what the newest successful
      search among them measured, and the hypotheses those of the newest deciding
      code. */
  lemma TestsAreEarned(env: Env, life: seq<Disk>, k: nat, t: Test)
    requires Life(env, life) && Registered(env) && k < |life|
    ensures var d := life[k]; var n := |d.state.evidenceRefs|;
      && n <= |d.ledger|
      && (t in d.state.completed <==> exists e :: e in d.ledger[..n] && Shows(env, e, t))
      && CandidateIs(d.ledger[..n], d.state.candidates)
      && HypothesesAre(d.ledger[..n], d.state.hypotheses, d.state.strongest)
  {
    hide Life, Initial, Inv, Replay, Shows, CandidateIs, HypothesesAre, UniqueTools, Provenance;
    LedgerAgrees(env, life, k);
    var d := life[k];
    CompletedAre(env, d.ledger[..|d.state.evidenceRefs|], t);
    CandidatesAre(env, d.ledger[..|d.state.evidenceRefs|]);
    ReplayDecides(env, d.ledger[..|d.state.evidenceRefs|]);
  }

  /** Stop statuses are final, except for READY_TO_LOCK, then RESULT_LOCKED, then REVEALED. */
  lemma StopsAreFinal(env: Env, life: seq<Disk>, i: nat, j: nat)
    requires Life(env, life) && Registered(env) && i <= j < |life| && Stopped(life[i].state.status)
    ensures var a := life[i].state.status; var b := life[j].state.status;
      a == b || (a.ReadyToLock? && (b.ResultLocked? || b.Revealed?)) || (a.ResultLocked? && b.Revealed?)
  {
    hide Life, Initial, Ledger, Roles, Proposal, Spent, Budgets, Executions, ValidSnapshot, DispositionOf, Codes,
      LatestBudget, LatestBoundary;
    LifeIsGood(env, life, i, j);
  }

  /** Once locked: all mandatory tests, the verdict of the ledger, and bytes, digest, evidence
      and receipt that never change again, whatever is interleaved or interrupted. */
  lemma LockIsForever(env: Env, life: seq<Disk>, i: nat, j: nat)
    requires Life(env, life) && Registered(env) && i <= j < |life| && Sealed(life[i].state)
    ensures var d := life[i]; var e := life[j];
      && Missing(d.state) == {} && d.state.disposition.Some?
      && d.state.disposition == DispositionOf(Codes(d.ledger), d.state.candidates != [])
      && d.state.terminalReason.Some? && d.result.Some?
      && d.result.value == Canonical(LockedContent(d.state, d.result.value.result.lockedAt))
      && e.result == d.result && e.digest == d.digest == Some(Sha(d.result.value))
      && e.state.evidenceRefs == d.state.evidenceRefs && e.ledger == d.ledger
      && e.state.disposition == d.state.disposition
      && ReceiptOf(e) == ReceiptOf(d) && ReceiptOf(d).Some?
  {
    hide Life, Initial, Ledger, Roles, Proposal, Spent, Budgets, Executions, ValidSnapshot, DispositionOf, Codes,
      LatestBudget, LatestBoundary, Working, Missing;
    LifeIsGood(env, life, i, j);
    SealedMeans(env, life[i]);
    SealedMeans(env, life[j]);
    UnstoppedIsUnsealed(env, life[i]);
  }

  /** Every execution of every life belongs to a registered and authorized tool
      whose prerequisites are complete; baseline ones are mandatory tools and cost
      nothing, adaptive ones cost what the registry says and ran after the baseline. */
  lemma ExecutionsWereAllowed(env: Env, life: seq<Disk>, k: nat, i: nat)
    requires Life(env, life) && Registered(env) && k < |life| && i < |life[k].state.executions|
    ensures Allowed(env, life[k].state.executions[i], CompletedSet(life[k].state))
    ensures !life[k].state.executions[i].adaptive ==> life[k].state.executions[i].cost == 0
  {
    hide Life, Initial, Grows, Ledger, Roles, Proposal, Spent, Budgets, Executions, Verdicts, Reasons, Authority,
      Working, LatestBudget, LatestBoundary, Allowed, SumCost;
    LifeIsGood(env, life, k, k);
    assert life[k].state.executions[i] in life[k].state.executions;
  }

  /** What a verdict says about the evidence: each is given exactly by the codes
      in the ledger and the presence of a candidate, and there is always one. */
  lemma VerdictsMean(env: Env, life: seq<Disk>, k: nat)
    requires Life(env, life) && Registered(env) && k < |life|
    requires life[k].state.status.ReadyToLock? || Sealed(life[k].state)
    ensures life[k].state.disposition.Some?
    ensures VerdictIs(life[k].ledger, life[k].state.candidates != [], life[k].state.disposition)
  {
    hide Life, Inv, Grows, Codes, VerdictIs;
    LifeIsGood(env, life, k, k);
    VerdictOf(env, life[k]);
    DispositionMeans(life[k].ledger, life[k].state.candidates != []);
  }

  /** Every proposal that waits for its review was checked in all its fields, and
      still stands; so was every review of it. */
  lemma ProposalsWereVetted(env: Env, life: seq<Disk>, k: nat)
    requires Life(env, life) && Registered(env) && k < |life| && Open(life[k].state)
    ensures var s := life[k].state;
      && CurrentSkeptic(s).Some? && Sworn(env, s, CurrentSkeptic(s).value)
      && (CurrentCritic(s).Some? ==>
            && Bound(s, CurrentSkeptic(s).value, CurrentCritic(s).value) && CurrentCritic(s).value.sound
            && (CurrentCritic(s).value.verdict.Revise? ==>
                  Permitted(env, s, CurrentCritic(s).value.action, CurrentCritic(s).value.params)))
  {
    hide Life, Inv, Grows, Open, Sworn, Permitted, CurrentSkeptic, CurrentCritic;
    LifeIsGood(env, life, k, k);
    OpenIsSworn(env, life[k]);
  }

  lemma OpenIsSworn(env: Env, d: Disk)
    requires Inv(env, d) && Registered(env) && Open(d.state)
    ensures CurrentSkeptic(d.state).Some? && Sworn(env, d.state, CurrentSkeptic(d.state).value)
    ensures CurrentCritic(d.state).Some? ==>
      var c := CurrentCritic(d.state).value;
      && Bound(d.state, CurrentSkeptic(d.state).value, c) && c.sound
      && (c.verdict.Revise? ==> Permitted(env, d.state, c.action, c.params))
  {
    hide Ledger, Account, AllAllowed, Roles, Spent, Working, Reasons, Verdicts, Authority, ValidSnapshot, Budgets,
      Executions, ProposalOf, ReviewOf, Permitted, Offer, Resolve, JudgeAction, UniqueTools, BriefedFor, Sworn;
    var k := CurrentSkeptic(d.state).value;
    ActionIsValid(env, d.state, k.action, k.params);
    ProposalIsValid(env, d.state, k);
    if CurrentCritic(d.state).Some? {
      ActionIsValid(env, d.state, CurrentCritic(d.state).value.action, CurrentCritic(d.state).value.params);
    }
  }

  /** With several agents no experiment was ever proposed before all four briefings
      of its context; and none ever for another run, or without foundation. */
  lemma ProposersWereBriefed(env: Env, life: seq<Disk>, k: nat, i: nat)
    requires Life(env, life) && Registered(env) && k < |life| && i < |life[k].state.accepted|
    ensures var proposal := life[k].state.accepted[i];
      && !proposal.foreign && proposal.sound
      && (env.multiAgent ==> BriefedFor(life[k].decisions, proposal.context))
  {
    hide Life, Grows, Ledger, Account, AllAllowed, Roles, Proposal, Spent, Working, Reasons, Verdicts, Authority,
      ValidSnapshot, Budgets, Executions, BriefedFor;
    LifeIsGood(env, life, k, k);
    assert life[k].state.accepted[i] in life[k].state.accepted;
  }

  /** Every ready or locked run says truly why it ended: the decisive code is the
      ledger's, an exhausted budget is exhausted, nothing is on offer where
      nothing is said to be, and a veto or stop is the review's. */
  lemma ReasonsAreTrue(env: Env, life: seq<Disk>, k: nat)
    requires Life(env, life) && Registered(env) && k < |life|
    requires life[k].state.status.ReadyToLock? || Sealed(life[k].state)
    ensures var s := life[k].state;
      s.terminalReason.Some? && Truthful(env, s.terminalReason.value, GroundsOf(s, life[k].ledger))
  {
    hide Life, Initial, Grows, Ledger, Roles, Proposal, Spent, Budgets, Executions, ValidSnapshot, DispositionOf,
      Truthful, GroundsOf, Working, Missing, LatestBudget, LatestBoundary;
    LifeIsGood(env, life, k, k);
  }

  /** A verdict is a function of the evidence alone: two runs with the same
      ledger that are ready or locked have the same disposition, whatever their
      models, tools and crashes were. */
  lemma VerdictFollowsLedger(env1: Env, env2: Env, life1: seq<Disk>, life2: seq<Disk>, i: nat, j: nat)
    requires Life(env1, life1) && Registered(env1) && Life(env2, life2) && Registered(env2) && i < |life1|
      && j < |life2|
    requires life1[i].ledger == life2[j].ledger && env1.specs == env2.specs
    requires life1[i].state.status.ReadyToLock? || Sealed(life1[i].state)
    requires life2[j].state.status.ReadyToLock? || Sealed(life2[j].state)
    ensures life1[i].state.disposition == life2[j].state.disposition && life1[i].state.disposition.Some?
    ensures life1[i].state.hypotheses == life2[j].state.hypotheses
      && life1[i].state.candidates == life2[j].state.candidates
  {
    hide Life, Inv, Grows, DispositionOf, Codes, Replay;
    LifeIsGood(env1, life1, i, i);
    LifeIsGood(env2, life2, j, j);
    VerdictOf(env1, life1[i]);
    VerdictOf(env2, life2[j]);
    ReplaySame(env1, env2, life1[i].ledger);
  }

  lemma VerdictOf(env: Env, d: Disk)
    requires Inv(env, d) && (d.state.status.ReadyToLock? || Sealed(d.state))
    ensures d.state.disposition.Some? && d.state.disposition == DispositionOf(Codes(d.ledger), d.state.candidates != [])
    ensures ScienceOf(d.state) == Replay(env, d.ledger)
  {
    hide Roles, Proposal, Spent, Budgets, Executions, ValidSnapshot, DispositionOf, Codes, LatestBudget,
      LatestBoundary, Working, Missing, Replay;
    assert d.ledger[..|d.ledger|] == d.ledger;
  }

  lemma {:induction false} ReplaySame(env1: Env, env2: Env, es: seq<Evidence>)
    requires env1.specs == env2.specs
    ensures Replay(env1, es) == Replay(env2, es)
  {
    hide Learn;
    if es != [] {
      ReplaySame(env1, env2, es[..|es| - 1]);
      LearnSame(env1, env2, Replay(env1, es[..|es| - 1]), es[|es| - 1]);
    }
  }

  lemma LearnSame(env1: Env, env2: Env, k: Science, e: Evidence)
    requires env1.specs == env2.specs
    ensures Learn(env1, k, e) == Learn(env2, k, e)
  {
  }

  lemma UnstoppedIsUnsealed(env: Env, d: Disk)
    requires Inv(env, d) && Sealed(d.state)
    ensures Stopped(d.state.status) && !d.state.status.ReadyToLock?
  {
    hide Ledger, Roles, Proposal, Spent, Budgets, Executions, ValidSnapshot, DispositionOf, Codes, LatestBudget,
      LatestBoundary, Working, Missing;
  }

  lemma CatalogIsSealed(env: Env, d: Disk)
    requires Inv(env, d) && d.catalog.Some?
    ensures Sealed(d.state)
  {
    hide Ledger, Roles, Proposal, Spent, Budgets, Executions, ValidSnapshot, DispositionOf, Codes, LatestBudget,
      LatestBoundary, Working, Missing;
  }

  /** No catalog exists before the lock; every catalog names the digest of the
      exact locked bytes, and is never replaced. */
  lemma CatalogFollowsLock(env: Env, life: seq<Disk>, i: nat, j: nat)
    requires Life(env, life) && Registered(env) && i <= j < |life| && life[i].catalog.Some?
    ensures Sealed(life[i].state) && life[j].catalog == life[i].catalog
    ensures life[i].result.Some? && life[i].catalog.value.lockedDigest == Sha(life[i].result.value)
      && !life[i].catalog.value.foreign
  {
    hide Life, Initial, Ledger, Roles, Proposal, Spent, Budgets, Executions, ValidSnapshot, DispositionOf, Codes,
      LatestBudget, LatestBoundary, Working, Missing;
    LifeIsGood(env, life, i, j);
    CatalogIsSealed(env, life[i]);
    SealedMeans(env, life[i]);
  }

  /** Trace sequences are 1..n in every durable state, and a trace only grows. */
  lemma TraceIsNumbered(env: Env, life: seq<Disk>, i: nat, j: nat)
    requires Life(env, life) && Registered(env) && i <= j < |life|
    ensures life[i].trace <= life[j].trace && forall n :: 0 <= n < |life[j].trace| ==>
      life[j].trace[n].sequence == n + 1
  {
    hide Life, Initial, Ledger, Roles, Proposal, Spent, Budgets, Executions, ValidSnapshot, DispositionOf, Codes,
      LatestBudget, LatestBoundary, Working, Missing;
    LifeIsGood(env, life, i, j);
  }

  /** No run ever asks for a transition outside the table, except from the
      stranded step; no other fault of a node can occur at all. */
  lemma TransitionsAreLegal(env: Env, life: seq<Disk>, k: nat, answers: Oracle)
    requires Life(env, life) && Registered(env) && k < |life|
    ensures var exit := Advance(env, life[k], answers).exit;
      && (exit == Faulted(IllegalTransition) <==> StartsStranded(env, life[k], answers))
      && (exit.Faulted? ==> exit.fault.IllegalTransition? || exit.fault.NoRoute?)
  {
    hide Life, Initial, Inv, Grows, Advance, Little, Progressed, Good;
    LifeIsGood(env, life, k, k);
    AdvanceSafe(env, life[k], answers);
  }
}
