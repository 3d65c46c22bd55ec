/** From inference to execution: a decision that the inference layer returns is
    accepted, and what is approved passes the guards that run it. */
module Authorization {
  import opened Domain
  import opened Store
  import opened Policy
  import opened Nodes
  import opened Invariant
  import opened Steps
  import opened Writes
  import opened Committing
  import opened Executing
  import opened Routing
  import opened Rules
  import opened NodeSafety
  import opened Outcomes
  import opened Cycle
  import Inference
  import Interleaving

  function Judged(j: Judgement): Inference.Judged {
    match j
    case Accept => Inference.Valid
    case Reject => Inference.Refused(InvalidModelOutput)
    case OverBudget => Inference.Refused(OutOfBudget)
  }

  /** The inference call for a proposal, and for its review. */
  function SkepticMode(env: Env, s: State, key: Inference.Key): Inference.Mode<Skeptic> {
    Inference.Mode(key, s.context, false, false, None, true,
        (k: Skeptic) => Judged(JudgeSkeptic(env, s, k, s.available)))
  }

  function CriticMode(env: Env, s: State, k: Skeptic, key: Inference.Key): Inference.Mode<Critic> {
    Inference.Mode(key, s.context, false, false, None, true,
        (c: Critic) => Judged(JudgeCritic(env, s, k, c, s.available)))
  }

  /** The oracle's proposal is what the attempt loop returns. */
  ghost predicate ProposalInferred(env: Env, s: State, o: Oracle, key: Inference.Key, sh: Inference.Shared,
      client: nat -> Inference.Reply<Skeptic>) {
    var m := SkepticMode(env, s, key);
    var outcome := Inference.Finish(m, Inference.Begin(m, sh), client, 0).l;
    outcome.Answered? && o.skeptic == Accepted(outcome.decision)
  }

  ghost predicate ReviewInferred(env: Env, s: State, k: Skeptic, o: Oracle, key: Inference.Key, sh: Inference.Shared,
      client: nat -> Inference.Reply<Critic>) {
    var m := CriticMode(env, s, k, key);
    var outcome := Inference.Finish(m, Inference.Begin(m, sh), client, 0).l;
    outcome.Answered? && o.critic == Accepted(outcome.decision)
  }

  /** Whatever the clients do, a proposal that the attempt loop returns is
      recorded, and waits for its review in the same step and context. */
  lemma InferredProposalStands(
      env: Env, r: Run, o: Oracle, key: Inference.Key, sh: Inference.Shared, client: nat -> Inference.Reply<Skeptic>)
    requires Good(env, r) && r.exit.Running? && Reached(env, ProposeNode, r.now) && Interleaving.Sound(sh)
    requires ProposalInferred(env, r.now.state, o, key, sh, client)
    ensures var q := SkepticNode(env, r, o);
      && Good(env, q) && q.exit.Running? && Reached(env, ReviewNode, q.now)
      && CurrentSkeptic(q.now.state) == Some(o.skeptic.decision)
      && (UniqueTools(env.specs) ==> Sworn(env, r.now.state, o.skeptic.decision))
  {
    hide Good, SkepticNode, JudgeSkeptic, Choosing, Sworn, UniqueTools, ProposedAs;
    var m := SkepticMode(env, r.now.state, key);
    Interleaving.InferIsBounded(m, sh, client);
    if UniqueTools(env.specs) { ProposalIsValid(env, r.now.state, o.skeptic.decision); }
    SkepticGood(env, r, o);
  }

  lemma InferredReviewPasses(env: Env, s: State, k: Skeptic, o: Oracle, key: Inference.Key, sh: Inference.Shared,
      client: nat -> Inference.Reply<Critic>)
    requires Interleaving.Sound(sh) && ReviewInferred(env, s, k, o, key, sh, client)
    ensures o.critic.Accepted? && JudgeCritic(env, s, k, o.critic.decision, s.available).Accept?
    ensures UniqueTools(env.specs) ==> Attested(env, s, k, o.critic.decision)
  {
    hide JudgeCritic, Attested, UniqueTools;
    var m := CriticMode(env, s, k, key);
    Interleaving.InferIsBounded(m, sh, client);
    if UniqueTools(env.specs) { ReviewIsValid(env, s, k, o.critic.decision); }
  }

  /** The same for its review. */
  lemma InferredReviewStands(
      env: Env, r: Run, o: Oracle, key: Inference.Key, sh: Inference.Shared, client: nat -> Inference.Reply<Critic>)
    requires Good(env, r) && r.exit.Running? && Open(r.now.state) && CurrentCritic(r.now.state).None?
      && Interleaving.Sound(sh)
    requires ReviewInferred(env, r.now.state, CurrentSkeptic(r.now.state).value, o, key, sh, client)
    ensures var q := CriticNode(env, r, o);
      && Good(env, q) && q.exit.Running? && Open(q.now.state) && CurrentCritic(q.now.state) == Some(o.critic.decision)
      && (UniqueTools(env.specs) ==> Attested(env, r.now.state, CurrentSkeptic(r.now.state).value, o.critic.decision))
  {
    hide Good, CriticNode, JudgeCritic, CurrentCritic, CurrentSkeptic, Attested, UniqueTools, ReviewedAs,
      ReviewInferred;
    OpenHasSkeptic(r.now.state);
    InferredReviewPasses(env, r.now.state, CurrentSkeptic(r.now.state).value, o, key, sh, client);
    CriticGood(env, r, o);
    ReviewRuns(env, r, o);
  }

  /** In every durable state in which a reviewed proposal waits to be executed,
      whatever restarts came in between, the execution passes every budget,
      scope, duplicate, availability and precondition guard; only missing inputs
      can still refuse it. The experiment is then run and committed, unless the
      tool itself fails. */
  lemma ApprovalIsStable(env: Env, r: Run)
    requires Good(env, r) && r.exit.Running? && Registered(env) && r.now.state.status.WaitingForCritic?
      && ForExecution(r.now.state)
    ensures var (tool, params) := Request(r.now.state); var q := ExecuteAdaptive(env, r);
      && Refusal(env, r.now, tool, params, true)
         == (if env.inputsReady(tool, r.now.ledger) then None
             else Some(Aborted(PreconditionUnmet, InsufficientEvidence, None)))
      && Good(env, q) && !q.exit.Faulted?
      && (env.inputsReady(tool, r.now.ledger) ==> q.now.state.toolCalls == r.now.state.toolCalls + 1)
      && (env.inputsReady(tool, r.now.ledger) ==> q.now.state.adaptiveUsed == r.now.state.adaptiveUsed + 1)
      && Wanted(r.now.state, Use(tool), params)
      && (env.inputsReady(tool, r.now.ledger) ==> RanFor(env, r.now.state, q.now.state, tool, params, true))
  {
    hide Good, Inv, Refusal, CurrentSkeptic, CurrentCritic, Chosen, ExecuteAdaptive, Live;
    NowGood(env, r);
    WorkingStatus(env, r.now);
    OpenIsFresh(env, r.now);
    ApprovedPasses(env, r.now);
    AdaptiveGood(env, r);
    ChargedWhenRun(env, r);
    RequestIsWanted(r.now.state);
  }

  lemma RequestIsWanted(s: State)
    requires ForExecution(s)
    ensures Wanted(s, Use(Request(s).0), Request(s).1)
  {
    hide ProposalOf, ReviewOf, Revisions;
  }

  lemma ChargedWhenRun(env: Env, r: Run)
    requires Good(env, r) && r.exit.Running? && Registered(env) && r.now.state.status.WaitingForCritic?
      && ForExecution(r.now.state) && Charged(r.now)
    requires Refusal(env, r.now, Request(r.now.state).0, Request(r.now.state).1, true).None?
      || !env.inputsReady(Request(r.now.state).0, r.now.ledger)
    ensures env.inputsReady(Request(r.now.state).0, r.now.ledger) ==>
      ExecuteAdaptive(env, r).now.state.toolCalls == r.now.state.toolCalls + 1
        && ExecuteAdaptive(env, r).now.state.adaptiveUsed == r.now.state.adaptiveUsed + 1
        && var (tool, params) := Request(r.now.state);
           RanFor(env, r.now.state, ExecuteAdaptive(env, r).now.state, tool, params, true)
  {
    hide Good, Inv, Refusal, CurrentSkeptic, CurrentCritic, Chosen, Execute, Receive, CommittedState, Fits,
      LatestBudget, LatestBoundary;
    var (tool, params) := Request(r.now.state);
    assert ExecuteAdaptive(env, r) == Execute(env, r, tool, params, true);
    if env.inputsReady(tool, r.now.ledger) {
      NowGood(env, r);
      PreparedGood(env, r, tool, params, true);
      var q := PreparedRun(env, r, tool, params, true);
      var x := NextExecution(env, r.now.state, tool, params, true);
      assert Current(q.now) == x;
      Unrefused(env, r, tool, params, true);
      var outcome := env.invoke(tool, x.params, x.action, q.now.ledger);
      ReceiveGood(env, q, outcome);
      if outcome.Returns? {
        CommittedRest(env, q.now.state, RecordFor(x, outcome.result));
        LastKept(env, q.now.state, RecordFor(x, outcome.result));
      }
    }
  }
}
