/** What the deterministic rules mean, apart from how they are computed. */
module Rules {
  import opened Domain
  import opened Store
  import opened Policy
  import opened Nodes
  import opened Invariant
  import opened Accounting

  lemma {:induction false} OfferedToolsAre(specs: seq<Spec>, completed: set<Test>, costLeft: int, xs: seq<Execution>)
    ensures Stop !in OfferedTools(specs, completed, costLeft, xs)
    ensures forall t :: Use(t) in OfferedTools(specs, completed, costLeft, xs) <==>
      exists s :: s in specs && s.tool == t && Offered(s, completed, costLeft, xs)
  {
    hide Offered;
    if specs != [] {
      OfferedToolsAre(specs[1..], completed, costLeft, xs);
      forall t ensures Use(t) in OfferedTools(specs, completed, costLeft, xs) <==>
        exists s :: s in specs && s.tool == t && Offered(s, completed, costLeft, xs) {
        if s :| s in specs && s.tool == t && Offered(s, completed, costLeft, xs) {
          if s != specs[0] { assert s in specs[1..]; }
        }
        if Use(t) in OfferedTools(specs[1..], completed, costLeft, xs) {
          var s :| s in specs[1..] && s.tool == t && Offered(s, completed, costLeft, xs);
          assert s in specs;
        }
      }
    }
  }

  /** No execution of the tool with these parameters stands. */
  predicate Unrepeated(xs: seq<Execution>, tool: Tool, params: Params) {
    forall x :: x in xs && x.signature == Signature(tool, params) ==> x.status.ExecutionFailed?
  }

  /** An adaptive tool that is supported, prepared, and not yet run without parameters. */
  predicate Offerable(m: Means, spec: Spec) {
    && spec.adaptive && spec.supported && (forall t :: t in spec.required ==> t in m.completed)
    && Unrepeated(m.executions, spec.tool, NO_PARAMS)
  }

  lemma OfferableIs(m: Means, spec: Spec)
    ensures Offered(spec, TestsIn(m.completed), m.costLeft, m.executions) <==>
      Offerable(m, spec) && spec.cost <= m.costLeft
  {
    hide TestsIn, Executed, Unrepeated;
    TestsAre(m.completed, spec.required);
    UnrepeatedIs(m.executions, spec.tool, NO_PARAMS);
  }

  /** What is on offer: exactly the adaptive tools that are supported, paid for,
      prepared and not yet run without parameters; and stopping, if any of them is. */
  lemma OfferMeans(env: Env, m: Means)
    ensures forall t :: Use(t) in Offer(env, m) <==>
      exists s :: s in env.specs && s.tool == t && Offerable(m, s) && s.cost <= m.costLeft
    ensures Stop in Offer(env, m) <==> Offer(env, m) != []
  {
    hide Offered, Offerable;
    OfferedToolsAre(env.specs, TestsIn(m.completed), m.costLeft, m.executions);
    forall s ensures Offered(s, TestsIn(m.completed), m.costLeft, m.executions) <==>
      Offerable(m, s) && s.cost <= m.costLeft
    {
      OfferableIs(m, s);
    }
  }

  /** Something could be offered for more than is left. */
  predicate OnlyForMore(env: Env, s: State) {
    exists spec :: spec in env.specs && Offerable(MeansOf(s), spec) && s.costLeft < spec.cost
  }

  lemma ForMoreIs(env: Env, s: State)
    ensures OnlyForMore(env, s) <==> HasUnaffordable(env, s)
  {
    hide TestsIn, Executed, Unrepeated;
    var m := MeansOf(s);
    forall spec ensures Offerable(m, spec) <==>
      spec.adaptive && spec.supported && spec.required <= TestsIn(m.completed)
        && !Executed(m.executions, Signature(spec.tool, NO_PARAMS))
    {
      TestsAre(m.completed, spec.required);
      UnrepeatedIs(m.executions, spec.tool, NO_PARAMS);
    }
  }

  predicate Runs(spec: Spec, missing: set<Test>, completed: set<Test>) {
    spec.mandatory.Some? && spec.mandatory.value in missing && spec.required <= completed
  }

  predicate FirstAt(specs: seq<Spec>, missing: set<Test>, completed: set<Test>, i: nat) {
    i < |specs| && Runs(specs[i], missing, completed) && forall j :: 0 <= j < i ==> !Runs(specs[j], missing, completed)
  }

  /** The next mandatory tool is the first in registry order that completes a
      missing test and has its prerequisites; none is found only if there is none. */
  lemma {:induction false} FirstRunnableIs(specs: seq<Spec>, missing: set<Test>, completed: set<Test>)
    ensures var found := FirstRunnable(specs, missing, completed);
      && (found.None? <==> forall i :: 0 <= i < |specs| ==> !Runs(specs[i], missing, completed))
      && (found.Some? ==> exists i: nat :: FirstAt(specs, missing, completed, i) && specs[i] == found.value)
  {
    if specs != [] && !Runs(specs[0], missing, completed) {
      var rest := specs[1..];
      FirstRunnableIs(rest, missing, completed);
      var found := FirstRunnable(rest, missing, completed);
      if found.Some? {
        var i: nat :| FirstAt(rest, missing, completed, i) && rest[i] == found.value;
        assert specs[i + 1] == found.value && FirstAt(specs, missing, completed, i + 1) by {
          forall j | 0 <= j < i + 1 ensures !Runs(specs[j], missing, completed) {
            if j > 0 { assert specs[j] == rest[j - 1]; }
          }
        }
      } else {
        forall i | 0 <= i < |specs| ensures !Runs(specs[i], missing, completed) {
          if i > 0 { assert specs[i] == rest[i - 1]; }
        }
      }
    } else if specs != [] {
      assert FirstAt(specs, missing, completed, 0);
    }
  }

  // ---- the verdict ----

  predicate Found(ledger: seq<Evidence>, code: Code) { exists e :: e in ledger && e.result.code == Some(code) }

  /** Codes that reject a planetary interpretation, and codes that weaken it. */
  predicate Rejecting(ledger: seq<Evidence>) { Found(ledger, OddEvenMismatch) || Found(ledger, ContaminationLikely) }

  predicate Weakening(ledger: seq<Evidence>) {
    Found(ledger, SecondaryEclipseDetected) || Found(ledger, ContaminationPossible)
      || Found(ledger, HarmonicAliasPreferred)
  }

  /** Exactly when there is which verdict. */
  predicate VerdictIs(ledger: seq<Evidence>, candidate: bool, verdict: Option<Disposition>) {
    var noisy, clean := Found(ledger, WeakNoisy), Found(ledger, CleanPlanetLike);
    && (verdict == Some(PlanetaryRejected) <==> Rejecting(ledger))
    && (verdict == Some(Weak) <==> !Rejecting(ledger) && !noisy && Weakening(ledger))
    && (verdict == Some(Survives) <==> !Rejecting(ledger) && !noisy && !Weakening(ledger) && (clean || candidate))
    && (verdict.None? <==> !Rejecting(ledger) && (noisy || (!Weakening(ledger) && !clean && !candidate)))
  }

  lemma CodesAre(ledger: seq<Evidence>, code: Code)
    ensures code in Codes(ledger) <==> Found(ledger, code)
  {
  }

  /** The verdict by the codes in the ledger and the presence of a candidate. */
  lemma DispositionMeans(ledger: seq<Evidence>, candidate: bool)
    ensures VerdictIs(ledger, candidate, DispositionOf(Codes(ledger), candidate))
  {
    hide Codes, Found;
    CodesAre(ledger, OddEvenMismatch);
    CodesAre(ledger, ContaminationLikely);
    CodesAre(ledger, SecondaryEclipseDetected);
    CodesAre(ledger, ContaminationPossible);
    CodesAre(ledger, HarmonicAliasPreferred);
    CodesAre(ledger, WeakNoisy);
    CodesAre(ledger, CleanPlanetLike);
  }

  /** The codes that decide a run, in the order of their names. */
  function Rank(code: Code): nat {
    match code
    case CleanPlanetLike => 0
    case ContaminationLikely => 1
    case OddEvenMismatch => 2
    case WeakNoisy => 3
    case _ => 4
  }

  /** The first deciding code that the ledger holds, if it holds any. */
  predicate DecisiveIs(ledger: seq<Evidence>, found: Option<Code>) {
    && (forall e :: e in ledger && e.result.code.Some? ==>
          Rank(e.result.code.value) >= (if found.Some? then Rank(found.value) else 4))
    && (found.Some? ==> Found(ledger, found.value) && Rank(found.value) < 4)
  }

  lemma DecisiveMeans(ledger: seq<Evidence>)
    ensures DecisiveIs(ledger, Decisive(Codes(ledger)))
  {
    forall e | e in ledger && e.result.code.Some? ensures e.result.code.value in Codes(ledger) { }
  }

  // ---- validation ----

  /** The registered entry of a tool. */
  predicate Entry(env: Env, tool: Tool, spec: Spec) { spec in env.specs && spec.tool == tool }

  /** A tool that is registered, authorized and adaptive, with parameters that
      its schema accepts and that were not run before. */
  predicate Requested(env: Env, s: State, tool: Tool, params: Params, spec: Spec) {
    && Entry(env, tool, spec) && spec.authorized && spec.adaptive
    && env.schema(tool, params).Some? && Unrepeated(s.executions, tool, env.schema(tool, params).value)
  }

  /** What may be asked for now: to stop, without parameters, or an experiment on
      offer after the whole baseline, with calls, means and prerequisites. */
  predicate Permitted(env: Env, s: State, action: Action, params: Params) {
    action in s.available &&
    match action
    case Stop => params == NO_PARAMS
    case Use(tool) =>
      && s.toolCalls < s.limits.toolCalls && (forall t :: t in MANDATORY_TESTS ==> t in s.completed)
      && exists spec :: spec in env.specs && Requested(env, s, tool, params, spec) && spec.cost <= s.costLeft
           && forall t :: t in spec.required ==> t in s.completed
  }

  /** An experiment that is refused only for the means it takes. */
  predicate Beyond(env: Env, s: State, action: Action, params: Params) {
    action.Use? && (s.limits.toolCalls <= s.toolCalls
      || (action in s.available
          && exists spec :: spec in env.specs && Requested(env, s, action.tool, params, spec)
               && s.costLeft < spec.cost))
  }

  /** The declared means are those of now: the budget, and the tool's own cost. */
  predicate Declared(env: Env, s: State, k: Skeptic) {
    k.declaredBudget == s.costLeft &&
    match k.action
    case Stop => k.declaredCost == 0
    case Use(tool) =>
      forall spec :: spec in env.specs && spec.tool == tool && spec.adaptive ==> k.declaredCost == spec.cost
  }

  /** A proposal of this run and role, for this step and context, well founded,
      with the declared means, and for an action that is permitted. */
  predicate Sworn(env: Env, s: State, k: Skeptic) {
    && !k.foreign && k.sound && k.step == s.step && k.context == s.context
    && Declared(env, s, k) && Permitted(env, s, k.action, k.params)
  }

  /** A review of this run and role, of proposal `k`, in its step and in this context. */
  predicate Bound(s: State, k: Skeptic, c: Critic) {
    !c.foreign && c.step == k.step && c.context == s.context && c.proposal == k.id
  }

  /** A review of this run and role, of proposal `k`, in this context, and well
      founded; a revision is left in the budget and asks for what is permitted. */
  predicate Attested(env: Env, s: State, k: Skeptic, c: Critic) {
    && Bound(s, k, c) && c.sound
    && (c.verdict.Revise? ==> s.revisions < s.limits.revisions && Permitted(env, s, c.action, c.params))
  }

  /** A revision for which the budget of revisions, calls or costs is spent. */
  predicate Overspent(env: Env, s: State, k: Skeptic, c: Critic) {
    Bound(s, k, c) && c.verdict.Revise?
      && (s.limits.revisions <= s.revisions || Beyond(env, s, c.action, c.params))
  }

  lemma {:induction false} ResolvedIs(specs: seq<Spec>, tool: Tool)
    ensures var found := Resolve(specs, tool);
      && (found.Some? ==> found.value in specs && found.value.tool == tool)
      && (found.None? ==> forall spec :: spec in specs ==> spec.tool != tool)
  {
    if specs != [] && specs[0].tool != tool { ResolvedIs(specs[1..], tool); }
  }

  lemma OneEntry(env: Env, tool: Tool, spec: Spec)
    requires UniqueTools(env.specs) && Entry(env, tool, spec)
    ensures Resolve(env.specs, tool) == Some(spec)
  {
    var i :| 0 <= i < |env.specs| && env.specs[i] == spec;
    ResolveAt(env.specs, i);
  }

  lemma TestsAre(ts: seq<Test>, wanted: set<Test>)
    ensures wanted - TestsIn(ts) == {} <==> forall t :: t in wanted ==> t in ts
    ensures wanted <= TestsIn(ts) <==> forall t :: t in wanted ==> t in ts
  {
    if wanted - TestsIn(ts) == {} {
      forall t | t in wanted ensures t in ts { assert t !in wanted - TestsIn(ts); }
    }
  }

  lemma UnrepeatedIs(xs: seq<Execution>, tool: Tool, params: Params)
    ensures Unrepeated(xs, tool, params) <==> !Executed(xs, Signature(tool, params))
  {
  }

  lemma ActionIsValid(env: Env, s: State, action: Action, params: Params)
    requires UniqueTools(env.specs)
    ensures JudgeAction(env, MeansOf(s), action, params, s.available).Accept? <==> Permitted(env, s, action, params)
    ensures JudgeAction(env, MeansOf(s), action, params, s.available).OverBudget? <==> Beyond(env, s, action, params)
  {
    hide Resolve, Executed, Unrepeated, TestsIn, UniqueTools;
    TestsAre(s.completed, MANDATORY_TESTS);
    if action.Use? {
      ResolvedIs(env.specs, action.tool);
      var found := Resolve(env.specs, action.tool);
      if found.Some? {
        TestsAre(s.completed, found.value.required);
        if env.schema(action.tool, params).Some? {
          UnrepeatedIs(s.executions, action.tool, env.schema(action.tool, params).value);
        }
        forall spec | Entry(env, action.tool, spec) ensures spec == found.value { OneEntry(env, action.tool, spec); }
      }
    }
  }

  /** A proposal is let through exactly if its fields swear to all of this. */
  lemma ProposalIsValid(env: Env, s: State, k: Skeptic)
    requires UniqueTools(env.specs)
    ensures JudgeSkeptic(env, s, k, s.available).Accept? <==> Sworn(env, s, k)
    ensures JudgeSkeptic(env, s, k, s.available).OverBudget? <==>
      !k.foreign && k.step == s.step && k.context == s.context && Declared(env, s, k)
        && Beyond(env, s, k.action, k.params)
  {
    hide Resolve, JudgeAction, Permitted, Beyond, UniqueTools;
    ActionIsValid(env, s, k.action, k.params);
    if k.action.Use? {
      var tool := k.action.tool;
      ResolvedIs(env.specs, tool);
      forall spec | spec in env.specs && spec.tool == tool ensures Resolve(env.specs, tool) == Some(spec) {
        OneEntry(env, tool, spec);
      }
    }
  }

  lemma ReviewIsValid(env: Env, s: State, k: Skeptic, c: Critic)
    requires UniqueTools(env.specs)
    ensures JudgeCritic(env, s, k, c, s.available).Accept? <==> Attested(env, s, k, c)
    ensures JudgeCritic(env, s, k, c, s.available).OverBudget? <==>
      Overspent(env, s, k, c)
  {
    hide JudgeAction, Permitted, Beyond, UniqueTools;
    ActionIsValid(env, s, c.action, c.params);
  }

  // ---- what a review decides ----

  /** What a reviewed proposal asks for: the revision's request, if it is one. */
  predicate Wanted(s: State, action: Action, params: Params) {
    && CurrentSkeptic(s).Some? && CurrentCritic(s).Some?
    && var k, c := CurrentSkeptic(s).value, CurrentCritic(s).value;
    && action == (if c.verdict.Revise? then c.action else k.action)
    && params == (if c.verdict.Revise? then c.params else k.params)
  }

  // ---- why a run ends ----

  predicate Vetoed(s: State) { CurrentCritic(s).Some? && CurrentCritic(s).value.verdict.Veto? }

  /** The review, or the proposal that it reviews, asks to stop. */
  predicate AskedToStop(s: State) {
    CurrentSkeptic(s).Some? && CurrentCritic(s).Some? && !CurrentCritic(s).value.verdict.Veto?
      && (CurrentSkeptic(s).value.action.Stop?
          || (CurrentCritic(s).value.verdict.Revise? && CurrentCritic(s).value.action.Stop?))
  }

  /** The reason fixed when a result was evaluated, and otherwise, in this order:
      the veto, the stop, the count, the costs, and the lack of an experiment,
      which is the costs' fault exactly if one could be offered for more. */
  predicate ReasonIs(env: Env, s: State, reason: Option<Reason>) {
    var open := !s.status.Finalizing? && !Vetoed(s) && !AskedToStop(s);
    var count, cost := s.limits.adaptive <= s.adaptiveUsed, s.costLeft == 0;
    && (s.status.Finalizing? ==> reason == s.pendingFinal)
    && (!s.status.Finalizing? && Vetoed(s) ==> reason == Some(CriticVeto))
    && (!s.status.Finalizing? && AskedToStop(s) ==> reason == Some(AgentStop))
    && (open && count ==> reason == Some(CountBudgetReached))
    && (open && !count && cost ==> reason == Some(CostBudgetExhausted))
    && (open && !count && !cost && Available(env, s) == [] ==>
          reason == Some(if OnlyForMore(env, s) then NoAffordableExperiment else NoAvailableAction))
    && (open && !count && !cost && Available(env, s) != [] ==> reason.None?)
  }

  lemma ReasonMeans(env: Env, s: State)
    ensures ReasonIs(env, s, FinalReason(env, s))
  {
    hide Available, HasUnaffordable, OnlyForMore, ReviewOf, ProposalOf;
    ForMoreIs(env, s);
  }

  // ---- what refuses an execution ----

  /** Everything that the guards of an execution ask for, but its inputs. */
  predicate Granted(env: Env, s: State, tool: Tool, params: Params, adaptive: bool, spec: Spec) {
    && Eligible(env, s, tool, params, adaptive, spec) && (adaptive ==> spec.cost <= s.costLeft)
    && Unrepeated(s.executions, tool, env.schema(tool, params).value)
    && (if adaptive then
          spec.adaptive && Use(tool) in Available(env, s) && forall t :: t in MANDATORY_TESTS ==> t in s.completed
        else spec.mandatory.Some?)
    && forall t :: t in spec.required ==> t in s.completed
  }

  predicate Eligible(env: Env, s: State, tool: Tool, params: Params, adaptive: bool, spec: Spec) {
    && AdmissionOpen(s) && s.toolCalls < s.limits.toolCalls && (adaptive ==> s.adaptiveUsed < s.limits.adaptive)
    && Entry(env, tool, spec) && spec.authorized && env.schema(tool, params).Some?
  }

  predicate Overpriced(env: Env, s: State, tool: Tool, params: Params) {
    exists spec :: spec in env.specs && Eligible(env, s, tool, params, true, spec) && s.costLeft < spec.cost
  }

  /** The budget for this execution is spent. */
  predicate Unpaid(env: Env, s: State, tool: Tool, params: Params, adaptive: bool) {
    AdmissionOpen(s)
      && (|| s.limits.toolCalls <= s.toolCalls
          || (adaptive && s.limits.adaptive <= s.adaptiveUsed)
          || (adaptive && Overpriced(env, s, tool, params)))
  }

  /** An execution is refused exactly if something that it needs is missing; the
      refusal ends the run as over budget, without evidence, or as failed. */
  lemma RefusalIs(env: Env, d: Disk, tool: Tool, params: Params, adaptive: bool)
    requires UniqueTools(env.specs)
    ensures var refusal := Refusal(env, d, tool, params, adaptive);
      var granted := exists spec :: spec in env.specs && Granted(env, d.state, tool, params, adaptive, spec);
      && (refusal.None? <==> granted && env.inputsReady(tool, d.ledger))
      && (refusal.Some? ==>
            && refusal.value.Aborted? && refusal.value.action.None? && Failing(refusal.value.status)
            && (refusal.value.status.BudgetExhausted? <==> Unpaid(env, d.state, tool, params, adaptive))
            && (refusal.value.status.InsufficientEvidence? <==> granted))
  {
    hide Resolve, Executed, Unrepeated, TestsIn, UniqueTools, Available;
    var s := d.state;
    TestsAre(s.completed, MANDATORY_TESTS);
    ResolvedIs(env.specs, tool);
    var found := Resolve(env.specs, tool);
    forall spec | spec in env.specs && Entry(env, tool, spec) ensures found == Some(spec) { OneEntry(env, tool, spec); }
    if found.Some? {
      TestsAre(s.completed, found.value.required);
      if env.schema(tool, params).Some? { UnrepeatedIs(s.executions, tool, env.schema(tool, params).value); }
    }
  }

  // ---- what the evidence has shown ----

  /** A record that completes the test: of a tool registered for it, with a
      result that is a success, an absence, or undecided. */
  predicate Shows(env: Env, e: Evidence, t: Test) {
    && (exists spec :: spec in env.specs && spec.tool == e.result.tool && spec.mandatory == Some(t))
    && (e.result.status.Success? || e.result.status.NoEvidence? || e.result.status.Indeterminate?)
  }

  lemma ShowsIs(env: Env, e: Evidence, t: Test)
    requires UniqueTools(env.specs)
    ensures Shows(env, e, t) <==> Completes(env, e) == Some(t)
  {
    hide UniqueTools;
    ResolvedIs(env.specs, e.result.tool);
    forall spec | spec in env.specs && spec.tool == e.result.tool
      ensures Resolve(env.specs, e.result.tool) == Some(spec)
    {
      OneEntry(env, e.result.tool, spec);
    }
  }

  /** Exactly the tests that a record shows are complete. */
  lemma {:induction false} CompletedAre(env: Env, es: seq<Evidence>, t: Test)
    requires UniqueTools(env.specs)
    ensures t in Replay(env, es).completed <==> exists e :: e in es && Shows(env, e, t)
  {
    hide Shows, Completes, UniqueTools;
    if es != [] {
      var init, last := es[..|es| - 1], es[|es| - 1];
      assert es == init + [last];
      CompletedAre(env, init, t);
      ShowsIs(env, last, t);
      assert t in Replay(env, es).completed <==> t in Replay(env, init).completed || Completes(env, last) == Some(t);
      assert forall e :: e in es <==> e in init || e == last;
    }
  }

  predicate Finds(e: Evidence) { e.result.tool.SearchBls? && e.result.status.Success? }

  /** The candidate is what the newest successful search measured, quoted. */
  predicate CandidateIs(es: seq<Evidence>, cs: seq<Candidate>) {
    && (cs == [] <==> forall e :: e in es ==> !Finds(e))
    && (cs != [] ==> |cs| == 1 && exists i :: 0 <= i < |es| && Newest(es, i) && Quotes(cs[0], es[i].result))
  }

  predicate Newest(es: seq<Evidence>, i: nat)
    requires i < |es|
  {
    Finds(es[i]) && forall j :: i < j < |es| ==> !Finds(es[j])
  }

  predicate Quotes(c: Candidate, r: ToolResult) {
    && c.measurements.Keys == r.measurements.Keys
    && forall n :: n in c.measurements ==>
         c.measurements[n].quantity == r.measurements[n] && c.measurements[n].source == EvidenceId(r)
  }

  lemma LearnFinds(env: Env, k: Science, e: Evidence)
    ensures var cs := Learn(env, k, e).candidates;
      if Finds(e) then |cs| == 1 && Quotes(cs[0], e.result) else cs == k.candidates
  {
    hide Completes, Quotes;
    if Finds(e) { QuotedAre(Learn(env, k, e).candidates[0], e.result); }
  }

  lemma {:induction false} CandidatesAre(env: Env, es: seq<Evidence>)
    ensures CandidateIs(es, Replay(env, es).candidates)
  {
    hide Learn, Quotes;
    if es != [] {
      var init, last := es[..|es| - 1], es[|es| - 1];
      assert es == init + [last];
      CandidatesAre(env, init);
      LearnFinds(env, Replay(env, init), last);
      var cs := Replay(env, es).candidates;
      if Finds(last) {
        assert Newest(es, |es| - 1) && Quotes(cs[0], es[|es| - 1].result);
      } else if cs != [] {
        var i :| 0 <= i < |init| && Newest(init, i) && Quotes(cs[0], init[i].result);
        assert es[i] == init[i];
        assert Newest(es, i);
      }
    }
  }

  predicate Decides(e: Evidence) { e.result.code.Some? && Rank(e.result.code.value) < 4 }

  /** The newest deciding code leaves its own hypothesis, and its strongest rival:
      the planet against an eclipsing binary, everything else against the planet. */
  predicate HypothesesAre(es: seq<Evidence>, hs: seq<Hypothesis>, strongest: Option<Hypothesis>) {
    if forall e :: e in es ==> !Decides(e) then hs == [] && strongest.None?
    else exists i :: 0 <= i < |es| && LastDecided(es, i)
           && hs == [Interpretation(Rank(es[i].result.code.value))]
           && strongest == Some(if hs == [PlanetaryTransit] then EclipsingBinary else PlanetaryTransit)
  }

  predicate LastDecided(es: seq<Evidence>, i: nat)
    requires i < |es|
  {
    Decides(es[i]) && forall j :: i < j < |es| ==> !Decides(es[j])
  }

  function Interpretation(rank: nat): Hypothesis {
    if rank == 0 then PlanetaryTransit
    else if rank == 1 then BackgroundContamination
    else if rank == 2 then EclipsingBinary
    else InstrumentalOrVariableNoise
  }

  lemma LearnDecides(env: Env, k: Science, e: Evidence)
    ensures var q := Learn(env, k, e);
      if Decides(e) then
        q.hypotheses == [Interpretation(Rank(e.result.code.value))]
          && q.strongest == Some(if q.hypotheses == [PlanetaryTransit] then EclipsingBinary else PlanetaryTransit)
      else q.hypotheses == k.hypotheses && q.strongest == k.strongest
  {
    hide Completes;
  }

  lemma {:induction false} ReplayDecides(env: Env, es: seq<Evidence>)
    ensures HypothesesAre(es, Replay(env, es).hypotheses, Replay(env, es).strongest)
  {
    hide Completes, Learn, Interpretation, Rank;
    if es != [] {
      var init, last := es[..|es| - 1], es[|es| - 1];
      assert es == init + [last];
      ReplayDecides(env, init);
      LearnDecides(env, Replay(env, init), last);
      if Decides(last) {
        assert LastDecided(es, |es| - 1);
      } else if exists e :: e in init && Decides(e) {
        var i :| 0 <= i < |init| && LastDecided(init, i)
          && Replay(env, init).hypotheses == [Interpretation(Rank(init[i].result.code.value))];
        assert es[i] == init[i];
        assert LastDecided(es, i);
      }
    }
  }

  lemma QuotedAre(c: Candidate, r: ToolResult)
    requires c == Candidate(Quote(EvidenceId(r), r.measurements))
    ensures Quotes(c, r)
  {
  }
}
