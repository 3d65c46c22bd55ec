/** The writes of a run, lifted from single durable states to whole runs: what
    is recorded on the side, and how an action's evidence is committed. */
module Writes {
  import opened Domain
  import opened Store
  import opened Policy
  import opened Nodes
  import opened Invariant
  import opened Steps

  /** `e` differs from `d` in side records only: telemetry, role records, notes. */
  predicate Aside(d: Disk, e: Disk) {
    && e.state == d.state.(modelCalls := e.state.modelCalls, retries := e.state.retries,
                           failures := e.state.failures, checkpoints := e.state.checkpoints)
    && e.ledger == d.ledger && d.decisions <= e.decisions
    && LatestBudget(e.trace, d.state.step) == LatestBudget(d.trace, d.state.step)
    && LatestBoundary(e.trace, d.state.step) == LatestBoundary(d.trace, d.state.step)
  }

  /** The run continued, if at all, with side records only. */
  ghost predicate Beside(env: Env, r: Run, q: Run) {
    && Good(env, q) && (r.exit.Running? ==> q.exit.Running?) && Aside(r.now, q.now) && (!r.exit.Running? ==> q == r)
  }

  lemma EmitBeside(env: Env, r: Run, kind: EventKind)
    requires Good(env, r) && Neutral(kind)
    ensures Beside(env, r, Emit(r, kind)) && Emit(r, kind).now.state == r.now.state
      && Emit(r, kind).now.decisions == r.now.decisions
  {
    hide Inv, Grows;
    if r.exit.Running? {
      assert At(r, |r.past|) == r.now;
      NoteKeeps(env, r.now, kind);
      PushGood(env, r, WithEvent(r.now, kind));
      TraceQueries(r.now.trace, Event(|r.now.trace| + 1, r.now.state.step, kind), r.now.state.step);
    }
  }

  lemma {:induction false} EmitAllBeside(env: Env, r: Run, kinds: seq<EventKind>)
    requires Good(env, r) && forall k :: k in kinds ==> Neutral(k)
    ensures Beside(env, r, EmitAll(r, kinds)) && EmitAll(r, kinds).now.state == r.now.state
      && EmitAll(r, kinds).now.decisions == r.now.decisions
    decreases kinds
  {
    hide Good, Emit;
    if kinds != [] {
      EmitBeside(env, r, kinds[0]);
      EmitAllBeside(env, Emit(r, kinds[0]), kinds[1..]);
    }
  }

  lemma TellOneBeside(env: Env, r: Run, t: Tele)
    requires Good(env, r)
    ensures Beside(env, r, TellOne(r, t)) && TellOne(r, t).now.decisions == r.now.decisions
    ensures TellOne(r, t).now.state.checkpoints == r.now.state.checkpoints
  {
    hide Inv, Grows, LatestBudget, LatestBoundary, Emit;
    var s := r.now.state;
    if r.exit.Running? {
      assert At(r, |r.past|) == r.now;
      match t
      case Started =>
        if s.modelCalls < s.limits.modelCalls {
          var s1 := s.(modelCalls := s.modelCalls + 1);
          TrafficKeepsFrom(env, r, s1);
          EmitBeside(env, Save(r, s1), AgentEvent);
        }
      case Retried(kind) =>
        if s.retries < s.limits.retries {
          var s1 := s.(retries := s.retries + 1, failures := s.failures + [kind]);
          TrafficKeepsFrom(env, r, s1);
          EmitBeside(env, Save(r, s1), AgentEvent);
        }
      case Recorded => EmitBeside(env, r, InferenceEvent);
      case Noted => EmitBeside(env, r, AgentEvent);
    } else {
      EmitVoid(r);
    }
  }

  lemma EmitVoid(r: Run)
    requires !r.exit.Running?
    ensures forall kind :: Emit(r, kind) == r
  {
  }

  lemma TrafficKeepsFrom(env: Env, r: Run, s: State)
    requires Good(env, r) && r.exit.Running?
    requires s == r.now.state.(modelCalls := s.modelCalls, retries := s.retries, failures := s.failures)
    requires s.modelCalls <= s.limits.modelCalls || s.modelCalls == r.now.state.modelCalls
    requires s.retries <= s.limits.retries || s.retries == r.now.state.retries
    ensures Good(env, Save(r, s)) && Save(r, s) == Run(r.past + [r.now], r.now.(state := s), Running)
  {
    hide Grows, Records, Replay, Account, AllAllowed, Truthful, Approvable, Distinct, SumCost, CountAdaptive,
      ProposalOf, ReviewOf, LatestBudget, LatestBoundary;
    assert At(r, |r.past|) == r.now;
    assert Budgets(r.now.state);
    TrafficKeeps(env, r.now, s);
    SaveGood(env, r, s);
  }

  /** The calls that a log starts, and the retries that it takes, as far as the limits go. */
  function CallsAfter(s: State, log: seq<Tele>): nat {
    if log == [] then s.modelCalls
    else
      var n := CallsAfter(s, log[..|log| - 1]);
      if log[|log| - 1].Started? && n < s.limits.modelCalls then n + 1 else n
  }

  function RetriesAfter(s: State, log: seq<Tele>): nat {
    if log == [] then s.retries
    else
      var n := RetriesAfter(s, log[..|log| - 1]);
      if log[|log| - 1].Retried? && n < s.limits.retries then n + 1 else n
  }

  /** The failures that these retries note. */
  function NotedBy(s: State, log: seq<Tele>): seq<FailureKind> {
    if log == [] then []
    else
      var last := log[|log| - 1];
      NotedBy(s, log[..|log| - 1])
      + (if last.Retried? && RetriesAfter(s, log[..|log| - 1]) < s.limits.retries then [last.kind] else [])
  }

  predicate Told(s: State, log: seq<Tele>, q: State) {
    q.modelCalls == CallsAfter(s, log) && q.retries == RetriesAfter(s, log)
      && q.failures == s.failures + NotedBy(s, log)
  }

  predicate SameTraffic(s: State, q: State) {
    q.modelCalls == s.modelCalls && q.retries == s.retries && q.failures == s.failures
  }

  lemma {:induction false} TellMore(r: Run, log: seq<Tele>, t: Tele)
    ensures Tell(r, log + [t]) == TellOne(Tell(r, log), t)
    decreases log
  {
    hide TellOne;
    if log == [] {
      assert Tell(TellOne(r, t), []) == TellOne(r, t);
      assert (log + [t])[1..] == [];
    } else {
      assert (log + [t])[1..] == log[1..] + [t];
      TellMore(TellOne(r, log[0]), log[1..], t);
    }
  }

  lemma {:induction false} SameStart(s: State, t: State, log: seq<Tele>)
    requires SameTraffic(s, t) && s.limits == t.limits
    ensures CallsAfter(s, log) == CallsAfter(t, log) && RetriesAfter(s, log) == RetriesAfter(t, log)
    ensures NotedBy(s, log) == NotedBy(t, log)
  {
    if log != [] { SameStart(s, t, log[..|log| - 1]); }
  }

  /** Every started call and every retry of a log is charged. */
  lemma {:induction false} TellCounts(env: Env, r: Run, log: seq<Tele>)
    requires Good(env, r) && r.exit.Running?
    ensures Told(r.now.state, log, Tell(r, log).now.state)
  {
    hide Good, TellOne, LatestBudget, LatestBoundary;
    if log != [] {
      var init, last := log[..|log| - 1], log[|log| - 1];
      assert log == init + [last];
      TellMore(r, init, last);
      TellCounts(env, r, init);
      TellBeside(env, r, init);
      TellOneCounts(env, Tell(r, init), last);
    }
  }

  lemma TellOneCounts(env: Env, r: Run, t: Tele)
    requires Good(env, r) && r.exit.Running?
    ensures var s, q := r.now.state, TellOne(r, t).now.state;
      && q.modelCalls == s.modelCalls + (if t.Started? && s.modelCalls < s.limits.modelCalls then 1 else 0)
      && q.retries == s.retries + (if t.Retried? && s.retries < s.limits.retries then 1 else 0)
      && q.failures == s.failures + (if t.Retried? && s.retries < s.limits.retries then [t.kind] else [])
  {
    hide Good, Grows, Inv, ValidSnapshot;
    var s := r.now.state;
    match t
    case Started =>
      if s.modelCalls < s.limits.modelCalls { TrafficKeepsFrom(env, r, s.(modelCalls := s.modelCalls + 1)); }
    case Retried(kind) =>
      if s.retries < s.limits.retries {
        TrafficKeepsFrom(env, r, s.(retries := s.retries + 1, failures := s.failures + [kind]));
      }
    case Recorded =>
    case Noted =>
  }

  lemma {:induction false} TellBeside(env: Env, r: Run, log: seq<Tele>)
    requires Good(env, r)
    ensures Beside(env, r, Tell(r, log)) && Tell(r, log).now.decisions == r.now.decisions
    ensures Tell(r, log).now.state.checkpoints == r.now.state.checkpoints
    decreases log
  {
    hide Good, TellOne;
    if log != [] {
      TellOneBeside(env, r, log[0]);
      TellBeside(env, TellOne(r, log[0]), log[1..]);
    }
  }

  // ---- role records ----

  /** Merging adds exactly the ledger's keys, keeping them unique. */
  lemma {:induction false} MergeKeys(cs: seq<Checkpoint>, ds: seq<Checkpoint>, all: seq<Checkpoint>)
    requires UniqueKeys(cs) && AllIn(cs, all) && AllIn(ds, all)
    ensures UniqueKeys(Merged(cs, ds)) && AllIn(Merged(cs, ds), all) && cs <= Merged(cs, ds)
    ensures forall d :: d in ds ==> Known(Merged(cs, ds), d.role, d.phase, d.context)
    decreases ds
  {
    if ds != [] {
      var next := if Known(cs, ds[0].role, ds[0].phase, ds[0].context) then cs else cs + [ds[0]];
      MergeKeys(next, ds[1..], all);
      assert Known(next, ds[0].role, ds[0].phase, ds[0].context) by {
        if !Known(cs, ds[0].role, ds[0].phase, ds[0].context) { assert next[|cs|] == ds[0]; }
      }
      assert forall c :: c in next ==> c in Merged(next, ds[1..]);
      forall d | d in ds ensures Known(Merged(cs, ds), d.role, d.phase, d.context) {
        if d != ds[0] { assert d in ds[1..]; }
      }
    }
  }

  /** After recovery a role is done exactly when the ledger has its record. */
  predicate Synced(d: Disk) {
    forall c :: c in d.decisions ==> Known(d.state.checkpoints, c.role, c.phase, c.context)
  }

  lemma RecoverBeside(env: Env, r: Run)
    requires Good(env, r)
    ensures Beside(env, r, RecoverCheckpoints(r)) && (r.exit.Running? ==> Synced(RecoverCheckpoints(r).now))
    ensures RecoverCheckpoints(r).now.decisions == r.now.decisions
      && SameTraffic(r.now.state, RecoverCheckpoints(r).now.state)
  {
    hide Grows, Records, Replay, Account, AllAllowed, Truthful, Approvable, Distinct, SumCost, CountAdaptive,
      ProposalOf, ReviewOf, LatestBudget, LatestBoundary, Merged;
    if r.exit.Running? {
      assert At(r, |r.past|) == r.now;
      var s := r.now.state;
      MergeKeys(s.checkpoints, r.now.decisions, r.now.decisions);
      CheckpointsKeep(env, r.now, Merged(s.checkpoints, r.now.decisions));
      SaveGood(env, r, s.(checkpoints := Merged(s.checkpoints, r.now.decisions)));
    }
  }

  /** What is checkpointed is recorded; after recovery, also the other way. */
  lemma CheckpointsAreRecords(env: Env, d: Disk)
    requires Inv(env, d)
    ensures forall role, phase, context :: Known(d.state.checkpoints, role, phase, context) ==>
      Known(d.decisions, role, phase, context)
    ensures Synced(d) ==> forall role, phase, context ::
      Known(d.decisions, role, phase, context) ==> Known(d.state.checkpoints, role, phase, context)
  {
    hide Ledger, Proposal, Spent, Working, Account, AllAllowed, Reasons, Verdicts, Authority, Budgets, ValidSnapshot,
      Executions, UniqueKeys, Voices;
  }

  /** A run that went on with side records knows what it knew. */
  lemma StillKnown(env: Env, p: Run, q: Run, role: Role, phase: Phase)
    requires Beside(env, p, q) && Known(p.now.decisions, role, phase, p.now.state.context)
    ensures Known(q.now.decisions, role, phase, p.now.state.context) && q.now.state.context == p.now.state.context
  {
    hide Good, LatestBudget, LatestBoundary;
  }

  lemma DoneIsKnown(env: Env, r: Run, role: Role, phase: Phase)
    requires Good(env, r) && RoleDone(r.now.state, role, phase)
    ensures Known(r.now.decisions, role, phase, r.now.state.context)
  {
    hide Inv, Grows, Known;
    assert At(r, |r.past|) == r.now;
    CheckpointsAreRecords(env, r.now);
  }

  lemma SyncedRole(env: Env, r: Run, role: Role, phase: Phase)
    requires Good(env, r) && Synced(r.now)
    ensures RoleDone(r.now.state, role, phase) <==> Known(r.now.decisions, role, phase, r.now.state.context)
  {
    hide Inv, Grows, Known, Synced;
    assert At(r, |r.past|) == r.now;
    CheckpointsAreRecords(env, r.now);
  }

  lemma NewKey(cs: seq<Checkpoint>, c: Checkpoint)
    requires UniqueKeys(cs) && !Known(cs, c.role, c.phase, c.context)
    ensures UniqueKeys(cs + [c])
  {
    forall i, j | 0 <= i < j < |cs + [c]| ensures !SameKey((cs + [c])[i], (cs + [c])[j]) {
      assert (cs + [c])[i] in cs;
    }
  }

  /** Writing a role record and its checkpoint, both with a new key. */
  lemma CheckpointedBeside(env: Env, r: Run, c: Checkpoint)
    requires Good(env, r) && r.exit.Running? && !Stopped(r.now.state.status) && c.context == r.now.state.context
    requires !Known(r.now.decisions, c.role, c.phase, c.context)
    requires c.role.SkepticRole? ==> Live(r.now.state)
    requires c.role.CriticRole? ==> Live(r.now.state) && CurrentCritic(r.now.state).Some?
    requires c.role.Director? && c.phase.Final? ==> ForFinal(env, r.now.state)
    ensures Beside(env, r, Checkpointed(r, c))
    ensures Checkpointed(r, c).now.decisions == r.now.decisions + [c]
    ensures Checkpointed(r, c).now.state == r.now.state.(checkpoints := r.now.state.checkpoints + [c])
  {
    hide Grows, Records, Replay, Account, AllAllowed, Truthful, Approvable, Distinct, SumCost, CountAdaptive,
      ProposalOf, ReviewOf, LatestBudget, LatestBoundary;
    assert At(r, |r.past|) == r.now;
    var d1 := r.now.(decisions := r.now.decisions + [c]);
    DecisionKeeps(env, r.now, c);
    PushGood(env, r, d1);
    var r1 := AppendDecision(r, c);
    var cs := r.now.state.checkpoints + [c];
    assert !Known(r.now.state.checkpoints, c.role, c.phase, c.context);
    NewKey(r.now.state.checkpoints, c);
    CheckpointsKeep(env, d1, cs);
    SaveGood(env, r1, d1.state.(checkpoints := cs));
  }

  lemma PersistRequiredBeside(env: Env, r: Run, role: Role, phase: Phase, decision: string)
    requires Good(env, r) && r.exit.Running? && !Stopped(r.now.state.status)
    requires !Known(r.now.decisions, role, phase, r.now.state.context)
    requires role.SkepticRole? ==> Live(r.now.state)
    requires role.CriticRole? ==> Live(r.now.state) && CurrentCritic(r.now.state).Some?
    requires !role.Director?
    ensures Beside(env, r, PersistRequired(r, role, phase, decision))
    ensures PersistRequired(r, role, phase, decision).now.decisions ==
      r.now.decisions + [Checkpoint(role, phase, r.now.state.context, decision, true)]
    ensures SameTraffic(r.now.state, PersistRequired(r, role, phase, decision).now.state)
  {
    hide Good, LatestBudget, LatestBoundary, Checkpointed, EmitAll, Stopped, Live, CurrentCritic;
    if RoleDone(r.now.state, role, phase) { DoneIsKnown(env, r, role, phase); }
    var c := Checkpoint(role, phase, r.now.state.context, decision, true);
    CheckpointedBeside(env, r, c);
    EmitAllBeside(env, Checkpointed(r, c), RequiredEvents(role));
  }

  /** What concludes a run is not changed by side records. */
  lemma FinalBeside(env: Env, r: Run, q: Run)
    requires Beside(env, r, q)
    ensures ForFinal(env, r.now.state) <==> ForFinal(env, q.now.state)
  {
    hide Good, ProposalOf, ReviewOf, Revisions, Offer, LatestBudget, LatestBoundary;
  }

  predicate Advisory(role: Role) { !role.SkepticRole? && !role.CriticRole? }

  /** The role records with that of an optional role: what it said, or that it was
      skipped; added exactly if there was none of its key. */
  function WithRole(ds: seq<Checkpoint>, context: nat, role: Role, phase: Phase, result: RoleResult): seq<Checkpoint> {
    if Known(ds, role, phase, context) then ds
    else ds + [Checkpoint(role, phase, context, if result.Spoke? then result.decision else "skip", result.Spoke?)]
  }

  /** An optional role leaves exactly one record and one checkpoint of its key. */
  lemma PersistOptionalBeside(env: Env, r: Run, role: Role, phase: Phase, result: RoleResult)
    requires Good(env, r) && !Stopped(r.now.state.status) && Advisory(role)
    requires role.Director? && phase.Final? ==> ForFinal(env, r.now.state)
    ensures Beside(env, r, PersistOptional(r, role, phase, result))
    ensures r.exit.Running? ==> RoleDone(PersistOptional(r, role, phase, result).now.state, role, phase)
    ensures SameTraffic(r.now.state, PersistOptional(r, role, phase, result).now.state)
    ensures r.exit.Running? ==>
      PersistOptional(r, role, phase, result).now.decisions
      == WithRole(r.now.decisions, r.now.state.context, role, phase, result)
  {
    hide Good, LatestBudget, LatestBoundary, ForFinal, Checkpointed, EmitAll, RecoverCheckpoints;
    RecoverBeside(env, r);
    var r1 := RecoverCheckpoints(r);
    FinalBeside(env, r, r1);
    if r.exit.Running? { SyncedRole(env, r1, role, phase); }
    if r.exit.Running? && !RoleDone(r1.now.state, role, phase) {
      var decision := if result.Spoke? then result.decision else "skip";
      var c := Checkpoint(role, phase, r1.now.state.context, decision, result.Spoke?);
      CheckpointedBeside(env, r1, c);
      var r2 := Checkpointed(r1, c);
      assert c in r2.now.state.checkpoints;
      EmitAllBeside(env, r2, if result.Spoke? then [AgentEvent, AgentEvent, AgentEvent] else [AgentEvent, AgentEvent]);
    } else if !r.exit.Running? {
      var decision := if result.Spoke? then result.decision else "skip";
      var c := Checkpoint(role, phase, r1.now.state.context, decision, result.Spoke?);
      VoidRole(r1, c, if result.Spoke? then [AgentEvent, AgentEvent, AgentEvent] else [AgentEvent, AgentEvent]);
    }
  }

  lemma {:induction false} VoidAll(r: Run, kinds: seq<EventKind>)
    requires !r.exit.Running?
    ensures EmitAll(r, kinds) == r
    decreases kinds
  {
    if kinds != [] { VoidAll(r, kinds[1..]); }
  }

  lemma VoidRole(r: Run, c: Checkpoint, kinds: seq<EventKind>)
    requires !r.exit.Running?
    ensures EmitAll(Checkpointed(r, c), kinds) == r
  {
    VoidAll(r, kinds);
  }

  lemma OptionalRoleBeside(env: Env, r: Run, role: Role, phase: Phase, log: seq<Tele>, result: RoleResult)
    requires Good(env, r) && r.exit.Running? && !Stopped(r.now.state.status) && Advisory(role)
    requires role.Director? && phase.Final? ==> ForFinal(env, r.now.state)
    ensures Beside(env, r, OptionalRole(r, role, phase, log, result))
    ensures RoleDone(OptionalRole(r, role, phase, log, result).now.state, role, phase)
    ensures !RoleDone(r.now.state, role, phase) ==>
      Told(r.now.state, log, OptionalRole(r, role, phase, log, result).now.state)
    ensures RoleDone(r.now.state, role, phase) ==> OptionalRole(r, role, phase, log, result) == r
    ensures OptionalRole(r, role, phase, log, result).now.decisions ==
      WithRole(r.now.decisions, r.now.state.context, role, phase, result)
  {
    hide Good, LatestBudget, LatestBoundary, ForFinal, PersistOptional, Tell, Emit, CallsAfter, RetriesAfter, NotedBy,
      Known;
    if !RoleDone(r.now.state, role, phase) {
      EmitBeside(env, r, AgentEvent);
      TellCounts(env, Emit(r, AgentEvent), log);
      SameStart(r.now.state, Emit(r, AgentEvent).now.state, log);
      TellBeside(env, Emit(r, AgentEvent), log);
      FinalBeside(env, r, Emit(r, AgentEvent));
      FinalBeside(env, Emit(r, AgentEvent), Tell(Emit(r, AgentEvent), log));
      PersistOptionalBeside(env, Tell(Emit(r, AgentEvent), log), role, phase, result);
    } else {
      DoneIsKnown(env, r, role, phase);
    }
  }
}
