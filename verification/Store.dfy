/** The durable store of one run and the only ways to write it.

    A `Run` records every durable state passed through, because a process may
    die after any single write: each element of `past`, and `now`, is a state
    from which a restart may have to continue. */
module Store {
  import opened Domain

  /** A locked result; canonical JSON is injective, so its bytes are the value. */
  datatype LockedResult = LockedResult(
    disposition: Disposition, evidenceRefs: seq<EvidenceId>, terminalReason: Reason, lockedAt: nat)

  datatype Bytes = Canonical(result: LockedResult)

  /** An injective digest. */
  datatype Digest = Sha(content: Bytes)

  /** A catalog reveal. `foreign`: it names another run or target. */
  datatype CatalogReveal = CatalogReveal(lockedDigest: Digest, foreign: bool, payload: string)

  /** The files of one run directory. */
  datatype Disk = Disk(
    state: State, trace: seq<Event>, ledger: seq<Evidence>, decisions: seq<Checkpoint>,
    result: Option<Bytes>, digest: Option<Digest>, catalog: Option<CatalogReveal>)

  /** Errors that no node handles: they escape from `advance`. */
  datatype Fault =
    | IllegalTransition | InvalidSnapshot | DuplicateEvidence | DuplicateDecision
    | AdmissionClosed | UnmatchedResult | ProvenanceBroken | NoRoute | StepLimit

  datatype Exit =
    | Running
    | Aborted(kind: FailureKind, status: Status, action: Option<nat>)
    | Faulted(fault: Fault)

  datatype Run = Run(past: seq<Disk>, now: Disk, exit: Exit)

  /** The durable state the run started from. */
  function First(r: Run): Disk { if r.past == [] then r.now else r.past[0] }

  /** Nothing durable is ever undone: `q` continues the history of `r`. */
  predicate Extends(r: Run, q: Run) {
    && |r.past| <= |q.past| && r.past == q.past[..|r.past|]
    && (if |q.past| == |r.past| then q.now == r.now else q.past[|r.past|] == r.now)
  }

  lemma Itself(r: Run)
    ensures Extends(r, r)
  {
  }

  lemma Onward(p: Run, q: Run, r: Run)
    requires Extends(p, q) && Extends(q, r)
    ensures Extends(p, r)
  {
  }

  function Start(d: Disk): Run { Run([], d, Running) }

  function SumCost(xs: seq<Execution>): nat {
    if xs == [] then 0 else SumCost(xs[..|xs| - 1]) + xs[|xs| - 1].cost
  }

  /** The snapshot's own validators. */
  predicate ValidSnapshot(s: State) {
    && (s.status.Finalizing? ==> s.pendingFinal.Some?)
    && (Terminal(s.status) ==> s.terminalReason.Some?)
    && 0 <= s.costLeft
    && s.costUsed + s.costLeft == s.limits.cost
    && SumCost(s.executions) == s.costUsed
    && AllValid(s.executions)
  }

  predicate AllValid(xs: seq<Execution>) { forall x :: x in xs ==> ValidExecution(x) }

  predicate ValidExecution(x: Execution) {
    && (!x.adaptive ==> x.cost == 0)
    && (x.status.Prepared? ==> x.resultStatus.None? && x.evidence.None?)
    && (x.status.Completed? ==> x.resultStatus.Some? && x.evidence.Some?)
  }

  /** One durable write; nothing is written once the run has stopped. */
  function Push(r: Run, d: Disk): (q: Run)
    ensures First(q) == First(r) && Extends(r, q)
  {
    if r.exit.Running? then Run(r.past + [r.now], d, Running) else r
  }

  function Raise(r: Run, e: Exit): (q: Run)
    ensures First(q) == First(r) && Extends(r, q)
  {
    if r.exit.Running? then r.(exit := e) else r
  }

  /** `_replace`: check the transition and the snapshot, then replace state.json. */
  function Save(r: Run, s: State): (q: Run)
    ensures First(q) == First(r) && Extends(r, q)
  {
    if !MayMove(r.now.state.status, s.status) then Raise(r, Faulted(IllegalTransition))
    else if !ValidSnapshot(s) then Raise(r, Faulted(InvalidSnapshot))
    else Push(r, r.now.(state := s))
  }

  /** `_emit`: append one event, numbered by the length of the trace. */
  function Emit(r: Run, kind: EventKind): (q: Run)
    ensures First(q) == First(r) && Extends(r, q)
  {
    Push(r, r.now.(trace := r.now.trace + [Event(|r.now.trace| + 1, r.now.state.step, kind)]))
  }

  function EmitAll(r: Run, kinds: seq<EventKind>): (q: Run)
    ensures First(q) == First(r) && Extends(r, q)
    decreases kinds
  {
    if kinds == [] then r else EmitAll(Emit(r, kinds[0]), kinds[1..])
  }

  function AppendEvidence(r: Run, e: Evidence): (q: Run)
    ensures First(q) == First(r) && Extends(r, q)
  {
    if exists x :: x in r.now.ledger && (x.id == e.id || x.action == e.action)
    then Raise(r, Faulted(DuplicateEvidence))
    else Push(r, r.now.(ledger := r.now.ledger + [e]))
  }

  predicate SameKey(a: Checkpoint, b: Checkpoint) {
    a.role == b.role && a.phase == b.phase && a.context == b.context
  }

  predicate Known(cs: seq<Checkpoint>, role: Role, phase: Phase, context: nat) {
    exists c :: c in cs && c.role == role && c.phase == phase && c.context == context
  }

  function AppendDecision(r: Run, c: Checkpoint): (q: Run)
    ensures First(q) == First(r) && Extends(r, q)
  {
    if Known(r.now.decisions, c.role, c.phase, c.context)
    then Raise(r, Faulted(DuplicateDecision))
    else Push(r, r.now.(decisions := r.now.decisions + [c]))
  }
}
