/** Locking the result and revealing the catalog: three files and a snapshot,
    written one after the other. */
module LockReveal {
  import opened Domain
  import opened Store
  import opened Policy
  import opened Nodes
  import opened Invariant
  import opened Accounting
  import opened Steps
  import opened Writes
  import opened Committing
  import opened Executing
  import opened Controlling

  datatype Receipt = Receipt(digest: Digest, lockedAt: nat)

  datatype Locking = Locking(r: Run, receipt: Option<Receipt>)

  datatype Revealing = Revealing(r: Run, shown: Option<CatalogReveal>)

  /** The catalog service: what it returns for a locked result and its digest. */
  type Provider = (LockedResult, Digest) -> CatalogReveal

  /** `receipt`: recomputed from the files, and refused unless they agree. */
  function ReceiptOf(d: Disk): Option<Receipt> {
    if d.result.None? || d.digest != Some(Sha(d.result.value)) then None
    else Some(Receipt(Sha(d.result.value), d.result.value.result.lockedAt))
  }

  function SealedState(s: State): State { s.(status := ResultLocked, lock := ResultSealed) }

  function RevealedState(s: State): State { s.(status := Revealed, lock := CatalogRevealed) }

  /** `lock`: result, digest, snapshot, event. The snapshot is written without
      the table of transitions being consulted. */
  function Lock(r: Run, at: nat): (l: Locking)
    ensures First(l.r) == First(r)
  {
    var s := r.now.state;
    if Sealed(s) then Locking(r, ReceiptOf(r.now))
    else if !s.status.ReadyToLock? || s.disposition.None? || s.terminalReason.None? then Locking(r, None)
    else
      var bytes := Canonical(LockedContent(s, at));
      var r1 := Push(r, r.now.(result := Some(bytes)));
      var r2 := Push(r1, r1.now.(digest := Some(Sha(bytes))));
      var r3 := if ValidSnapshot(SealedState(s)) then Push(r2, r2.now.(state := SealedState(s)))
        else Raise(r2, Faulted(InvalidSnapshot));
      Locking(Emit(r3, ResultLockedEvent), Some(Receipt(Sha(bytes), at)))
  }

  /** `_verified_locked_result` followed by `_validate_reveal`. */
  predicate Matches(d: Disk, shown: CatalogReveal) {
    d.result.Some? && d.digest == Some(Sha(d.result.value)) && !shown.foreign && shown.lockedDigest == d.digest.value
  }

  function ReadReveal(d: Disk): Option<CatalogReveal> {
    if d.catalog.Some? && Matches(d, d.catalog.value) then d.catalog else None
  }

  /** `reveal`: a persisted reveal is validated and used again; otherwise the
      provider is asked with the verified bytes and digest. */
  function Reveal(r: Run, provider: Provider): (v: Revealing)
    ensures First(v.r) == First(r)
  {
    var d := r.now;
    if d.state.lock.CatalogRevealed? then Revealing(r, ReadReveal(d))
    else if !Sealed(d.state) then Revealing(r, None)
    else if d.catalog.Some? then
      if ReadReveal(d).None? then Revealing(r, None)
      else Revealing(Emit(Save(r, RevealedState(d.state)), CatalogRevealedEvent), d.catalog)
    else if d.result.None? || d.digest != Some(Sha(d.result.value)) then Revealing(r, None)
    else
      var shown := provider(d.result.value.result, d.digest.value);
      if !Matches(d, shown) then Revealing(r, None)
      else
        var r1 := Push(r, d.(catalog := Some(shown)));
        Revealing(Emit(Save(r1, RevealedState(r1.now.state)), CatalogRevealedEvent), Some(shown))
  }

  // ---- every write of the protocol keeps the invariant ----

  lemma AuthorityFilesKeep(env: Env, d: Disk, result: Option<Bytes>, digest: Option<Digest>)
    requires Inv(env, d) && !Sealed(d.state)
    ensures var e := d.(result := result, digest := digest); Inv(env, e) && Grows(d, e)
  {
    hide Ledger, Roles, Proposal, Spent, Working, Account, AllAllowed, Reasons, Verdicts, Budgets, Executions,
      ValidSnapshot, LatestBudget, LatestBoundary;
    AccountFiles(env, d, d.(result := result, digest := digest));
  }

  lemma SealKeeps(env: Env, d: Disk, at: nat)
    requires Inv(env, d) && d.state.status.ReadyToLock? && !Sealed(d.state) && d.state.disposition.Some?
      && d.state.terminalReason.Some?
    requires d.result == Some(Canonical(LockedContent(d.state, at))) && d.digest == Some(Sha(d.result.value))
    ensures var e := d.(state := SealedState(d.state)); Inv(env, e) && Grows(d, e)
  {
    hide Unswayed, Records, Replay, Account, AllAllowed, Truthful, Approvable, Distinct, Known, UniqueKeys, Revisions,
      AllValid, WithinStep, NoAdaptive, SumCost, CountAdaptive, ProposalOf, ReviewOf, LatestBudget, LatestBoundary,
      Codes, TestsIn, DispositionOf;
    UnswayedOf(env, d);
    StoppedAccount(env, d.(state := SealedState(d.state)));
  }

  lemma CatalogKeeps(env: Env, d: Disk, shown: CatalogReveal)
    requires Inv(env, d) && d.state.lock.ResultSealed? && d.catalog.None? && Matches(d, shown)
    ensures var e := d.(catalog := Some(shown)); Inv(env, e) && Grows(d, e)
  {
    hide Ledger, Roles, Proposal, Spent, Working, Budgets, Executions, ValidSnapshot, LatestBudget, LatestBoundary;
    AccountFiles(env, d, d.(catalog := Some(shown)));
  }

  lemma RevealKeeps(env: Env, d: Disk)
    requires Inv(env, d) && d.state.lock.ResultSealed? && d.catalog.Some?
    ensures var e := d.(state := RevealedState(d.state)); Inv(env, e) && Grows(d, e)
  {
    hide Unswayed, Records, Replay, Account, AllAllowed, Truthful, Approvable, Distinct, Known, UniqueKeys, Revisions,
      AllValid, WithinStep, NoAdaptive, SumCost, CountAdaptive, ProposalOf, ReviewOf, LatestBudget, LatestBoundary,
      Codes, TestsIn, DispositionOf;
    UnswayedOf(env, d);
    StoppedAccount(env, d.(state := RevealedState(d.state)));
  }

  /** What a locked run is: all mandatory tests, a verdict, and its exact bytes. */
  lemma SealedMeans(env: Env, d: Disk)
    requires Inv(env, d) && Sealed(d.state)
    ensures Missing(d.state) == {} && d.state.disposition.Some? && d.state.terminalReason.Some?
    ensures d.result.Some? && d.result.value == Canonical(LockedContent(d.state, d.result.value.result.lockedAt))
      && d.digest == Some(Sha(d.result.value))
    ensures ReceiptOf(d) == Some(Receipt(Sha(d.result.value), d.result.value.result.lockedAt))
    ensures d.catalog.Some? ==> Matches(d, d.catalog.value)
    ensures d.state.lock.CatalogRevealed? ==> d.catalog.Some?
    ensures if d.state.lock.ResultSealed? then d.state.status.ResultLocked? else d.state.status.Revealed?
  {
    hide Ledger, Roles, Proposal, Spent, Working, Budgets, Executions, ValidSnapshot, LatestBudget, LatestBoundary,
      DispositionOf, Codes;
  }

  lemma ReadyMeans(env: Env, d: Disk)
    requires Inv(env, d) && d.state.status.ReadyToLock?
    ensures !Sealed(d.state) && d.state.disposition.Some? && d.state.terminalReason.Some?
      && ValidSnapshot(SealedState(d.state))
    ensures d.state.disposition == DispositionOf(Codes(d.ledger), d.state.candidates != [])
  {
    hide Ledger, Roles, Proposal, Spent, Working, Budgets, Executions, LatestBudget, LatestBoundary, DispositionOf,
      Codes;
  }

  /** `q` is `d` with its verdict sealed at this time, and one event of it. */
  predicate LockedNow(d: Disk, q: Disk, receipt: Option<Receipt>, at: nat) {
    && receipt.Some? && receipt.value.lockedAt == at && q.state.status.ResultLocked?
    && q.result.Some? && q.digest == Some(receipt.value.digest) && receipt.value.digest == Sha(q.result.value)
    && q.result.value.result.evidenceRefs == d.state.evidenceRefs
    && Some(q.result.value.result.disposition) == d.state.disposition
    && Some(q.result.value.result.terminalReason) == d.state.terminalReason
    && q.trace == d.trace + [Event(|d.trace| + 1, d.state.step, ResultLockedEvent)]
    && q.ledger == d.ledger && q.decisions == d.decisions
  }

  /** `lock` succeeds exactly on a ready or an already locked run; a repeated
      lock writes nothing and returns the receipt of the files. */
  lemma LockGood(env: Env, r: Run, at: nat)
    requires Good(env, r) && r.exit.Running?
    ensures var l := Lock(r, at);
      && Good(env, l.r) && l.r.exit.Running?
      && (l.receipt.Some? <==> Sealed(r.now.state) || r.now.state.status.ReadyToLock?)
      && (l.receipt.Some? ==> Sealed(l.r.now.state) && l.receipt == ReceiptOf(l.r.now))
      && (Sealed(r.now.state) || l.receipt.None? ==> l.r == r)
      && (r.now.state.status.ReadyToLock? ==> LockedNow(r.now, l.r.now, l.receipt, at))
  {
    hide Good, Inv, Grows, LatestBudget, LatestBoundary, Codes, ValidSnapshot;
    NowGood(env, r);
    var s := r.now.state;
    if Sealed(s) {
      SealedMeans(env, r.now);
    } else if s.status.ReadyToLock? {
      ReadyMeans(env, r.now);
      var bytes := Canonical(LockedContent(s, at));
      var d1 := r.now.(result := Some(bytes));
      AuthorityFilesKeep(env, r.now, Some(bytes), r.now.digest);
      PushGood(env, r, d1);
      var r1 := Push(r, d1);
      var d2 := d1.(digest := Some(Sha(bytes)));
      AuthorityFilesKeep(env, d1, Some(bytes), Some(Sha(bytes)));
      PushGood(env, r1, d2);
      var r2 := Push(r1, d2);
      SealKeeps(env, d2, at);
      PushGood(env, r2, d2.(state := SealedState(s)));
      EmitBeside(env, Push(r2, d2.(state := SealedState(s))), ResultLockedEvent);
    }
  }

  /** What a locked run shows: the stored reveal, or else the provider's answer for
      its locked content and digest, exactly if it is of this run and names that
      digest; what is shown is stored, and the run is revealed. */
  predicate RevealedAs(d: Disk, q: Disk, shown: Option<CatalogReveal>, provider: Provider) {
    && d.result.Some?
    && (if d.catalog.Some? then shown == d.catalog
        else
          var answer := provider(d.result.value.result, Sha(d.result.value));
          shown == if !answer.foreign && answer.lockedDigest == Sha(d.result.value) then Some(answer) else None)
    && (if shown.Some? then
          q.catalog == shown && q.state.status.Revealed? && q.result == d.result && q.digest == d.digest
            && q.ledger == d.ledger
            && (!d.state.status.Revealed? ==>
                  q.trace == d.trace + [Event(|d.trace| + 1, d.state.step, CatalogRevealedEvent)])
        else q == d)
  }

  /** `reveal` before the lock changes nothing and returns nothing; afterwards
      every reveal it returns names the digest of the exact locked bytes. */
  lemma RevealGood(env: Env, r: Run, provider: Provider)
    requires Good(env, r) && r.exit.Running?
    ensures var v := Reveal(r, provider);
      && Good(env, v.r) && v.r.exit.Running?
      && (!Sealed(r.now.state) ==> v == Revealing(r, None))
      && (v.shown.Some? ==>
          v.r.now.state.lock.CatalogRevealed? && v.r.now.catalog == v.shown && Matches(r.now, v.shown.value))
      && (v.shown.None? ==> v.r == r)
      && (r.now.catalog.Some? ==> v.shown == r.now.catalog)
      && (Sealed(r.now.state) ==> RevealedAs(r.now, v.r.now, v.shown, provider))
  {
    hide Good, Inv, Grows, LatestBudget, LatestBoundary, Codes, ValidSnapshot;
    NowGood(env, r);
    var d := r.now;
    if !Sealed(d.state) { UnsealedHasNone(env, d); } else { SealedMeans(env, d); }
    if d.state.lock.ResultSealed? {
      if d.catalog.Some? {
        RevealWrites(env, r);
      } else if Matches(d, provider(d.result.value.result, d.digest.value)) {
        var d1 := d.(catalog := Some(provider(d.result.value.result, d.digest.value)));
        CatalogKeeps(env, d, d1.catalog.value);
        PushGood(env, r, d1);
        RevealWrites(env, Push(r, d1));
      }
    }
  }

  lemma UnsealedHasNone(env: Env, d: Disk)
    requires Inv(env, d) && !Sealed(d.state)
    ensures d.catalog.None?
  {
    hide Ledger, Roles, Proposal, Spent, Working, Budgets, Executions, ValidSnapshot, LatestBudget, LatestBoundary,
      DispositionOf, Codes;
  }

  lemma RevealWrites(env: Env, r: Run)
    requires Good(env, r) && r.exit.Running? && r.now.state.lock.ResultSealed? && r.now.catalog.Some?
    ensures var q := Emit(Save(r, RevealedState(r.now.state)), CatalogRevealedEvent);
      && Good(env, q) && q.exit.Running? && q.now.state.lock.CatalogRevealed? && q.now.catalog == r.now.catalog
      && q.now == WithEvent(r.now.(state := RevealedState(r.now.state)), CatalogRevealedEvent)
  {
    hide Good, Inv, Grows, LatestBudget, LatestBoundary, ValidSnapshot;
    NowGood(env, r);
    SealedMeans(env, r.now);
    RevealKeeps(env, r.now);
    SaveGood(env, r, RevealedState(r.now.state));
    EmitBeside(env, Save(r, RevealedState(r.now.state)), CatalogRevealedEvent);
  }

  // ---- the services as they run ----

  /** `ResultLockService` and `CatalogGate` on the files of one run. */
  class AuthorityService {
    const controller: Controller

    constructor (controller: Controller)
      ensures this.controller == controller
    {
      this.controller := controller;
    }

    method LockResult(at: nat) returns (receipt: Option<Receipt>)
      requires controller.Valid()
      modifies controller
      ensures controller.Valid() && Locking(controller.run, receipt) == Lock(Start(old(controller.store)), at)
      ensures Inv(controller.env, old(controller.store)) ==>
        && Inv(controller.env, controller.store) && controller.exit.Running?
        && (receipt.Some? <==> Sealed(old(controller.state)) || old(controller.state.status).ReadyToLock?)
        && (receipt.Some? ==> Sealed(controller.state) && receipt == ReceiptOf(controller.store))
        && (Sealed(old(controller.state)) ==> controller.store == old(controller.store))
        && (old(controller.state.status).ReadyToLock? ==>
              LockedNow(old(controller.store), controller.store, receipt, at))
    {
      hide ValidSnapshot, Emit, Good, Inv, Extends, First;
      if Inv(controller.env, controller.store) {
        StartGood(controller.env, controller.store);
        LockGood(controller.env, Start(controller.store), at);
        NowGood(controller.env, Lock(Start(controller.store), at).r);
      }
      controller.Restart();
      var s := controller.state;
      if Sealed(s) { return ReceiptOf(controller.store); }
      if !s.status.ReadyToLock? || s.disposition.None? || s.terminalReason.None? { return None; }
      var bytes := Canonical(LockedContent(s, at));
      controller.Write(controller.store.(result := Some(bytes)));
      controller.Write(controller.store.(digest := Some(Sha(bytes))));
      if ValidSnapshot(SealedState(s)) { controller.Write(controller.store.(state := SealedState(s))); }
      else { controller.Throw(Faulted(InvalidSnapshot)); }
      controller.EmitEvent(ResultLockedEvent);
      receipt := Some(Receipt(Sha(bytes), at));
    }

    method RevealCatalog(provider: Provider) returns (shown: Option<CatalogReveal>)
      requires controller.Valid()
      modifies controller
      ensures controller.Valid() && Revealing(controller.run, shown) == Reveal(Start(old(controller.store)), provider)
      ensures Inv(controller.env, old(controller.store)) ==>
        && Inv(controller.env, controller.store) && controller.exit.Running?
        && (!Sealed(old(controller.state)) ==> shown.None? && controller.store == old(controller.store))
        && (shown.Some? ==> controller.state.lock.CatalogRevealed? && controller.store.catalog == shown)
        && (shown.Some? ==> Matches(old(controller.store), shown.value))
        && (Sealed(old(controller.state)) ==>
              RevealedAs(old(controller.store), controller.store, shown, provider))
    {
      hide Save, Emit, Good, Inv, Extends, First;
      if Inv(controller.env, controller.store) {
        StartGood(controller.env, controller.store);
        RevealGood(controller.env, Start(controller.store), provider);
        NowGood(controller.env, Reveal(Start(controller.store), provider).r);
      }
      controller.Restart();
      var d := controller.store;
      if d.state.lock.CatalogRevealed? { return ReadReveal(d); }
      if !Sealed(d.state) { return None; }
      if d.catalog.Some? {
        shown := ReadReveal(d);
        if shown.None? { return; }
      } else {
        if d.result.None? || d.digest != Some(Sha(d.result.value)) { return None; }
        var answer := provider(d.result.value.result, d.digest.value);
        if !Matches(d, answer) { return None; }
        shown := Some(answer);
        controller.Write(d.(catalog := shown));
      }
      controller.Replace(RevealedState(controller.state));
      controller.EmitEvent(CatalogRevealedEvent);
    }
  }
}
