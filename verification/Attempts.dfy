/** One inference call on its own: which attempts it makes of the client's
    replies, when it repairs, retries and falls back, and how it ends. */
module Attempts {
  import opened Domain
  import opened Inference

  // ---- the replies ----

  predicate Spoken<D>(r: Reply<D>) { r.error.None? && r.decision.Some? }

  /** The answer passes its validation in the context that it was asked for. */
  predicate Validates<D>(m: Mode<D>, context: nat, r: Reply<D>) {
    Spoken(r) && context == m.context && m.judge(r.decision.value).Valid?
  }

  /** The answer asks for more than the budget holds. */
  predicate Unaffordable<D>(m: Mode<D>, context: nat, r: Reply<D>) {
    Spoken(r) && context == m.context && m.judge(r.decision.value) == Refused(OutOfBudget)
  }

  /** The provider failed, or did not answer in time. */
  predicate Transient<D>(r: Reply<D>) { r.error == Some(Timeout) || r.error == Some(Provider) }

  /** Truncated, missing or invalid: an answer that may be repaired. */
  predicate Unusable<D>(m: Mode<D>, context: nat, r: Reply<D>) {
    !Transient(r) && !Validates(m, context, r) && !Unaffordable(m, context, r)
  }

  /** What a reply that is not good enough is recorded as. */
  function Cause<D>(m: Mode<D>, context: nat, r: Reply<D>): FailureKind {
    if r.error == Some(Timeout) then ModelTimeout
    else if r.error == Some(Provider) then ModelProviderFailure
    else if r.error == Some(Truncated) then FailureKind.OutputTruncated
    else if Spoken(r) && context == m.context && m.judge(r.decision.value).Refused? then
      m.judge(r.decision.value).kind
    else InvalidModelOutput
  }

  /** The failure of the first unusable reply among the first `n`. */
  function FirstFailure<D>(m: Mode<D>, context: nat, client: nat -> Reply<D>, n: nat): Option<FailureKind> {
    if n == 0 then None
    else if FirstFailure(m, context, client, n - 1).Some? then FirstFailure(m, context, client, n - 1)
    else if Unusable(m, context, client(n - 1)) then Some(Cause(m, context, client(n - 1)))
    else None
  }

  /** How many of the first `n` replies were the provider's failures. */
  function Transients<D>(client: nat -> Reply<D>, n: nat): nat {
    if n == 0 then 0 else Transients(client, n - 1) + (if Transient(client(n - 1)) then 1 else 0)
  }

  // ---- what the call may do ----

  /** A retry is left after the `i`-th reply: the call's own, or a shared one. */
  predicate RetryLeft<D>(m: Mode<D>, s: Snapshot, client: nat -> Reply<D>, i: nat) {
    (if m.advisory then 0 else s.retries) + Transients(client, i) < s.maxRetries
  }

  /** Another attempt is due: the one repair, or a retry. */
  predicate Due<D>(m: Mode<D>, s: Snapshot, client: nat -> Reply<D>, i: nat) {
    || (Unusable(m, s.context, client(i)) && FirstFailure(m, s.context, client, i).None?)
    || (Transient(client(i)) && RetryLeft(m, s, client, i))
  }

  /** The role's own limit and the shared budget leave room for attempt `n`. */
  predicate Room<D>(m: Mode<D>, s: Snapshot, n: nat) {
    (m.limit.Some? ==> n < m.limit.value) && s.calls + n < s.maxCalls
  }

  predicate Opens<D>(m: Mode<D>, s: Snapshot) { (m.optional ==> s.calls + 2 < s.maxCalls) && Room(m, s, 0) }

  /** The call makes exactly `n` attempts: each next one if it is due and has room. */
  predicate Makes<D>(m: Mode<D>, s: Snapshot, client: nat -> Reply<D>, n: nat) {
    && (n > 0 <==> Opens(m, s))
    && (forall i: nat :: i + 1 < n ==> Goes(m, s, client, i))
    && (n > 0 ==> !Goes(m, s, client, n - 1))
  }

  predicate Goes<D>(m: Mode<D>, s: Snapshot, client: nat -> Reply<D>, i: nat) {
    Due(m, s, client, i) && Room(m, s, i + 1)
  }

  /** The repair failed too, or the retries are used up: the fallback decides. */
  predicate Undone<D>(m: Mode<D>, s: Snapshot, client: nat -> Reply<D>, n: nat) {
    n > 0 && !Due(m, s, client, n - 1)
      && (Unusable(m, s.context, client(n - 1)) || (Transient(client(n - 1)) && !m.advisory))
  }

  /** The fallback is asked, in the place of one more call. */
  predicate FallsBack<D>(m: Mode<D>, s: Snapshot, client: nat -> Reply<D>, n: nat) {
    Undone(m, s, client, n) && m.fallback && s.calls + n < s.maxCalls
  }

  /** Why a call without an answer failed: the first unusable reply, unless the
      provider had the last word. */
  function Blame<D>(m: Mode<D>, context: nat, client: nat -> Reply<D>, n: nat): FailureKind
    requires n > 0
  {
    if Transient(client(n - 1)) || FirstFailure(m, context, client, n).None? then Cause(m, context, client(n - 1))
    else FirstFailure(m, context, client, n).value
  }

  /** The refusal of an attempt for which there is no room. */
  function NoRoom<D>(m: Mode<D>, n: nat): Local<D> {
    if m.limit.Some? && m.limit.value <= n then Aborted(RoleCallLimit, Failed, n)
    else Aborted(OutOfBudget, BudgetExhausted, n)
  }

  /** How the call ends after `n` attempts. */
  ghost predicate EndsAs<D>(m: Mode<D>, s: Snapshot, client: nat -> Reply<D>, n: nat, l: Local<D>) {
    if n == 0 then
      l == if m.optional && s.maxCalls <= s.calls + 2 then Aborted(RoleCallLimit, Failed, 0) else NoRoom(m, 0)
    else
      var r := client(n - 1);
      && (Validates(m, s.context, r) ==> l == Answered(r.decision.value, n))
      && (Unaffordable(m, s.context, r) ==> l == Aborted(OutOfBudget, BudgetExhausted, n))
      && (Due(m, s, client, n - 1) ==> l == NoRoom(m, n))
      && (Transient(r) && m.advisory && !Due(m, s, client, n - 1) ==>
            l == Aborted(Cause(m, s.context, r), Failed, n))
      && (Undone(m, s, client, n) ==> FellBackAs(m, s, client, n, l))
  }

  ghost predicate FellBackAs<D>(m: Mode<D>, s: Snapshot, client: nat -> Reply<D>, n: nat, l: Local<D>)
    requires n > 0
  {
    if m.fallback && s.maxCalls <= s.calls + n then l == Aborted(OutOfBudget, BudgetExhausted, n)
    else if m.fallback && Validates(m, s.context, client(n)) then l == Answered(client(n).decision.value, n)
    else l == Aborted(Blame(m, s.context, client, n), Failed, n)
  }

  // ---- what it leaves ----

  /** The status under which a reply is recorded. */
  function Recorded<D>(m: Mode<D>, context: nat, r: Reply<D>): CallStatus {
    if Spoken(r) && !Validates(m, context, r) then Invalid else r.status
  }

  /** The records of the first `n` attempts: repairs follow the first unusable reply. */
  function Log<D>(m: Mode<D>, context: nat, client: nat -> Reply<D>, n: nat): seq<Attempt> {
    if n == 0 then []
    else Log(m, context, client, n - 1)
         + [Attempt(m.key, if FirstFailure(m, context, client, n - 1).Some? then Repair else Primary,
                    Recorded(m, context, client(n - 1)), false)]
  }

  /** The failures for which a shared retry was taken among the first `n` replies. */
  function RetriedFor<D>(m: Mode<D>, s: Snapshot, client: nat -> Reply<D>, n: nat): seq<FailureKind> {
    if n == 0 || m.advisory then []
    else RetriedFor(m, s, client, n - 1)
         + (if Transient(client(n - 1)) && RetryLeft(m, s, client, n - 1)
            then [Cause(m, s.context, client(n - 1))] else [])
  }

  /** The shared part after `n` attempts that were charged, recorded and retried. */
  predicate Left<D>(m: Mode<D>, sh: Shared, client: nat -> Reply<D>, n: nat, fell: bool, q: Shared) {
    var s := sh.store;
    && q.attempts == sh.attempts + Log(m, s.context, client, n)
         + (if fell then [Attempt(m.key, Primary, Recorded(m, s.context, client(n)), true)] else [])
    && Counted(m, sh, client, n, n + (if fell then 1 else 0), q)
  }

  /** The counters after `n` replies and `calls` calls. */
  predicate Counted<D>(m: Mode<D>, sh: Shared, client: nat -> Reply<D>, n: nat, calls: nat, q: Shared) {
    var s, t := sh.store, q.store;
    && t.calls == s.calls + calls && q.started == sh.started + calls
    && t.retries == s.retries + |RetriedFor(m, s, client, n)|
    && t.failures == s.failures + RetriedFor(m, s, client, n)
    && t.maxCalls == s.maxCalls && t.maxRetries == s.maxRetries && t.context == s.context
  }

  /** All that a call does with the client's replies: the attempts that it makes,
      how it ends, and what it leaves in the store. */
  ghost predicate InferMeets<D>(m: Mode<D>, sh: Shared, client: nat -> Reply<D>, q: Config<D>) {
    && !Waiting(q.l) && !q.l.Unstarted?
    && var n := q.l.attempts;
    && Makes(m, sh.store, client, n) && EndsAs(m, sh.store, client, n, q.l)
    && Left(m, sh, client, n, FallsBack(m, sh.store, client, n), q.sh)
  }

  // ---- the loop makes them ----

  /** Attempt `n` is in flight. */
  predicate Asking<D>(m: Mode<D>, sh: Shared, client: nat -> Reply<D>, c: Config<D>, n: nat) {
    var s := sh.store;
    && c.l.Calling? && c.l.attempts == n && Opens(m, s)
    && (forall i: nat :: i < n ==> Goes(m, s, client, i))
    && c.l.failure == FirstFailure(m, s.context, client, n)
    && c.l.kind == (if FirstFailure(m, s.context, client, n).Some? then Repair else Primary)
    && (m.advisory ==> c.l.retried == Transients(client, n))
    && c.sh.attempts == sh.attempts + Log(m, s.context, client, n) && Counted(m, sh, client, n, n + 1, c.sh)
  }

  /** The fallback is in flight, after `n` attempts. */
  predicate FallingBackOn<D>(m: Mode<D>, sh: Shared, client: nat -> Reply<D>, c: Config<D>, n: nat) {
    var s := sh.store;
    && c.l.FallingBack? && c.l.attempts == n && n > 0 && Makes(m, s, client, n) && FallsBack(m, s, client, n)
    && c.l.reason == Blame(m, s.context, client, n)
    && c.sh.attempts == sh.attempts + Log(m, s.context, client, n) && Counted(m, sh, client, n, n + 1, c.sh)
  }

  lemma BeginAsks<D>(m: Mode<D>, sh: Shared, client: nat -> Reply<D>)
    ensures var c := Begin(m, sh);
      if Opens(m, sh.store) then Asking(m, sh, client, c, 0) else InferMeets(m, sh, client, c)
  {
  }

  lemma RecordAdds(sh: Shared, a: Attempt)
    ensures var t := Record(sh, a);
      && t.attempts == sh.attempts + [a] && t.started == sh.started
      && t.store == sh.store.(summary := t.store.summary)
  {
  }

  lemma {:induction false} RetriedCount<D>(m: Mode<D>, s: Snapshot, client: nat -> Reply<D>, n: nat)
    requires forall i: nat :: i < n ==> Goes(m, s, client, i)
    ensures !m.advisory ==> |RetriedFor(m, s, client, n)| == Transients(client, n)
  {
    if n > 0 {
      RetriedCount(m, s, client, n - 1);
      assert Goes(m, s, client, n - 1);
    }
  }

  lemma MakesNow<D>(m: Mode<D>, s: Snapshot, client: nat -> Reply<D>, n: nat)
    requires Opens(m, s) && (forall i: nat :: i < n ==> Goes(m, s, client, i)) && !Goes(m, s, client, n)
    ensures Makes(m, s, client, n + 1)
  {
  }

  /** What the head of the loop makes of attempt `n + 1`, if it is due. */
  lemma NextAsks<D>(m: Mode<D>, sh: Shared, client: nat -> Reply<D>, n: nat, t: Shared, kind: AttemptKind,
      failure: Option<FailureKind>, retried: nat)
    requires Opens(m, sh.store) && (forall i: nat :: i < n ==> Goes(m, sh.store, client, i))
    requires Due(m, sh.store, client, n)
    requires t.attempts == sh.attempts + Log(m, sh.store.context, client, n + 1)
      && Counted(m, sh, client, n + 1, n + 1, t)
    requires failure == FirstFailure(m, sh.store.context, client, n + 1)
      && kind == (if failure.Some? then Repair else Primary)
      && (m.advisory ==> retried == Transients(client, n + 1))
    ensures var c := NextAttempt(m, t, kind, failure, n + 1, retried);
      Asking(m, sh, client, c, n + 1) || InferMeets(m, sh, client, c)
  {
    hide Log, Due, FirstFailure, Transients, RetriedFor, Validates, Unaffordable;
    var c := NextAttempt(m, t, kind, failure, n + 1, retried);
    if !Room(m, sh.store, n + 1) {
      MakesNow(m, sh.store, client, n);
      DueEnds(m, sh.store, client, n);
    }
  }

  lemma DueEnds<D>(m: Mode<D>, s: Snapshot, client: nat -> Reply<D>, n: nat)
    requires Due(m, s, client, n)
    ensures !Validates(m, s.context, client(n)) && !Unaffordable(m, s.context, client(n))
      && !Undone(m, s, client, n + 1)
  {
  }

  /** What giving up leads to, when the repair failed or no retry is left. */
  lemma FallbackAsks<D>(m: Mode<D>, sh: Shared, client: nat -> Reply<D>, n: nat, t: Shared, failure: FailureKind)
    requires Opens(m, sh.store) && (forall i: nat :: i < n ==> Goes(m, sh.store, client, i))
    requires Undone(m, sh.store, client, n + 1)
    requires t.attempts == sh.attempts + Log(m, sh.store.context, client, n + 1)
      && Counted(m, sh, client, n + 1, n + 1, t)
    requires failure == Blame(m, sh.store.context, client, n + 1)
    ensures var c := Fallback(m, t, failure, n + 1);
      FallingBackOn(m, sh, client, c, n + 1) || InferMeets(m, sh, client, c)
  {
    hide Log, FirstFailure, Transients, RetriedFor, Blame;
    MakesNow(m, sh.store, client, n);
  }

  lemma FallbackEnds<D>(m: Mode<D>, sh: Shared, client: nat -> Reply<D>, c: Config<D>, n: nat)
    requires FallingBackOn(m, sh, client, c, n)
    ensures InferMeets(m, sh, client, Resume(m, c.sh, c.l, client(n)))
  {
    hide Log, FirstFailure, Transients, RetriedFor, Blame, Record, Makes, Due;
    var r := client(n);
    var a := Attempt(m.key, Primary, Recorded(m, sh.store.context, r), true);
    RecordAdds(c.sh, a);
  }

  lemma AskingMeans<D>(m: Mode<D>, sh: Shared, client: nat -> Reply<D>, c: Config<D>, n: nat)
    requires Asking(m, sh, client, c, n)
    ensures c.l.Calling? && c.l.attempts == n && Opens(m, sh.store)
      && (forall i: nat :: i < n ==> Goes(m, sh.store, client, i))
    ensures c.l.failure == FirstFailure(m, sh.store.context, client, n)
      && c.l.kind == (if c.l.failure.Some? then Repair else Primary)
      && (m.advisory ==> c.l.retried == Transients(client, n))
    ensures c.sh.attempts == sh.attempts + Log(m, sh.store.context, client, n)
      && Counted(m, sh, client, n, n + 1, c.sh)
  {
    hide Goes, FirstFailure, Transients, Log, Counted, Opens;
  }

  /** A conclusive answer. */
  lemma FinalEnds<D>(m: Mode<D>, sh: Shared, client: nat -> Reply<D>, q: Config<D>, n: nat)
    requires Opens(m, sh.store) && (forall i: nat :: i < n ==> Goes(m, sh.store, client, i))
    requires !Transient(client(n)) && !Unusable(m, sh.store.context, client(n))
    requires q.l == if Validates(m, sh.store.context, client(n)) then Answered(client(n).decision.value, n + 1)
      else Aborted(OutOfBudget, BudgetExhausted, n + 1)
    requires q.sh.attempts == sh.attempts + Log(m, sh.store.context, client, n + 1)
      && Counted(m, sh, client, n + 1, n + 1, q.sh)
    ensures InferMeets(m, sh, client, q)
  {
    hide Log, FirstFailure, Transients, RetriedFor, Blame;
    MakesNow(m, sh.store, client, n);
  }

  /** The provider failed: another attempt of the same kind, or the end of the retries. */
  lemma TransientAsks<D>(m: Mode<D>, sh: Shared, client: nat -> Reply<D>, c: Config<D>, n: nat, t: Shared)
    requires Asking(m, sh, client, c, n) && Transient(client(n))
    requires t == Record(c.sh, Attempt(m.key, c.l.kind, client(n).status, false))
    ensures var q := RetryOrFallback(m, t, c.l, Cause(m, sh.store.context, client(n)));
      Asking(m, sh, client, q, n + 1) || FallingBackOn(m, sh, client, q, n + 1) || InferMeets(m, sh, client, q)
  {
    hide Record, NextAttempt, Fallback, Makes, Asking, FallingBackOn, InferMeets, Log;
    var s, r := sh.store, client(n);
    AskingMeans(m, sh, client, c, n);
    LogGrows(m, s.context, client, n);
    RecordAdds(c.sh, Attempt(m.key, c.l.kind, r.status, false));
    RetriedCount(m, s, client, n);
    var kind := Cause(m, s.context, r);
    if RetryLeft(m, s, client, n) {
      if m.advisory {
        NextAsks(m, sh, client, n, t, c.l.kind, c.l.failure, c.l.retried + 1);
      } else {
        NextAsks(m, sh, client, n, Retried(t, t.store, kind), c.l.kind, c.l.failure, c.l.retried);
      }
    } else if m.advisory {
      SpentEnds(m, sh, client, RetryOrFallback(m, t, c.l, kind), n);
    } else {
      FallbackAsks(m, sh, client, n, t, kind);
    }
  }

  /** An advisory call without a retry of its own left. */
  lemma SpentEnds<D>(m: Mode<D>, sh: Shared, client: nat -> Reply<D>, q: Config<D>, n: nat)
    requires Opens(m, sh.store) && (forall i: nat :: i < n ==> Goes(m, sh.store, client, i))
    requires Transient(client(n)) && m.advisory && !RetryLeft(m, sh.store, client, n)
    requires q.l == Aborted(Cause(m, sh.store.context, client(n)), Failed, n + 1)
    requires q.sh.attempts == sh.attempts + Log(m, sh.store.context, client, n + 1)
      && Counted(m, sh, client, n + 1, n + 1, q.sh)
    ensures InferMeets(m, sh, client, q)
  {
    hide Log, FirstFailure, Transients, RetriedFor, Blame, RetryLeft;
    MakesNow(m, sh.store, client, n);
  }

  lemma LogGrows<D>(m: Mode<D>, context: nat, client: nat -> Reply<D>, n: nat)
    ensures Log(m, context, client, n + 1) == Log(m, context, client, n)
      + [Attempt(m.key, if FirstFailure(m, context, client, n).Some? then Repair else Primary,
                 Recorded(m, context, client(n)), false)]
  {
  }

  /** The answer is unusable: the one repair, or the end of it. */
  lemma UnusableAsks<D>(m: Mode<D>, sh: Shared, client: nat -> Reply<D>, c: Config<D>, n: nat, t: Shared)
    requires Asking(m, sh, client, c, n) && Unusable(m, sh.store.context, client(n))
    requires t == Record(c.sh, Attempt(m.key, c.l.kind, Recorded(m, sh.store.context, client(n)), false))
    ensures var q := RepairOrFallback(m, t, c.l, Cause(m, sh.store.context, client(n)));
      Asking(m, sh, client, q, n + 1) || FallingBackOn(m, sh, client, q, n + 1) || InferMeets(m, sh, client, q)
  {
    hide Record, NextAttempt, Fallback, Makes, Asking, FallingBackOn, InferMeets, Log;
    var s, r := sh.store, client(n);
    AskingMeans(m, sh, client, c, n);
    LogGrows(m, s.context, client, n);
    RecordAdds(c.sh, Attempt(m.key, c.l.kind, Recorded(m, s.context, r), false));
    var kind := Cause(m, s.context, r);
    if c.l.failure.None? {
      NextAsks(m, sh, client, n, t, Repair, Some(kind), c.l.retried);
    } else {
      FallbackAsks(m, sh, client, n, t, c.l.failure.value);
    }
  }

  /** One reply of the primary client: the next attempt, the fallback, or the end. */
  lemma ReplyAsks<D>(m: Mode<D>, sh: Shared, client: nat -> Reply<D>, c: Config<D>, n: nat)
    requires Asking(m, sh, client, c, n)
    ensures var q := Resume(m, c.sh, c.l, client(n));
      Asking(m, sh, client, q, n + 1) || FallingBackOn(m, sh, client, q, n + 1) || InferMeets(m, sh, client, q)
  {
    hide Record, NextAttempt, Fallback, RetryLeft, Makes, EndsAs, Left, Asking, FallingBackOn, InferMeets;
    var s, r := sh.store, client(n);
    AskingMeans(m, sh, client, c, n);
    LogGrows(m, s.context, client, n);
    var a := Attempt(m.key, c.l.kind, Recorded(m, s.context, r), false);
    RecordAdds(c.sh, a);
    var t := Record(c.sh, a);
    if Transient(r) {
      TransientAsks(m, sh, client, c, n, t);
    } else if Unusable(m, s.context, r) {
      UnusableAsks(m, sh, client, c, n, t);
    } else {
      FinalEnds(m, sh, client, Resume(m, c.sh, c.l, r), n);
    }
  }

  lemma {:induction false} FinishMeets<D>(m: Mode<D>, sh: Shared, client: nat -> Reply<D>, c: Config<D>, n: nat)
    requires Asking(m, sh, client, c, n)
    ensures InferMeets(m, sh, client, Finish(m, c, client, n))
    decreases Remaining(m, c.sh, c.l)
  {
    hide Resume, Asking, FallingBackOn, InferMeets, Remaining;
    AskingMeans(m, sh, client, c, n);
    ReplyAsks(m, sh, client, c, n);
    var q := Resume(m, c.sh, c.l, client(n));
    ResumeShrinks(m, c.sh, c.l, client(n));
    assert Finish(m, c, client, n) == Finish(m, q, client, n + 1);
    if Asking(m, sh, client, q, n + 1) {
      FinishMeets(m, sh, client, q, n + 1);
    } else if FallingBackOn(m, sh, client, q, n + 1) {
      FallbackEnds(m, sh, client, q, n + 1);
      FallsAlone(m, sh, client, q, n + 1);
    } else {
      IsOver(m, sh, client, q);
      FinishEnds(m, q, client, n + 1);
    }
  }

  lemma IsOver<D>(m: Mode<D>, sh: Shared, client: nat -> Reply<D>, q: Config<D>)
    requires InferMeets(m, sh, client, q)
    ensures !Waiting(q.l)
  {
  }

  lemma FallsAlone<D>(m: Mode<D>, sh: Shared, client: nat -> Reply<D>, c: Config<D>, n: nat)
    requires FallingBackOn(m, sh, client, c, n)
    ensures Finish(m, c, client, n) == Resume(m, c.sh, c.l, client(n))
  {
    hide Record, Judge;
    var q := Resume(m, c.sh, c.l, client(n));
    assert Finish(m, c, client, n) == Finish(m, q, client, n + 1);
    FinishEnds(m, q, client, n + 1);
  }

  /** Whatever the clients answer, one call makes exactly the attempts that are
      due and have room: one repair after the first unusable reply, a retry
      after each failure of the provider while one is left. It answers with the
      reply that validates, asks the fallback exactly when the repair failed or
      the retries are used up, and otherwise aborts for what it failed of. */
  lemma InferIs<D>(m: Mode<D>, sh: Shared, client: nat -> Reply<D>)
    ensures InferMeets(m, sh, client, Finish(m, Begin(m, sh), client, 0))
      && !Waiting(Finish(m, Begin(m, sh), client, 0).l)
  {
    hide Begin, Asking, InferMeets, Finish;
    BeginAsks(m, sh, client);
    var c := Begin(m, sh);
    if Opens(m, sh.store) {
      FinishMeets(m, sh, client, c, 0);
      IsOver(m, sh, client, Finish(m, c, client, 0));
    } else {
      IsOver(m, sh, client, c);
      FinishEnds(m, c, client, 0);
    }
  }

  /** `_infer`: the attempt loop over one client and its fallback. `state` is the
      loop's own copy, read again wherever the program reads it again. */
  class Session {
    var shared: Shared

    constructor (sh: Shared)
      ensures shared == sh
    {
      shared := sh;
    }

    /** Ask the primary client until it answers, one of its failures is final, or
        the fallback has to decide. */
    method Infer<D>(m: Mode<D>, client: nat -> Reply<D>) returns (outcome: Local<D>)
      modifies this
      ensures Config(shared, outcome) == Finish(m, Begin(m, old(shared)), client, 0)
      ensures InferMeets(m, old(shared), client, Config(shared, outcome)) && !Waiting(outcome)
    {
      hide Finish, NextAttempt, Derive, Judge, Fallback, InferMeets;
      InferIs(m, shared, client);
      var state := shared.store;
      if m.optional && state.maxCalls <= state.calls + 2 {
        outcome := Aborted(RoleCallLimit, Failed, 0);
        FinishEnds(m, Config(shared, outcome), client, 0);
        return;
      }
      var kind, failure: Option<FailureKind>, count, retried := Primary, None, 0, 0;
      while true
        invariant Finish(m, NextAttempt(m, shared, kind, failure, count, retried), client, count)
                  == Finish(m, Begin(m, old(shared)), client, 0)
        decreases (if kind.Primary? then 1 else 0) + RetriesLeft(m, shared.store, retried)
      {
        FinishTurn(m, shared, kind, failure, count, retried, client);
        if m.limit.Some? && m.limit.value <= count { return Aborted(RoleCallLimit, Failed, count); }
        var own := shared.store;
        if own.maxCalls <= own.calls { return Aborted(OutOfBudget, BudgetExhausted, count); }
        shared := Charge(shared, own);
        var reply := client(count);
        count := count + 1;
        state := shared.store;
        var refused: FailureKind;
        if reply.error.None? && reply.decision.Some? {
          var verdict := Judge(m, state, reply.decision.value);
          if verdict.Valid? {
            shared := Record(shared, Attempt(m.key, kind, reply.status, false));
            outcome := Answered(reply.decision.value, count);
            FinishEnds(m, Config(shared, outcome), client, count);
            return;
          }
          shared := Record(shared, Attempt(m.key, kind, Invalid, false));
          if verdict.kind.OutOfBudget? {
            outcome := Aborted(OutOfBudget, BudgetExhausted, count);
            FinishEnds(m, Config(shared, outcome), client, count);
            return;
          }
          refused := verdict.kind;
        } else {
          shared := Record(shared, Attempt(m.key, kind, reply.status, false));
          if reply.error == Some(Timeout) || reply.error == Some(Provider) {
            refused := if reply.error == Some(Timeout) then ModelTimeout else ModelProviderFailure;
            state := shared.store;
            if m.advisory {
              if state.maxRetries <= retried {
                outcome := Aborted(refused, Failed, count);
                FinishEnds(m, Config(shared, outcome), client, count);
                return;
              }
              retried := retried + 1;
            } else {
              if state.maxRetries <= state.retries {
                outcome := FallbackOrAbort(m, refused, count, client);
                return;
              }
              shared := Retried(shared, state, refused);
            }
            continue;
          }
          refused := if reply.error == Some(Truncated) then FailureKind.OutputTruncated else InvalidModelOutput;
        }
        if failure.None? { failure := Some(refused); }
        if kind.Repair? { outcome := FallbackOrAbort(m, failure.value, count, client); return; }
        kind := Repair;
      }
    }

    /** Give up with the failure, or make one call of the fallback client. */
    method FallbackOrAbort<D>(m: Mode<D>, failure: FailureKind, count: nat, client: nat -> Reply<D>)
      returns (outcome: Local<D>)
      modifies this
      ensures Config(shared, outcome) == Finish(m, Fallback(m, old(shared), failure, count), client, count)
      ensures !Waiting(outcome) && !outcome.Unstarted? && outcome.attempts == count
      ensures var before := old(shared); var asked := m.fallback && before.store.calls < before.store.maxCalls;
        && shared.started == before.started + (if asked then 1 else 0)
        && shared.store.calls == before.store.calls + (if asked then 1 else 0)
        && |shared.attempts| == |before.attempts| + (if asked then 1 else 0)
      ensures outcome.Answered? ==> m.fallback && Judge(m, shared.store, outcome.decision).Valid?
      ensures outcome.Aborted? ==> outcome.cause == failure || outcome.cause == OutOfBudget
    {
      hide Derive;
      FinishFallback(m, shared, failure, count, client);
      if !m.fallback { return Aborted(failure, Failed, count); }
      var own := shared.store;
      if own.maxCalls <= own.calls { return Aborted(OutOfBudget, BudgetExhausted, count); }
      shared := Charge(shared, own);
      var reply := client(count);
      var state := shared.store;
      if reply.error.Some? || reply.decision.None? {
        shared := Record(shared, Attempt(m.key, Primary, reply.status, true));
        return Aborted(failure, Failed, count);
      }
      if !Judge(m, state, reply.decision.value).Valid? {
        shared := Record(shared, Attempt(m.key, Primary, Invalid, true));
        return Aborted(failure, Failed, count);
      }
      shared := Record(shared, Attempt(m.key, Primary, reply.status, true));
      return Answered(reply.decision.value, count);
    }
  }
}
