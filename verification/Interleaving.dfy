/** Several inference calls at once: coroutines on shared counters, resumed in
    any order, each for one atomic segment from await to await. */
module Interleaving {
  import opened Domain
  import opened Inference

  datatype World<!D> = World(sh: Shared, modes: seq<Mode<D>>, locals: seq<Local<D>>)

  /** One segment of coroutine `i`: its start, or what follows its client's reply. */
  function Segment<D>(w: World<D>, i: nat, reply: Reply<D>): World<D>
    requires i < |w.locals| == |w.modes|
  {
    var l := w.locals[i];
    if !l.Unstarted? && !Waiting(l) then w
    else
      var c := if l.Unstarted? then Begin(w.modes[i], w.sh) else Resume(w.modes[i], w.sh, l, reply);
      w.(sh := c.sh, locals := w.locals[i := c.l])
  }

  datatype Turn<+D> = Turn(i: nat, reply: Reply<D>)

  predicate ForWorld<D>(w: World<D>, schedule: seq<Turn<D>>) {
    |w.locals| == |w.modes| && forall k :: 0 <= k < |schedule| ==> schedule[k].i < |w.locals|
  }

  function Interleave<D>(w: World<D>, schedule: seq<Turn<D>>): World<D>
    requires ForWorld(w, schedule)
    decreases schedule
  {
    if schedule == [] then w else Interleave(Segment(w, schedule[0].i, schedule[0].reply), schedule[1..])
  }

  /** The calls that have been charged and not answered. */
  function InFlight<D>(ls: seq<Local<D>>): nat {
    if ls == [] then 0 else InFlight(ls[..|ls| - 1]) + (if Waiting(ls[|ls| - 1]) then 1 else 0)
  }

  lemma {:induction false} InFlightUpdate<D>(ls: seq<Local<D>>, i: nat, l: Local<D>)
    requires i < |ls|
    ensures InFlight(ls[i := l]) + (if Waiting(ls[i]) then 1 else 0) == InFlight(ls) + (if Waiting(l) then 1 else 0)
  {
    var n := |ls| - 1;
    if i < n {
      assert ls[i := l][..n] == ls[..n][i := l];
      InFlightUpdate(ls[..n], i, l);
    } else {
      assert ls[i := l][..n] == ls[..n];
    }
  }

  lemma {:induction false} NoneInFlight<D>(ls: seq<Local<D>>)
    requires forall i :: 0 <= i < |ls| ==> !Waiting(ls[i])
    ensures InFlight(ls) == 0
  {
    if ls != [] { NoneInFlight(ls[..|ls| - 1]); }
  }

  /** What one coroutine has done so far, within an allowance of retries. */
  predicate Within<D>(m: Mode<D>, sh: Shared, l: Local<D>, allowance: nat) {
    match l
    case Unstarted => RetriesLeft(m, sh.store, 0) <= allowance
    case Calling(_, kind, _, attempts, retried) =>
      && attempts + 1 + (if kind.Primary? then 1 else 0) + RetriesLeft(m, sh.store, retried) <= 2 + allowance
      && (m.limit.Some? ==> attempts + 1 <= m.limit.value)
    case FallingBack(_, _, attempts) => attempts <= 2 + allowance && m.fallback && (m.limit.Some? ==>
      attempts <= m.limit.value)
    case Answered(d, attempts) =>
      attempts <= 2 + allowance && (m.limit.Some? ==> attempts <= m.limit.value) && Judge(m, sh.store, d).Valid?
    case Aborted(_, _, attempts) => attempts <= 2 + allowance && (m.limit.Some? ==> attempts <= m.limit.value)
  }

  /** The shared part agrees with itself, and no write was made from a stale copy. */
  predicate Sound(sh: Shared) {
    && sh.store.calls <= sh.store.maxCalls && sh.store.retries <= sh.store.maxRetries
    && sh.store.summary == Derive(sh.attempts) && sh.current
  }

  /** What one segment does to the shared part. */
  predicate Advanced(sh: Shared, t: Shared) {
    && t.store.maxCalls == sh.store.maxCalls && t.store.maxRetries == sh.store.maxRetries
    && t.store.context == sh.store.context
    && sh.store.calls <= t.store.calls && sh.store.retries <= t.store.retries && sh.attempts <= t.attempts
    && t.started - sh.started == t.store.calls - sh.store.calls
  }

  /** Starting keeps the counters sound, and is charged if it waits. */
  lemma BeginMeets<D>(m: Mode<D>, sh: Shared, allowance: nat)
    requires Sound(sh) && Within(m, sh, Unstarted, allowance)
    ensures var c := Begin(m, sh);
      && Sound(c.sh) && Advanced(sh, c.sh) && Within(m, c.sh, c.l, allowance)
      && c.sh.store.calls == sh.store.calls + (if Waiting(c.l) then 1 else 0) && c.sh.attempts == sh.attempts
      && !c.l.Unstarted? && c.l.attempts == 0
  {
    hide Derive, Judge;
  }

  /** What the head of the loop, or the fallback, does after `used` attempts. */
  predicate Charged<D>(m: Mode<D>, sh: Shared, c: Config<D>, allowance: nat) {
    && Sound(c.sh) && Advanced(sh, c.sh) && Within(m, c.sh, c.l, allowance) && !c.l.Unstarted?
    && c.sh.store.calls == sh.store.calls + (if Waiting(c.l) then 1 else 0) && c.sh.attempts == sh.attempts
  }

  lemma NextAttemptMeets<D>(
      m: Mode<D>, sh: Shared, kind: AttemptKind, failure: Option<FailureKind>, attempts: nat,
          retried: nat, allowance: nat)
    requires Sound(sh)
      && attempts + 1 + (if kind.Primary? then 1 else 0) + RetriesLeft(m, sh.store, retried) <= 2 + allowance
    requires m.limit.Some? ==> attempts <= m.limit.value
    ensures Charged(m, sh, NextAttempt(m, sh, kind, failure, attempts, retried), allowance)
    ensures NextAttempt(m, sh, kind, failure, attempts, retried).l.attempts == attempts
  {
    hide Derive, Judge;
  }

  lemma FallbackMeets<D>(m: Mode<D>, sh: Shared, failure: FailureKind, attempts: nat, allowance: nat)
    requires Sound(sh) && attempts <= 2 + allowance && (m.limit.Some? ==> attempts <= m.limit.value)
    ensures Charged(m, sh, Fallback(m, sh, failure, attempts), allowance)
    ensures Fallback(m, sh, failure, attempts).l.attempts == attempts
  {
    hide Derive, Judge;
  }

  lemma RepairMeets<D>(m: Mode<D>, sh: Shared, l: Local<D>, kind: FailureKind, allowance: nat)
    requires Sound(sh) && l.Calling? && Within(m, sh, l, allowance)
    ensures var c := RepairOrFallback(m, sh, l, kind);
      Charged(m, sh, c, allowance) && c.l.attempts == l.attempts + 1
  {
    hide Derive, Judge, Charged, NextAttempt, Fallback;
    var failure := if l.failure.Some? then l.failure.value else kind;
    if l.kind.Primary? { NextAttemptMeets(m, sh, Repair, Some(failure), l.attempts + 1, l.retried, allowance); }
    else { FallbackMeets(m, sh, failure, l.attempts + 1, allowance); }
    ChargedStarted(m, sh, RepairOrFallback(m, sh, l, kind), allowance);
  }

  lemma ChargedStarted<D>(m: Mode<D>, sh: Shared, c: Config<D>, allowance: nat)
    requires Charged(m, sh, c, allowance)
    ensures !c.l.Unstarted?
  {
  }

  lemma RetriedMeets(sh: Shared, kind: FailureKind)
    requires Sound(sh) && sh.store.retries < sh.store.maxRetries
    ensures var t := Retried(sh, sh.store, kind);
      Sound(t) && Advanced(sh, t) && t.store.calls == sh.store.calls && t.attempts == sh.attempts
        && t.store.retries == sh.store.retries + 1
  {
  }

  lemma RetryMeets<D>(m: Mode<D>, sh: Shared, l: Local<D>, kind: FailureKind, allowance: nat)
    requires Sound(sh) && l.Calling? && Within(m, sh, l, allowance)
    ensures var c := RetryOrFallback(m, sh, l, kind);
      Charged(m, sh, c, allowance) && c.l.attempts == l.attempts + 1
  {
    hide Derive, Judge, NextAttempt, Fallback, Retried;
    var state := Reread(sh);
    if m.advisory {
      if l.retried < state.maxRetries {
        NextAttemptMeets(m, sh, l.kind, l.failure, l.attempts + 1, l.retried + 1, allowance);
      }
    } else if state.maxRetries <= state.retries {
      FallbackMeets(m, sh, kind, l.attempts + 1, allowance);
    } else {
      RetriedMeets(sh, kind);
      NextAttemptMeets(m, Retried(sh, state, kind), l.kind, l.failure, l.attempts + 1, l.retried, allowance);
    }
  }

  lemma RecordMeets(sh: Shared, a: Attempt)
    requires Sound(sh)
    ensures var t := Record(sh, a);
      && Sound(t) && Advanced(sh, t) && |t.attempts| == |sh.attempts| + 1 && t.store.calls == sh.store.calls
      && t.store.retries == sh.store.retries
  {
    hide Derive;
  }

  /** A segment after a reply records one attempt, and charges the next call. */
  lemma ResumeMeets<D>(m: Mode<D>, sh: Shared, l: Local<D>, reply: Reply<D>, allowance: nat)
    requires Sound(sh) && Waiting(l) && Within(m, sh, l, allowance)
    ensures var c := Resume(m, sh, l, reply);
      && Sound(c.sh) && Advanced(sh, c.sh) && Within(m, c.sh, c.l, allowance)
      && c.sh.store.calls == sh.store.calls + (if Waiting(c.l) then 1 else 0) && |c.sh.attempts| == |sh.attempts| + 1
      && !c.l.Unstarted? && c.l.attempts == l.attempts + (if l.Calling? then 1 else 0)
  {
    hide Derive, Record, RepairOrFallback, RetryOrFallback, Sound, Reread;
    var state := Reread(sh);
    assert state == sh.store by { SameStore(sh); }
    var refused := reply.error.None? && reply.decision.Some? && Judge(m, state, reply.decision.value).Refused?;
    var status := if refused then Invalid else reply.status;
    var a := if l.Calling? then Attempt(m.key, l.kind, status, false) else Attempt(m.key, Primary, status, true);
    RecordMeets(sh, a);
    var t := Record(sh, a);
    WithinStays(m, sh, t, l, allowance);
    if l.Calling? {
      forall kind: FailureKind
        ensures var c := RepairOrFallback(m, t, l, kind);
          Charged(m, t, c, allowance) && c.l.attempts == l.attempts + 1
        ensures var c := RetryOrFallback(m, t, l, kind);
          Charged(m, t, c, allowance) && c.l.attempts == l.attempts + 1
      {
        RepairMeets(m, t, l, kind, allowance);
        RetryMeets(m, t, l, kind, allowance);
      }
    }
  }

  lemma SameStore(sh: Shared)
    ensures Reread(sh) == sh.store
  {
  }

  /** What a segment of another coroutine leaves true of this one. */
  lemma WithinStays<D>(m: Mode<D>, sh: Shared, t: Shared, l: Local<D>, allowance: nat)
    requires Advanced(sh, t) && Within(m, sh, l, allowance)
    ensures Within(m, t, l, allowance)
  {
  }

  ghost predicate Bounded<D>(w: World<D>, allowances: seq<nat>) {
    && |w.locals| == |w.modes| == |allowances|
    && Sound(w.sh) && forall i :: 0 <= i < |w.locals| ==> Within(w.modes[i], w.sh, w.locals[i], allowances[i])
  }

  /** Every call was counted when it was made; each is recorded or in flight. */
  ghost predicate Accounted<D>(w0: World<D>, w: World<D>) {
    && w.modes == w0.modes && |w.locals| == |w0.locals| && Advanced(w0.sh, w.sh)
    && w.sh.store.calls - w0.sh.store.calls == |w.sh.attempts| - |w0.sh.attempts| +
        InFlight(w.locals) - InFlight(w0.locals)
  }

  lemma SegmentMeets<D>(w: World<D>, i: nat, reply: Reply<D>, allowances: seq<nat>)
    requires Bounded(w, allowances) && i < |w.locals|
    ensures Bounded(Segment(w, i, reply), allowances) && Accounted(w, Segment(w, i, reply))
  {
    hide Begin, Resume, Within, Sound;
    var l := w.locals[i];
    var q := Segment(w, i, reply);
    if l.Unstarted? || Waiting(l) {
      if l.Unstarted? { BeginMeets(w.modes[i], w.sh, allowances[i]); }
        else { ResumeMeets(w.modes[i], w.sh, l, reply, allowances[i]); }
      InFlightUpdate(w.locals, i, q.locals[i]);
      forall j | 0 <= j < |q.locals| ensures Within(q.modes[j], q.sh, q.locals[j], allowances[j]) {
        if j != i { WithinStays(w.modes[j], w.sh, q.sh, w.locals[j], allowances[j]); }
      }
    }
  }

  lemma {:induction false} InterleaveMeets<D>(w: World<D>, schedule: seq<Turn<D>>, allowances: seq<nat>)
    requires ForWorld(w, schedule) && Bounded(w, allowances)
    ensures Bounded(Interleave(w, schedule), allowances) && Accounted(w, Interleave(w, schedule))
    decreases schedule
  {
    hide Bounded, Segment, InFlight;
    if schedule != [] {
      var q := Segment(w, schedule[0].i, schedule[0].reply);
      UnboundLength(w, allowances);
      SegmentMeets(w, schedule[0].i, schedule[0].reply, allowances);
      UnboundLength(q, allowances);
      InterleaveMeets(q, schedule[1..], allowances);
    }
  }

  lemma UnboundLength<D>(w: World<D>, allowances: seq<nat>)
    requires Bounded(w, allowances)
    ensures |w.locals| == |w.modes| == |allowances|
  {
  }

  function Allowances<D>(w: World<D>): seq<nat> {
    seq(|w.modes|, i requires 0 <= i < |w.modes| => RetriesLeft(w.modes[i], w.sh.store, 0))
  }

  /** Nothing has started, and the counters are sound. */
  predicate Unbegun<D>(w: World<D>) {
    |w.locals| == |w.modes| && Sound(w.sh) && forall i :: 0 <= i < |w.locals| ==> w.locals[i].Unstarted?
  }

  /** In every interleaving every write is made from the newest snapshot, although
      each coroutine holds a copy of its own across its awaits; so no update is
      lost: saved calls count the client calls made and stay in their limit, the stored summary is the one
      derived from all recorded attempts, every call is recorded or in flight,
      and each coroutine keeps to its own bound. */
  lemma InterleavingIsSafe<D>(w: World<D>, schedule: seq<Turn<D>>)
    requires ForWorld(w, schedule) && Unbegun(w)
    ensures var q := Interleave(w, schedule);
      && q.sh.current
      && q.sh.store.calls - w.sh.store.calls == q.sh.started - w.sh.started
      && q.sh.store.calls <= q.sh.store.maxCalls == w.sh.store.maxCalls
      && q.sh.started - w.sh.started == |q.sh.attempts| - |w.sh.attempts| + InFlight(q.locals)
      && q.sh.store.summary == Derive(q.sh.attempts) && w.sh.attempts <= q.sh.attempts
      && q.sh.store.retries <= q.sh.store.maxRetries == w.sh.store.maxRetries
      && |q.locals| == |w.locals| == |q.modes| && q.modes == w.modes
      && forall i :: 0 <= i < |q.locals| ==>
        Within(q.modes[i], q.sh, q.locals[i], RetriesLeft(w.modes[i], w.sh.store, 0))
  {
    hide Within, Derive;
    forall i | 0 <= i < |w.locals| ensures Within(w.modes[i], w.sh, w.locals[i], Allowances(w)[i]) {
      UnstartedWithin(w.modes[i], w.sh);
    }
    NoneInFlight(w.locals);
    InterleaveMeets(w, schedule, Allowances(w));
  }

  lemma UnstartedWithin<D>(m: Mode<D>, sh: Shared)
    ensures Within(m, sh, Unstarted, RetriesLeft(m, sh.store, 0))
  {
  }

  // ---- every interleaving ends ----

  function Work<D>(w: World<D>, i: nat): nat
    requires i < |w.locals| == |w.modes|
  {
    if w.locals[i].Unstarted? then
      4 + RetriesLeft(w.modes[i], w.sh.store, 0) else Remaining(w.modes[i], w.sh, w.locals[i])
  }

  function TotalWork<D>(w: World<D>, n: nat): nat
    requires n <= |w.locals| == |w.modes|
  {
    if n == 0 then 0 else TotalWork(w, n - 1) + Work(w, n - 1)
  }

  lemma {:induction false} WorkMonotone<D>(w: World<D>, q: World<D>, n: nat)
    requires n <= |w.locals| == |w.modes| == |q.locals| == |q.modes|
    requires forall i :: 0 <= i < n ==> Work(q, i) <= Work(w, i)
    ensures TotalWork(q, n) <= TotalWork(w, n)
  {
    hide Work;
    if n > 0 { WorkMonotone(w, q, n - 1); }
  }

  lemma {:induction false} WorkShrinks<D>(w: World<D>, q: World<D>, n: nat, i: nat)
    requires i < n <= |w.locals| == |w.modes| == |q.locals| == |q.modes|
    requires (forall j :: 0 <= j < n ==> Work(q, j) <= Work(w, j)) && Work(q, i) < Work(w, i)
    ensures TotalWork(q, n) < TotalWork(w, n)
  {
    hide Work;
    if i < n - 1 { WorkShrinks(w, q, n - 1, i); } else { WorkMonotone(w, q, n - 1); }
  }

  /** A segment of a coroutine that is not done brings the whole closer to its end. */
  lemma SegmentShrinks<D>(w: World<D>, i: nat, reply: Reply<D>, allowances: seq<nat>)
    requires Bounded(w, allowances) && i < |w.locals| && (w.locals[i].Unstarted? || Waiting(w.locals[i]))
    ensures TotalWork(Segment(w, i, reply), |w.locals|) < TotalWork(w, |w.locals|)
  {
    hide Within, Sound, Begin, ResumeCall, ResumeFallback;
    var q := Segment(w, i, reply);
    var l := w.locals[i];
    if l.Unstarted? { BeginMeets(w.modes[i], w.sh, allowances[i]); BeginWork(w.modes[i], w.sh); }
    else { ResumeMeets(w.modes[i], w.sh, l, reply, allowances[i]); ResumeShrinks(w.modes[i], w.sh, l, reply); }
    forall j | 0 <= j < |w.locals| ensures Work(q, j) <= Work(w, j) && (j == i ==> Work(q, j) < Work(w, j)) {
      if j != i { OthersWork(w.modes[j], w.sh, q.sh, w.locals[j]); }
    }
    WorkShrinks(w, q, |w.locals|, i);
  }

  lemma BeginWork<D>(m: Mode<D>, sh: Shared)
    ensures Remaining(m, Begin(m, sh).sh, Begin(m, sh).l) < 4 + RetriesLeft(m, sh.store, 0)
  {
  }

  lemma OthersWork<D>(m: Mode<D>, sh: Shared, t: Shared, l: Local<D>)
    requires Advanced(sh, t)
    ensures Remaining(m, t, l) <= Remaining(m, sh, l) && RetriesLeft(m, t.store, 0) <= RetriesLeft(m, sh.store, 0)
  {
  }

  // ---- repairs have their causes ----

  /** A client whose reported call status matches its error. */
  predicate Honest<D>(reply: Reply<D>) {
    && (reply.error == Some(Truncated) ==> reply.status.OutputTruncated?)
    && (reply.error == Some(Other) || (reply.error.None? && reply.decision.None?) ==> reply.status.Invalid?)
  }

  ghost predicate Caused<D>(w: World<D>) {
    && |w.locals| == |w.modes| && RepairsAnswer(w.sh.attempts)
    && forall i :: 0 <= i < |w.locals| ==> RepairCaused(w.modes[i], w.locals[i], w.sh.attempts)
  }

  predicate RepairCaused<D>(m: Mode<D>, l: Local<D>, attempts: seq<Attempt>) {
    l.Calling? && l.kind.Repair? ==> m.key in EligibleKeys(attempts)
  }

  lemma EligibleGrows(a: seq<Attempt>, b: seq<Attempt>)
    requires a <= b
    ensures EligibleKeys(a) <= EligibleKeys(b)
  {
  }

  lemma RecordedCaused<D>(m: Mode<D>, sh: Shared, l: Local<D>, a: Attempt)
    requires RepairsAnswer(sh.attempts) && RepairCaused(m, l, sh.attempts) && a.key == m.key
      && (a.fallback || (l.Calling? && a.kind == l.kind))
    ensures RepairsAnswer(sh.attempts + [a]) && RepairCaused(m, l, sh.attempts + [a])
    ensures Eligible(a) ==> m.key in EligibleKeys(sh.attempts + [a])
  {
    hide RepairKeys, EligibleKeys;
    OneMore(sh.attempts, a);
  }

  /** The next attempt is a repair only if this one was, or can be repaired. */
  lemma RepairFollows<D>(m: Mode<D>, t: Shared, l: Local<D>, kind: FailureKind)
    requires l.Calling? && (l.kind.Primary? ==> m.key in EligibleKeys(t.attempts))
    ensures var c := RepairOrFallback(m, t, l, kind);
      c.sh.attempts == t.attempts && RepairCaused(m, c.l, t.attempts)
  {
    hide Derive, EligibleKeys;
  }

  lemma RetryFollows<D>(m: Mode<D>, t: Shared, l: Local<D>, kind: FailureKind)
    requires l.Calling? && RepairCaused(m, l, t.attempts)
    ensures var c := RetryOrFallback(m, t, l, kind);
      c.sh.attempts == t.attempts && RepairCaused(m, c.l, t.attempts)
  {
    hide Derive, EligibleKeys;
  }

  ghost predicate CausedAfter<D>(m: Mode<D>, sh: Shared, c: Config<D>) {
    RepairsAnswer(c.sh.attempts) && RepairCaused(m, c.l, c.sh.attempts) && sh.attempts <= c.sh.attempts
  }

  lemma CallCaused<D>(m: Mode<D>, sh: Shared, l: Local<D>, reply: Reply<D>)
    requires l.Calling? && Honest(reply) && RepairsAnswer(sh.attempts) && RepairCaused(m, l, sh.attempts)
    ensures CausedAfter(m, sh, ResumeCall(m, sh, l, reply))
  {
    hide Derive, Judge, RepairOrFallback, RetryOrFallback, RepairsAnswer, EligibleKeys;
    var state := Reread(sh);
    if reply.error.None? && reply.decision.Some? {
      var verdict := Judge(m, state, reply.decision.value);
      var a := Attempt(m.key, l.kind, if verdict.Valid? then reply.status else Invalid, false);
      RecordedCaused(m, sh, l, a);
      if verdict.Refused? { RepairFollows(m, Record(sh, a), l, verdict.kind); }
    } else {
      var a := Attempt(m.key, l.kind, reply.status, false);
      RecordedCaused(m, sh, l, a);
      var t := Record(sh, a);
      match reply.error
      case Some(Timeout) => RetryFollows(m, t, l, ModelTimeout);
      case Some(Provider) => RetryFollows(m, t, l, ModelProviderFailure);
      case Some(Truncated) => RepairFollows(m, t, l, FailureKind.OutputTruncated);
      case _ => RepairFollows(m, t, l, InvalidModelOutput);
    }
  }

  lemma ResumeCaused<D>(m: Mode<D>, sh: Shared, l: Local<D>, reply: Reply<D>)
    requires Waiting(l) && Honest(reply) && RepairsAnswer(sh.attempts) && RepairCaused(m, l, sh.attempts)
    ensures CausedAfter(m, sh, Resume(m, sh, l, reply))
  {
    hide Derive, Judge, RepairsAnswer, EligibleKeys, ResumeCall;
    if l.Calling? {
      CallCaused(m, sh, l, reply);
    } else {
      RecordedCaused(m, sh, l, Attempt(m.key, Primary, reply.status, true));
      RecordedCaused(m, sh, l, Attempt(m.key, Primary, Invalid, true));
    }
  }

  lemma {:induction false} RepairsAreCaused<D>(w: World<D>, schedule: seq<Turn<D>>)
    requires ForWorld(w, schedule) && Caused(w) && forall k :: 0 <= k < |schedule| ==> Honest(schedule[k].reply)
    ensures RepairsAnswer(Interleave(w, schedule).sh.attempts)
    decreases schedule
  {
    hide RepairsAnswer, EligibleKeys, Resume, Begin, Honest;
    if schedule != [] {
      var i, reply := schedule[0].i, schedule[0].reply;
      var q := Segment(w, i, reply);
      if Waiting(w.locals[i]) { ResumeCaused(w.modes[i], w.sh, w.locals[i], reply); }
      else if w.locals[i].Unstarted? { BeginPrimary(w.modes[i], w.sh); }
      EligibleGrows(w.sh.attempts, q.sh.attempts);
      forall j | 0 <= j < |q.locals| ensures RepairCaused(q.modes[j], q.locals[j], q.sh.attempts) {
        assert RepairCaused(w.modes[j], w.locals[j], w.sh.attempts);
      }
      RepairsAreCaused(q, schedule[1..]);
    }
  }

  lemma BeginPrimary<D>(m: Mode<D>, sh: Shared)
    ensures var c := Begin(m, sh); c.sh.attempts == sh.attempts && (c.l.Calling? ==> c.l.kind.Primary?)
  {
  }

  /** With honest clients no summary ever counts more repairs than decisions
      that were eligible for one. */
  lemma {:induction false} RepairRateIsARate<D>(w: World<D>, schedule: seq<Turn<D>>)
    requires ForWorld(w, schedule) && Unbegun(w) && RepairsAnswer(w.sh.attempts)
      && forall k :: 0 <= k < |schedule| ==> Honest(schedule[k].reply)
    ensures var s := Interleave(w, schedule).sh.store.summary;
      && s.repairs.numerator <= s.repairs.denominator && s.firstValid.numerator <= s.firstValid.denominator
      && s.fallbacks.numerator <= s.fallbacks.denominator && s.errors <= s.calls
  {
    hide Derive, RepairsAnswer, Within;
    forall i | 0 <= i < |w.locals| ensures RepairCaused(w.modes[i], w.locals[i], w.sh.attempts) { }
    RepairsAreCaused(w, schedule);
    InterleavingIsSafe(w, schedule);
    RatesAreRates(Interleave(w, schedule).sh.attempts);
  }

  // ---- one call ----

  /** The calls of one inference: one per attempt, and one that may be in flight
      or was the fallback's. */
  predicate Thrifty<D>(c: Config<D>, before: nat) {
    && !c.l.Unstarted? && c.sh.store.calls <= before + c.l.attempts + 1
    && (Waiting(c.l) ==> c.sh.store.calls == before + c.l.attempts + 1)
  }

  lemma {:induction false} FinishMeets<D>(
      m: Mode<D>, c: Config<D>, client: nat -> Reply<D>, n: nat, allowance: nat, before: nat)
    requires Sound(c.sh) && Within(m, c.sh, c.l, allowance) && Thrifty(c, before)
    ensures var q := Finish(m, c, client, n);
      && Sound(q.sh) && Within(m, q.sh, q.l, allowance) && Advanced(c.sh, q.sh) && !Waiting(q.l) && Thrifty(q, before)
    decreases Remaining(m, c.sh, c.l)
  {
    hide Sound, Within, Resume;
    if Waiting(c.l) {
      ResumeMeets(m, c.sh, c.l, client(n), allowance);
      ResumeShrinks(m, c.sh, c.l, client(n));
      FinishMeets(m, Resume(m, c.sh, c.l, client(n)), client, n + 1, allowance, before);
    }
  }

  /** One call on its own ends after at most two attempts and the retries that
      were left, never beyond its own limit or the shared one; it makes at most
      one client call per attempt and one of the fallback; and a decision that it
      returns has passed validation against the current context. */
  lemma InferIsBounded<D>(m: Mode<D>, sh: Shared, client: nat -> Reply<D>)
    requires Sound(sh)
    ensures var q := Finish(m, Begin(m, sh), client, 0);
      && !Waiting(q.l) && !q.l.Unstarted? && q.l.attempts <= 2 + RetriesLeft(m, sh.store, 0)
      && (m.limit.Some? ==> q.l.attempts <= m.limit.value)
      && sh.store.calls <= q.sh.store.calls <= sh.store.maxCalls
      && q.sh.store.calls - sh.store.calls <= q.l.attempts + 1
      && q.sh.store.retries <= sh.store.maxRetries && q.sh.store.summary == Derive(q.sh.attempts)
      && (q.l.Answered? ==> m.judge(q.l.decision).Valid? && sh.store.context == m.context)
  {
    hide Derive;
    BeginMeets(m, sh, RetriesLeft(m, sh.store, 0));
    FinishMeets(m, Begin(m, sh), client, 0, RetriesLeft(m, sh.store, 0), sh.store.calls);
  }
}
