/** Metrics of the inference layer, and the attempt loop: retries, one repair,
    one fallback. A coroutine is described by its atomic segments, from one
    await to the next, so that several can be interleaved on shared counters. */
module Inference {
  import opened Domain

  datatype CallStatus = Succeeded | Invalid | OutputTruncated | CallTimedOut | ProviderFailed

  datatype AttemptKind = Primary | Repair

  /** Identifies one decision: its step, its role, and its context's fingerprint. */
  datatype Key = Key(step: nat, role: Role, fingerprint: string)

  /** The record of one attempt. */
  datatype Attempt = Attempt(key: Key, kind: AttemptKind, status: CallStatus, fallback: bool)

  predicate SchemaValid(a: Attempt) { a.status.Succeeded? }

  // ---- the summary ----

  datatype Rate = Rate(numerator: nat, denominator: nat)

  datatype Summary = Summary(calls: nat, firstValid: Rate, repairs: Rate, fallbacks: Rate, errors: nat)

  function Keys(records: seq<Attempt>): set<Key> { set a | a in records :: a.key }

  function LiveKeys(records: seq<Attempt>): set<Key> { set a | a in records && !a.fallback :: a.key }

  function FallbackKeys(records: seq<Attempt>): set<Key> { set a | a in records && a.fallback :: a.key }

  function RepairKeys(records: seq<Attempt>): set<Key> {
    set a | a in records && !a.fallback && a.kind.Repair? :: a.key
  }

  predicate Eligible(a: Attempt) { !a.fallback && a.kind.Primary? && (a.status.Invalid? || a.status.OutputTruncated?) }

  function EligibleKeys(records: seq<Attempt>): set<Key> { set a | a in records && Eligible(a) :: a.key }

  /** The first live attempt of each decision, in order. */
  function Firsts(records: seq<Attempt>): seq<Attempt> {
    if records == [] then []
    else
      var init := records[..|records| - 1];
      var last := records[|records| - 1];
      if last.fallback || last.key in LiveKeys(init) then Firsts(init) else Firsts(init) + [last]
  }

  function CountValid(records: seq<Attempt>): nat {
    if records == [] then 0
    else CountValid(records[..|records| - 1]) + (if SchemaValid(records[|records| - 1]) then 1 else 0)
  }

  function CountErrors(records: seq<Attempt>): nat {
    if records == [] then 0
    else CountErrors(records[..|records| - 1]) + (if Errs(records[|records| - 1].status) then 1 else 0)
  }

  predicate Errs(status: CallStatus) { status.ProviderFailed? || status.CallTimedOut? }

  /** `derive_inference_summary`. */
  function Derive(records: seq<Attempt>): Summary {
    Summary(|records|,
      Rate(CountValid(Firsts(records)), |Firsts(records)|),
      Rate(|RepairKeys(records)|, |EligibleKeys(records)|),
      Rate(|FallbackKeys(records)|, |Keys(records)|),
      CountErrors(records))
  }

  /** Every repair answers an invalid or truncated primary of the same decision. */
  predicate RepairsAnswer(records: seq<Attempt>) { RepairKeys(records) <= EligibleKeys(records) }

  lemma {:induction false} CountsBounded(records: seq<Attempt>)
    ensures CountValid(records) <= |records| && CountErrors(records) <= |records|
  {
    if records != [] { CountsBounded(records[..|records| - 1]); }
  }

  lemma SubsetSize<T>(a: set<T>, b: set<T>)
    requires a <= b
    ensures |a| <= |b|
  {
    if a != {} {
      var x :| x in a;
      SubsetSize(a - {x}, b - {x});
    }
  }

  lemma {:induction false} FirstsAreKeys(records: seq<Attempt>)
    ensures |Firsts(records)| == |LiveKeys(records)|
    ensures forall i, j :: 0 <= i < j < |Firsts(records)| ==> Firsts(records)[i].key != Firsts(records)[j].key
    ensures forall a :: a in Firsts(records) ==> a in records && !a.fallback
  {
    if records != [] {
      var init, last := records[..|records| - 1], records[|records| - 1];
      FirstsAreKeys(init);
      assert records == init + [last];
      if last.fallback || last.key in LiveKeys(init) {
        assert LiveKeys(records) == LiveKeys(init);
      } else {
        assert LiveKeys(records) == LiveKeys(init) + {last.key};
        forall a | a in Firsts(init) ensures a.key != last.key { assert a.key in LiveKeys(init); }
      }
    }
  }

  /** No rate of a summary exceeds one, if every repair had its cause. */
  lemma RatesAreRates(records: seq<Attempt>)
    requires RepairsAnswer(records)
    ensures var s := Derive(records);
      && s.calls == |records| && s.errors <= s.calls
      && s.firstValid.numerator <= s.firstValid.denominator == |LiveKeys(records)| <= s.calls
      && s.repairs.numerator <= s.repairs.denominator && s.fallbacks.numerator <= s.fallbacks.denominator
  {
    CountsBounded(records);
    CountsBounded(Firsts(records));
    FirstsAreKeys(records);
    LiveKeysBounded(records);
    SubsetSize(RepairKeys(records), EligibleKeys(records));
    SubsetSize(FallbackKeys(records), Keys(records));
  }

  lemma {:induction false} LiveKeysBounded(records: seq<Attempt>)
    ensures |LiveKeys(records)| <= |records|
  {
    if records != [] {
      var init, last := records[..|records| - 1], records[|records| - 1];
      LiveKeysBounded(init);
      assert records == init + [last];
      SubsetSize(LiveKeys(records), LiveKeys(init) + {last.key});
    }
  }

  lemma OneMoreCounted(rs: seq<Attempt>, a: Attempt)
    ensures Firsts(rs + [a]) == if a.fallback || a.key in LiveKeys(rs) then Firsts(rs) else Firsts(rs) + [a]
    ensures CountErrors(rs + [a]) == CountErrors(rs) + (if Errs(a.status) then 1 else 0)
    ensures CountValid(rs + [a]) == CountValid(rs) + (if SchemaValid(a) then 1 else 0)
  {
    hide LiveKeys;
    assert (rs + [a])[..|rs|] == rs;
  }

  lemma OneMoreLive(rs: seq<Attempt>, a: Attempt)
    ensures LiveKeys(rs + [a]) == if a.fallback then LiveKeys(rs) else LiveKeys(rs) + {a.key}
    ensures FallbackKeys(rs + [a]) == if a.fallback then FallbackKeys(rs) + {a.key} else FallbackKeys(rs)
  {
    assert forall x :: x in rs + [a] <==> x in rs || x == a;
  }

  lemma OneMoreRepair(rs: seq<Attempt>, a: Attempt)
    ensures RepairKeys(rs + [a]) == if !a.fallback && a.kind.Repair? then RepairKeys(rs) + {a.key} else RepairKeys(rs)
    ensures EligibleKeys(rs + [a]) == if Eligible(a) then EligibleKeys(rs) + {a.key} else EligibleKeys(rs)
    ensures Keys(rs + [a]) == Keys(rs) + {a.key}
  {
    hide Eligible;
    assert forall x :: x in rs + [a] <==> x in rs || x == a;
  }

  /** What one more record adds to every metric. */
  lemma OneMore(rs: seq<Attempt>, a: Attempt)
    ensures Firsts(rs + [a]) == if a.fallback || a.key in LiveKeys(rs) then Firsts(rs) else Firsts(rs) + [a]
    ensures CountErrors(rs + [a]) == CountErrors(rs) + (if Errs(a.status) then 1 else 0)
    ensures CountValid(rs + [a]) == CountValid(rs) + (if SchemaValid(a) then 1 else 0)
    ensures LiveKeys(rs + [a]) == if a.fallback then LiveKeys(rs) else LiveKeys(rs) + {a.key}
    ensures FallbackKeys(rs + [a]) == if a.fallback then FallbackKeys(rs) + {a.key} else FallbackKeys(rs)
    ensures RepairKeys(rs + [a]) == if !a.fallback && a.kind.Repair? then RepairKeys(rs) + {a.key} else RepairKeys(rs)
    ensures EligibleKeys(rs + [a]) == if Eligible(a) then EligibleKeys(rs) + {a.key} else EligibleKeys(rs)
    ensures Keys(rs + [a]) == Keys(rs) + {a.key}
  {
    hide Firsts, CountErrors, CountValid, LiveKeys, FallbackKeys, RepairKeys, EligibleKeys, Keys, Eligible;
    OneMoreCounted(rs, a);
    OneMoreLive(rs, a);
    OneMoreRepair(rs, a);
  }

  /** A live record without an earlier live one of its decision. */
  predicate IsFirst(records: seq<Attempt>, i: nat)
    requires i < |records|
  {
    !records[i].fallback && forall j :: 0 <= j < i ==> records[j].fallback || records[j].key != records[i].key
  }

  /** The metrics, counted over the records and over the decisions they name. */
  ghost predicate SummaryIs(records: seq<Attempt>, s: Summary) {
    && s.calls == |records|
    && s.errors == |ErrorsAt(records)|
    && s.firstValid == Rate(|ValidAt(records)|, |FirstsAt(records)|)
    && (exists repaired, repairable, fellBack, all :: Decisions(records, s, repaired, repairable, fellBack, all))
  }

  /** The repairs and fallbacks are counted over these decisions. */
  ghost predicate Decisions(
      records: seq<Attempt>, s: Summary, repaired: set<Key>, repairable: set<Key>, fellBack: set<Key>, all: set<Key>) {
    && s.repairs == Rate(|repaired|, |repairable|) && s.fallbacks == Rate(|fellBack|, |all|)
    && forall key :: Decision(records, key, repaired, repairable, fellBack, all)
  }

  /** In which of the counted sets the decision is, by its records. */
  predicate Decision(
      records: seq<Attempt>, key: Key, repaired: set<Key>, repairable: set<Key>, fellBack: set<Key>, all: set<Key>) {
    && (key in repaired <==> exists a :: a in records && a.key == key && !a.fallback && a.kind.Repair?)
    && (key in repairable <==>
          exists a :: a in records && a.key == key && !a.fallback && a.kind.Primary? && !a.status.Succeeded?
            && !a.status.CallTimedOut? && !a.status.ProviderFailed?)
    && (key in fellBack <==> exists a :: a in records && a.key == key && a.fallback)
    && (key in all <==> exists a :: a in records && a.key == key)
  }

  ghost function ErrorsAt(records: seq<Attempt>): set<nat> {
    set i | 0 <= i < |records| && (records[i].status.ProviderFailed? || records[i].status.CallTimedOut?)
  }

  ghost function FirstsAt(records: seq<Attempt>): set<nat> { set i | 0 <= i < |records| && IsFirst(records, i) }

  ghost function ValidAt(records: seq<Attempt>): set<nat> {
    set i | 0 <= i < |records| && IsFirst(records, i) && records[i].status.Succeeded?
  }

  lemma PlacesPush(init: seq<Attempt>, a: Attempt)
    ensures var rs := init + [a]; var first := !a.fallback && a.key !in LiveKeys(init);
      && ErrorsAt(rs) == ErrorsAt(init) + (if Errs(a.status) then {|init|} else {})
      && FirstsAt(rs) == FirstsAt(init) + (if first then {|init|} else {})
      && ValidAt(rs) == ValidAt(init) + (if first && SchemaValid(a) then {|init|} else {})
    ensures |init| !in ErrorsAt(init) && |init| !in FirstsAt(init) && |init| !in ValidAt(init)
  {
    var rs := init + [a];
    forall i | 0 <= i < |init| ensures IsFirst(rs, i) <==> IsFirst(init, i) {
      assert forall j :: 0 <= j <= i ==> rs[j] == init[j];
    }
    assert IsFirst(rs, |init|) <==> !a.fallback && a.key !in LiveKeys(init) by {
      if a.key in LiveKeys(init) {
        var x :| x in init && !x.fallback && x.key == a.key;
        var j :| 0 <= j < |init| && init[j] == x;
        assert rs[j] == x;
      } else {
        forall j | 0 <= j < |init| ensures rs[j].fallback || rs[j].key != a.key { assert init[j] in init; }
      }
    }
  }

  lemma {:induction false} PlacesAre(records: seq<Attempt>)
    ensures CountErrors(records) == |ErrorsAt(records)|
    ensures |Firsts(records)| == |FirstsAt(records)| && CountValid(Firsts(records)) == |ValidAt(records)|
  {
    hide ErrorsAt, FirstsAt, ValidAt, IsFirst, LiveKeys;
    if records == [] {
      NoPlaces();
    } else {
      var init, a := records[..|records| - 1], records[|records| - 1];
      assert records == init + [a];
      PlacesAre(init);
      PlacesPush(init, a);
      OneMoreCounted(init, a);
      OneMoreCounted(Firsts(init), a);
    }
  }

  lemma NoPlaces()
    ensures ErrorsAt([]) == FirstsAt([]) == ValidAt([]) == {}
  {
  }

  lemma DerivedIs(records: seq<Attempt>)
    ensures SummaryIs(records, Derive(records))
  {
    hide RepairKeys, EligibleKeys, FallbackKeys, Keys, Firsts, CountValid, CountErrors, ErrorsAt, ValidAt, FirstsAt,
      Decision;
    PlacesAre(records);
    var repaired, repairable, fellBack, all :=
      RepairKeys(records), EligibleKeys(records), FallbackKeys(records), Keys(records);
    assert Decisions(records, Derive(records), repaired, repairable, fellBack, all) by {
      forall key ensures Decision(records, key, repaired, repairable, fellBack, all) { DecisionIs(records, key); }
    }
  }

  lemma DecisionIs(records: seq<Attempt>, key: Key)
    ensures Decision(records, key, RepairKeys(records), EligibleKeys(records), FallbackKeys(records), Keys(records))
  {
  }

  /** The deriving loop: first attempts are collected once per decision. */
  method DeriveSummary(records: seq<Attempt>) returns (summary: Summary)
    ensures summary == Derive(records) && SummaryIs(records, summary)
  {
    DerivedIs(records);
    hide Firsts, CountErrors, CountValid, LiveKeys, FallbackKeys, RepairKeys, EligibleKeys, Keys, SummaryIs;
    var firsts: seq<Attempt> := [];
    var seen: set<Key> := {};
    var valid, errors, i := 0, 0, 0;
    var repairs, eligible, fallbacks, keys: set<Key> := {}, {}, {}, {};
    Empty();
    while i < |records|
      invariant 0 <= i <= |records|
      invariant firsts == Firsts(records[..i]) && seen == LiveKeys(records[..i]) && valid == CountValid(firsts)
        && errors == CountErrors(records[..i])
      invariant repairs == RepairKeys(records[..i]) && eligible == EligibleKeys(records[..i])
      invariant fallbacks == FallbackKeys(records[..i]) && keys == Keys(records[..i])
    {
      var a := records[i];
      assert records[..i + 1] == records[..i] + [a];
      OneMore(records[..i], a);
      OneMore(firsts, a);
      if !a.fallback && a.key !in seen {
        firsts := firsts + [a];
        valid := valid + (if SchemaValid(a) then 1 else 0);
      }
      if !a.fallback { seen := seen + {a.key}; }
      if Errs(a.status) { errors := errors + 1; }
      if !a.fallback && a.kind.Repair? { repairs := repairs + {a.key}; }
      if Eligible(a) { eligible := eligible + {a.key}; }
      if a.fallback { fallbacks := fallbacks + {a.key}; }
      keys := keys + {a.key};
      i := i + 1;
    }
    assert records[..|records|] == records;
    summary := Summary(|records|, Rate(valid, |firsts|), Rate(|repairs|, |eligible|), Rate(|fallbacks|, |keys|),
        errors);
  }

  lemma Empty()
    ensures Firsts([]) == [] && CountErrors([]) == CountValid([]) == 0
    ensures LiveKeys([]) == FallbackKeys([]) == RepairKeys([]) == EligibleKeys([]) == Keys([]) == {}
  {
  }

  // ---- the store ----

  /** The counters and the summary in the durable snapshot. */
  datatype Snapshot = Snapshot(
    calls: nat, maxCalls: nat, retries: nat, maxRetries: nat, failures: seq<FailureKind>, context: nat,
        summary: Summary)

  /** What coroutines share: the snapshot, which is always replaced as a whole,
      the recorded attempts, the number of calls that clients were really asked
      for, and whether every replacement so far was made from the newest one. */
  datatype Shared = Shared(store: Snapshot, attempts: seq<Attempt>, started: nat, current: bool)

  /** `get`: what a coroutine reads before it decides or writes. */
  function Reread(sh: Shared): Snapshot { sh.store }

  /** `_replace`: the whole snapshot becomes `next`, which was made from `base`. */
  function Replace(sh: Shared, base: Snapshot, next: Snapshot): Shared {
    sh.(store := next, current := sh.current && base == sh.store)
  }

  /** Save the charged call, made from the caller's own copy, and ask the client. */
  function Charge(sh: Shared, own: Snapshot): Shared {
    Replace(sh, own, own.(calls := own.calls + 1)).(started := sh.started + 1)
  }

  /** `_record_inference_attempt`: append the attempt, and derive the summary
      from all of them into a copy that is read again. */
  function Record(sh: Shared, a: Attempt): Shared {
    var logged := sh.(attempts := sh.attempts + [a]);
    var base := Reread(logged);
    Replace(logged, base, base.(summary := Derive(logged.attempts)))
  }

  /** A replacement made from a stale copy loses what came in between. */
  lemma StaleCopiesLoseCalls(sh: Shared, held: Snapshot)
    requires held == sh.store
    ensures var t := Charge(Charge(sh, held), held);
      t.started == sh.started + 2 && t.store.calls == sh.store.calls + 1 && !t.current
  {
  }

  // ---- the coroutine ----

  datatype Error = Truncated | Timeout | Provider | Other

  /** A client's answer, with the call status that it reports itself. */
  datatype Reply<+D> = Reply(error: Option<Error>, decision: Option<D>, status: CallStatus)

  datatype Judged = Valid | Refused(kind: FailureKind)

  /** The parameters of one `_infer` call. `judge` is its validation. */
  datatype Mode<!D> = Mode(
    key: Key, context: nat, optional: bool, advisory: bool, limit: Option<nat>, fallback: bool, judge: D -> Judged)

  /** Where a coroutine is; while it waits it holds the copy it last wrote. */
  datatype Local<+D> =
    | Unstarted
    | Calling(held: Snapshot, kind: AttemptKind, failure: Option<FailureKind>, attempts: nat, retried: nat)
    | FallingBack(held: Snapshot, reason: FailureKind, attempts: nat)
    | Answered(decision: D, attempts: nat)
    | Aborted(cause: FailureKind, status: Status, attempts: nat)

  datatype Config<+D> = Config(sh: Shared, l: Local<D>)

  predicate Waiting<D>(l: Local<D>) { l.Calling? || l.FallingBack? }

  /** The head of the loop, up to the await. */
  function NextAttempt<D>(
      m: Mode<D>, sh: Shared, kind: AttemptKind, failure: Option<FailureKind>, attempts: nat,
          retried: nat): Config<D> {
    var own := Reread(sh);
    if m.limit.Some? && m.limit.value <= attempts then Config(sh, Aborted(RoleCallLimit, Failed, attempts))
    else if own.maxCalls <= own.calls then Config(sh, Aborted(OutOfBudget, BudgetExhausted, attempts))
    else
      var next := Charge(sh, own);
      Config(next, Calling(next.store, kind, failure, attempts, retried))
  }

  /** `_infer`; an optional role starts only while three calls are left. */
  function Begin<D>(m: Mode<D>, sh: Shared): Config<D> {
    var held := sh.store;
    if m.optional && held.maxCalls <= held.calls + 2 then Config(sh, Aborted(RoleCallLimit, Failed, 0))
    else NextAttempt(m, sh, Primary, None, 0, 0)
  }

  /** `_fallback_or_abort`, up to the await. */
  function Fallback<D>(m: Mode<D>, sh: Shared, failure: FailureKind, attempts: nat): Config<D> {
    var own := Reread(sh);
    if !m.fallback then Config(sh, Aborted(failure, Failed, attempts))
    else if own.maxCalls <= own.calls then Config(sh, Aborted(OutOfBudget, BudgetExhausted, attempts))
    else
      var next := Charge(sh, own);
      Config(next, FallingBack(next.store, failure, attempts))
  }

  /** What the validation makes of an answer, in the state of now. */
  function Judge<D>(m: Mode<D>, state: Snapshot, d: D): Judged {
    if state.context != m.context then Refused(InvalidModelOutput) else m.judge(d)
  }

  /** A refused or unusable primary is repaired once; then the fallback decides. */
  function RepairOrFallback<D>(m: Mode<D>, sh: Shared, l: Local<D>, kind: FailureKind): Config<D>
    requires l.Calling?
  {
    var failure := if l.failure.Some? then l.failure.value else kind;
    if l.kind.Primary? then NextAttempt(m, sh, Repair, Some(failure), l.attempts + 1, l.retried)
    else Fallback(m, sh, failure, l.attempts + 1)
  }

  /** A provider error or timeout is retried, within the shared or own limit. */
  function RetryOrFallback<D>(m: Mode<D>, sh: Shared, l: Local<D>, kind: FailureKind): Config<D>
    requires l.Calling?
  {
    var state := Reread(sh);
    if m.advisory then
      if state.maxRetries <= l.retried then Config(sh, Aborted(kind, Failed, l.attempts + 1))
      else NextAttempt(m, sh, l.kind, l.failure, l.attempts + 1, l.retried + 1)
    else if state.maxRetries <= state.retries then Fallback(m, sh, kind, l.attempts + 1)
    else NextAttempt(m, Retried(sh, state, kind), l.kind, l.failure, l.attempts + 1, l.retried)
  }

  /** Save one more retry and its failure. */
  function Retried(sh: Shared, state: Snapshot, kind: FailureKind): Shared {
    Replace(sh, state, state.(retries := state.retries + 1, failures := state.failures + [kind]))
  }

  /** From the await of the primary client to the next await, or to the end. */
  function ResumeCall<D>(m: Mode<D>, sh: Shared, l: Local<D>, reply: Reply<D>): Config<D>
    requires l.Calling?
  {
    var state := Reread(sh);
    if reply.error.None? && reply.decision.Some? then
      var verdict := Judge(m, state, reply.decision.value);
      match verdict
      case Valid => Config(Record(sh, Attempt(m.key, l.kind, reply.status, false)),
          Answered(reply.decision.value, l.attempts + 1))
      case Refused(kind) =>
        var recorded := Record(sh, Attempt(m.key, l.kind, Invalid, false));
        if kind.OutOfBudget? then Config(recorded, Aborted(OutOfBudget, BudgetExhausted, l.attempts + 1))
        else RepairOrFallback(m, recorded, l, kind)
    else
      var recorded := Record(sh, Attempt(m.key, l.kind, reply.status, false));
      match reply.error
      case Some(Timeout) => RetryOrFallback(m, recorded, l, ModelTimeout)
      case Some(Provider) => RetryOrFallback(m, recorded, l, ModelProviderFailure)
      case Some(Truncated) => RepairOrFallback(m, recorded, l, FailureKind.OutputTruncated)
      case _ => RepairOrFallback(m, recorded, l, InvalidModelOutput)
  }

  /** From the await of the fallback client to the end. */
  function ResumeFallback<D>(m: Mode<D>, sh: Shared, l: Local<D>, reply: Reply<D>): Config<D>
    requires l.FallingBack?
  {
    var state := Reread(sh);
    if reply.error.Some? || reply.decision.None? then
      Config(Record(sh, Attempt(m.key, Primary, reply.status, true)), Aborted(l.reason, Failed, l.attempts))
    else if Judge(m, state, reply.decision.value).Valid? then
      Config(Record(sh, Attempt(m.key, Primary, reply.status, true)), Answered(reply.decision.value, l.attempts))
    else
      Config(Record(sh, Attempt(m.key, Primary, Invalid, true)), Aborted(l.reason, Failed, l.attempts))
  }

  function Resume<D>(m: Mode<D>, sh: Shared, l: Local<D>, reply: Reply<D>): Config<D>
    requires Waiting(l)
  {
    if l.Calling? then ResumeCall(m, sh, l, reply) else ResumeFallback(m, sh, l, reply)
  }

  /** Whatever copy was held across an await, nothing is decided or written from it. */
  lemma HeldCopiesAreDropped<D>(m: Mode<D>, sh: Shared, l: Local<D>, other: Snapshot, reply: Reply<D>)
    requires Waiting(l)
    ensures Resume(m, sh, l.(held := other), reply) == Resume(m, sh, l, reply)
  {
    hide NextAttempt, Fallback, Record, Judge;
  }

  /** The retries that this call may still take. */
  function RetriesLeft<D>(m: Mode<D>, state: Snapshot, retried: nat): nat {
    if m.advisory then (if retried <= state.maxRetries then state.maxRetries - retried else 0)
    else (if state.retries <= state.maxRetries then state.maxRetries - state.retries else 0)
  }

  /** How many replies the call can still consume. */
  function Remaining<D>(m: Mode<D>, sh: Shared, l: Local<D>): nat {
    match l
    case Calling(_, kind, _, _, retried) => (if kind.Primary? then 3 else 2) + RetriesLeft(m, sh.store, retried)
    case FallingBack(_, _, _) => 1
    case _ => 0
  }

  lemma FallbackShrinks<D>(m: Mode<D>, sh: Shared, failure: FailureKind, attempts: nat)
    ensures var c := Fallback(m, sh, failure, attempts); Remaining(m, c.sh, c.l) <= 1
  {
  }

  lemma NextShrinks<D>(m: Mode<D>, sh: Shared, kind: AttemptKind, failure: Option<FailureKind>,
      attempts: nat, retried: nat)
    ensures var c := NextAttempt(m, sh, kind, failure, attempts, retried);
      Remaining(m, c.sh, c.l) <= (if kind.Primary? then 3 else 2) + RetriesLeft(m, sh.store, retried)
  {
  }

  lemma RepairShrinks<D>(m: Mode<D>, sh: Shared, l: Local<D>, kind: FailureKind)
    requires l.Calling?
    ensures var c := RepairOrFallback(m, sh, l, kind); Remaining(m, c.sh, c.l) < Remaining(m, sh, l)
  {
    hide NextAttempt, Fallback;
    var failure := if l.failure.Some? then l.failure.value else kind;
    NextShrinks(m, sh, Repair, Some(failure), l.attempts + 1, l.retried);
    FallbackShrinks(m, sh, failure, l.attempts + 1);
  }

  lemma RetryShrinks<D>(m: Mode<D>, sh: Shared, l: Local<D>, kind: FailureKind)
    requires l.Calling?
    ensures var c := RetryOrFallback(m, sh, l, kind); Remaining(m, c.sh, c.l) < Remaining(m, sh, l)
  {
    hide NextAttempt, Fallback;
    var state := Reread(sh);
    if m.advisory {
      NextShrinks(m, sh, l.kind, l.failure, l.attempts + 1, l.retried + 1);
    } else {
      NextShrinks(m, Retried(sh, state, kind), l.kind, l.failure, l.attempts + 1, l.retried);
      FallbackShrinks(m, sh, kind, l.attempts + 1);
    }
  }

  lemma RecordShrinks<D>(m: Mode<D>, sh: Shared, a: Attempt, l: Local<D>)
    ensures Remaining(m, Record(sh, a), l) == Remaining(m, sh, l)
  {
    hide Derive;
  }

  /** Every reply brings a call closer to its end. */
  lemma ResumeShrinks<D>(m: Mode<D>, sh: Shared, l: Local<D>, reply: Reply<D>)
    requires Waiting(l)
    ensures var c := Resume(m, sh, l, reply); Remaining(m, c.sh, c.l) < Remaining(m, sh, l)
  {
    hide RepairOrFallback, RetryOrFallback, Record, Judge, RetriesLeft, Reread;
    if l.Calling? {
      var state := Reread(sh);
      forall a: Attempt, kind: FailureKind
        ensures Remaining(m, Record(sh, a), l) == Remaining(m, sh, l)
        ensures var c := RepairOrFallback(m, Record(sh, a), l, kind);
          Remaining(m, c.sh, c.l) < Remaining(m, sh, l)
        ensures var c := RetryOrFallback(m, Record(sh, a), l, kind);
          Remaining(m, c.sh, c.l) < Remaining(m, sh, l)
      {
        RecordShrinks(m, sh, a, l);
        RepairShrinks(m, Record(sh, a), l, kind);
        RetryShrinks(m, Record(sh, a), l, kind);
      }
    }
  }

  // ---- one call on its own ----

  /** The rest of a call that nobody interferes with; `client(n)` is the n-th reply. */
  function Finish<D>(m: Mode<D>, c: Config<D>, client: nat -> Reply<D>, n: nat): Config<D>
    decreases Remaining(m, c.sh, c.l)
  {
    if !Waiting(c.l) then c
    else
      ResumeShrinks(m, c.sh, c.l, client(n));
      Finish(m, Resume(m, c.sh, c.l, client(n)), client, n + 1)
  }

  lemma FinishEnds<D>(m: Mode<D>, c: Config<D>, client: nat -> Reply<D>, n: nat)
    requires !Waiting(c.l)
    ensures Finish(m, c, client, n) == c
  {
  }

  /** One turn of the loop: the head, the await, and what the reply leads to. */
  lemma FinishTurn<D>(
      m: Mode<D>, sh: Shared, kind: AttemptKind, failure: Option<FailureKind>, n: nat, retried: nat,
          client: nat -> Reply<D>)
    ensures var own := Reread(sh); var next := Charge(sh, own);
      var l: Local<D> := Calling(next.store, kind, failure, n, retried);
      Finish(m, NextAttempt(m, sh, kind, failure, n, retried), client, n) ==
        if m.limit.Some? && m.limit.value <= n then Config(sh, Aborted(RoleCallLimit, Failed, n))
        else if own.maxCalls <= own.calls then Config(sh, Aborted(OutOfBudget, BudgetExhausted, n))
        else Finish(m, ResumeCall(m, next, l, client(n)), client, n + 1)
  {
    hide ResumeCall, Charge;
  }

  /** The same for the one call of the fallback. */
  lemma FinishFallback<D>(m: Mode<D>, sh: Shared, failure: FailureKind, n: nat, client: nat -> Reply<D>)
    ensures var own := Reread(sh); var next := Charge(sh, own);
      var l: Local<D> := FallingBack(next.store, failure, n);
      Finish(m, Fallback(m, sh, failure, n), client, n) ==
        if !m.fallback then Config(sh, Aborted(failure, Failed, n))
        else if own.maxCalls <= own.calls then Config(sh, Aborted(OutOfBudget, BudgetExhausted, n))
        else ResumeFallback(m, next, l, client(n))
  {
    hide Record, Judge, Charge;
  }
}
