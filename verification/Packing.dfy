/** Packing evidence into a model's context: what is required always, then the
    newest records as long as the packet fits. */
module Packing {
  import opened Domain
  import opened Store
  import opened Policy
  import opened Nodes
  import opened Invariant
  import opened PacketSize

  /** The length of the packet without its size field, for a selection of
      records, given by their indices, and of hypotheses. */
  type Base = (seq<nat>, seq<Hypothesis>) -> nat

  datatype Assembled =
    | Context(selected: seq<nat>, hypotheses: seq<Hypothesis>, size: nat)
    | InvalidLimit
    | TooLarge
    | FieldCeiling

  /** The serialized length of the finished packet. */
  function Size(base: Base, selected: seq<nat>, hypotheses: seq<Hypothesis>): nat {
    Pass(base(selected, hypotheses), 3)
  }

  /** Codes whose records are always shown. */
  const CRITICAL: set<Code> := {
    CleanPlanetLike, OddEvenMismatch, SecondaryEclipseDetected, ContaminationLikely, ContaminationPossible,
    HarmonicAliasPreferred, WeakNoisy}

  /** `_required_evidence_ids`. */
  predicate Required(s: State, e: Evidence) {
    (exists c, n :: c in s.candidates && n in c.measurements && c.measurements[n].source == e.id)
    || (e.result.code.Some? && e.result.code.value in CRITICAL)
  }

  /** The first occurrences, in order. */
  function Dedupe(hs: seq<Hypothesis>): seq<Hypothesis> {
    if hs == [] then []
    else
      var init := Dedupe(hs[..|hs| - 1]);
      if hs[|hs| - 1] in hs[..|hs| - 1] then init else init + [hs[|hs| - 1]]
  }

  function RequiredAt(s: State, ordered: seq<Evidence>, n: nat): seq<nat>
    requires n <= |ordered|
  {
    if n == 0 then [] else RequiredAt(s, ordered, n - 1) + (if Required(s, ordered[n - 1]) then [n - 1] else [])
  }

  /** The other records, newest first. */
  function OptionalAt(s: State, ordered: seq<Evidence>, n: nat): seq<nat>
    requires n <= |ordered|
  {
    if n == 0 then [] else (if Required(s, ordered[n - 1]) then [] else [n - 1]) + OptionalAt(s, ordered, n - 1)
  }

  /** Insert a record at its place in ledger order. */
  function Insert(sel: seq<nat>, i: nat): seq<nat> {
    if sel == [] || sel[|sel| - 1] < i then sel + [i]
    else Insert(sel[..|sel| - 1], i) + [sel[|sel| - 1]]
  }

  predicate Increasing(sel: seq<nat>) { forall i, j :: 0 <= i < j < |sel| ==> sel[i] < sel[j] }

  datatype Trimmed = Fits(hypotheses: seq<Hypothesis>) | Ceiling | Hopeless

  /** Drop hypotheses from the end until the required evidence fits. */
  function Trim(base: Base, required: seq<nat>, hs: seq<Hypothesis>, max: nat): Trimmed {
    if Size(base, required, hs) > MAX_SERIALIZED_CONTEXT_BYTES then Ceiling
    else if Size(base, required, hs) <= max then Fits(hs)
    else if hs == [] then Hopeless
    else Trim(base, required, hs[..|hs| - 1], max)
  }

  /** Try optional records one by one, keeping those with which the packet fits. */
  function Grow(base: Base, hs: seq<Hypothesis>, max: nat, sel: seq<nat>, tries: seq<nat>): Option<seq<nat>>
    decreases |tries|
  {
    if tries == [] then Some(sel)
    else
      var size := Size(base, Insert(sel, tries[0]), hs);
      if size > MAX_SERIALIZED_CONTEXT_BYTES then None
      else Grow(base, hs, max, if size <= max then Insert(sel, tries[0]) else sel, tries[1..])
  }

  /** The records that are tried: as many of the newest as there are free slots. */
  function Tried(s: State, ordered: seq<Evidence>, limit: nat): seq<nat> {
    var required, optional := RequiredAt(s, ordered, |ordered|), OptionalAt(s, ordered, |ordered|);
    var slots := if |required| < limit then limit - |required| else 0;
    optional[..if slots < |optional| then slots else |optional|]
  }

  function Assembly(base: Base, s: State, ordered: seq<Evidence>, limit: int, max: int): Assembled {
    if limit < 0 || max <= 0 || MAX_SERIALIZED_CONTEXT_BYTES < max then InvalidLimit
    else
      var required := RequiredAt(s, ordered, |ordered|);
      match Trim(base, required, Dedupe(s.hypotheses), max)
      case Ceiling => FieldCeiling
      case Hopeless => TooLarge
      case Fits(hs) =>
        match Grow(base, hs, max, required, Tried(s, ordered, limit))
        case None => FieldCeiling
        case Some(sel) => Context(sel, hs, Size(base, sel, hs))
  }

  /** `assemble_context`. */
  method Assemble(base: Base, s: State, ordered: seq<Evidence>, limit: int, max: int) returns (r: Assembled)
    ensures r == Assembly(base, s, ordered, limit, max)
    ensures r.InvalidLimit? <==> limit < 0 || max <= 0 || max > MAX_SERIALIZED_CONTEXT_BYTES
  {
    hide Grow, Insert, Tried, RequiredAt, Dedupe;
    if limit < 0 || max <= 0 || max > MAX_SERIALIZED_CONTEXT_BYTES { return InvalidLimit; }
    var required := RequiredAt(s, ordered, |ordered|);
    var hypotheses := Dedupe(s.hypotheses);
    var packet := FinalizePacket(base(required, hypotheses), MAX_SERIALIZED_CONTEXT_BYTES);
    while packet.Packet? && packet.recorded > max && hypotheses != []
      invariant Trim(base, required, hypotheses, max) == Trim(base, required, Dedupe(s.hypotheses), max)
      invariant packet ==
        if Size(base, required, hypotheses) <= MAX_SERIALIZED_CONTEXT_BYTES
        then Packet(Size(base, required, hypotheses), false) else AboveCeiling
      decreases |hypotheses|
    {
      hypotheses := hypotheses[..|hypotheses| - 1];
      packet := FinalizePacket(base(required, hypotheses), MAX_SERIALIZED_CONTEXT_BYTES);
    }
    if packet.AboveCeiling? { return FieldCeiling; }
    if packet.recorded > max { return TooLarge; }
    var selected, tries, i := required, Tried(s, ordered, limit), 0;
    while i < |tries|
      invariant 0 <= i <= |tries|
      invariant Grow(base, hypotheses, max, selected, tries[i..]) == Grow(base, hypotheses, max, required, tries)
      invariant packet == Packet(Size(base, selected, hypotheses), false)
    {
      GrowStep(base, hypotheses, max, selected, tries[i..]);
      assert tries[i..][1..] == tries[i + 1..];
      var larger := Insert(selected, tries[i]);
      var tried := FinalizePacket(base(larger, hypotheses), MAX_SERIALIZED_CONTEXT_BYTES);
      if tried.AboveCeiling? { return FieldCeiling; }
      if tried.recorded <= max { selected, packet := larger, tried; }
      i := i + 1;
    }
    GrowEnd(base, hypotheses, max, selected);
    assert tries[i..] == [] && Trim(base, required, hypotheses, max) == Fits(hypotheses);
    assert Grow(base, hypotheses, max, required, tries) == Some(selected);
    return Context(selected, hypotheses, packet.recorded);
  }

  lemma GrowStep(base: Base, hs: seq<Hypothesis>, max: nat, sel: seq<nat>, tries: seq<nat>)
    requires tries != []
    ensures Grow(base, hs, max, sel, tries) ==
      if Size(base, Insert(sel, tries[0]), hs) > MAX_SERIALIZED_CONTEXT_BYTES then None
      else if Size(base, Insert(sel, tries[0]), hs) <= max then Grow(base, hs, max, Insert(sel, tries[0]), tries[1..])
      else Grow(base, hs, max, sel, tries[1..])
  {
  }

  lemma GrowEnd(base: Base, hs: seq<Hypothesis>, max: nat, sel: seq<nat>)
    ensures Grow(base, hs, max, sel, []) == Some(sel)
  {
  }

  // ---- what a packet contains ----

  lemma {:induction false} InsertKeeps(sel: seq<nat>, i: nat)
    requires Increasing(sel) && i !in sel
    ensures Increasing(Insert(sel, i)) && |Insert(sel, i)| == |sel| + 1
    ensures forall x :: x in Insert(sel, i) <==> x == i || x in sel
  {
    if sel != [] && !(sel[|sel| - 1] < i) {
      var init, last := sel[..|sel| - 1], sel[|sel| - 1];
      InsertKeeps(init, i);
      assert sel == init + [last];
      var r := Insert(init, i);
      forall k | 0 <= k < |r| ensures r[k] < last { assert r[k] == i || r[k] in init; }
    }
  }

  lemma {:induction false} RequiredAre(s: State, ordered: seq<Evidence>, n: nat)
    requires n <= |ordered|
    ensures Increasing(RequiredAt(s, ordered, n))
    ensures forall i :: i in RequiredAt(s, ordered, n) <==> 0 <= i < n && Required(s, ordered[i])
  {
    hide Required;
    if n > 0 {
      RequiredAre(s, ordered, n - 1);
      var init := RequiredAt(s, ordered, n - 1);
      forall i | 0 <= i < |init| ensures init[i] < n - 1 { assert init[i] in init; }
    }
  }

  lemma {:induction false} OptionalAre(s: State, ordered: seq<Evidence>, n: nat)
    requires n <= |ordered|
    ensures forall i :: i in OptionalAt(s, ordered, n) <==> 0 <= i < n && !Required(s, ordered[i])
    ensures forall i, j :: 0 <= i < j < |OptionalAt(s, ordered, n)| ==>
      OptionalAt(s, ordered, n)[i] > OptionalAt(s, ordered, n)[j]
  {
    hide Required;
    if n > 0 {
      OptionalAre(s, ordered, n - 1);
      var rest := OptionalAt(s, ordered, n - 1);
      forall j | 0 <= j < |rest| ensures rest[j] < n - 1 { assert rest[j] in rest; }
    }
  }

  /** A larger selection is never shorter. */
  ghost predicate Monotone(base: Base) {
    forall a, b, hs :: Included(a, b) ==> base(a, hs) <= base(b, hs)
  }

  predicate Included(a: seq<nat>, b: seq<nat>) { Increasing(a) && Increasing(b) && forall x :: x in a ==> x in b }

  predicate NoRepeats(xs: seq<nat>) { forall i, j :: 0 <= i < j < |xs| ==> xs[i] != xs[j] }

  lemma {:induction false} PassMonotone(a: nat, b: nat, k: nat)
    requires a <= b
    ensures Pass(a, k) <= Pass(b, k)
  {
    if k > 0 {
      PassMonotone(a, b, k - 1);
      DigitsMonotone(Pass(a, k - 1), Pass(b, k - 1));
    }
  }

  predicate Tells(base: Base, hs: seq<Hypothesis>, max: nat, sel: seq<nat>, tries: seq<nat>) {
    forall t :: t in tries && t !in sel ==> Size(base, Insert(sel, t), hs) > max
  }

  /** The greedy loop keeps what it has, adds at most what it tries, fits, and
      rejects nothing that would still fit at the end. */
  lemma {:induction false} GrowMeets(base: Base, hs: seq<Hypothesis>, max: nat, sel: seq<nat>, tries: seq<nat>)
    requires Monotone(base) && Increasing(sel) && NoRepeats(tries) && Size(base, sel, hs) <= max
      && Grow(base, hs, max, sel, tries).Some?
    requires forall t :: t in tries ==> t !in sel
    ensures var r := Grow(base, hs, max, sel, tries).value;
      && Included(sel, r) && |r| <= |sel| + |tries| && Size(base, r, hs) <= max && Tells(base, hs, max, r, tries)
      && forall x :: x in r ==> x in sel || x in tries
    decreases |tries|
  {
    hide Size, Insert, Monotone, Increasing;
    if tries != [] {
      var t := tries[0];
      InsertKeeps(sel, t);
      var larger := Insert(sel, t);
      var next := if Size(base, larger, hs) <= max then larger else sel;
      GrowMeets(base, hs, max, next, tries[1..]);
      var r := Grow(base, hs, max, next, tries[1..]).value;
      if t !in r {
        assert next == sel;
        InsertKeeps(r, t);
        SizeMonotone(base, larger, Insert(r, t), hs);
      }
      forall u | u in tries && u !in r ensures Size(base, Insert(r, u), hs) > max {
        if u != t { assert u in tries[1..]; }
      }
    }
  }

  lemma SizeMonotone(base: Base, a: seq<nat>, b: seq<nat>, hs: seq<Hypothesis>)
    requires Monotone(base) && Included(a, b)
    ensures Size(base, a, hs) <= Size(base, b, hs)
  {
    PassMonotone(base(a, hs), base(b, hs), 3);
  }

  lemma {:induction false} TrimMeets(base: Base, required: seq<nat>, hs: seq<Hypothesis>, max: nat)
    ensures var t := Trim(base, required, hs, max);
      && (t.Fits? ==> t.hypotheses <= hs && Size(base, required, t.hypotheses) <= max)
      && (t.Fits? ==> forall n :: |t.hypotheses| < n <= |hs| ==> Size(base, required, hs[..n]) > max)
      && (t.Hopeless? ==> max < Size(base, required, []) <= MAX_SERIALIZED_CONTEXT_BYTES)
      && (max == MAX_SERIALIZED_CONTEXT_BYTES ==> t == if Size(base, required, hs) <= max then Fits(hs) else Ceiling)
  {
    hide Size;
    if max < Size(base, required, hs) <= MAX_SERIALIZED_CONTEXT_BYTES && hs != [] {
      var init := hs[..|hs| - 1];
      TrimMeets(base, required, init, max);
      var t := Trim(base, required, init, max);
      if t.Fits? {
        forall n | |t.hypotheses| < n <= |hs| ensures Size(base, required, hs[..n]) > max {
          if n == |hs| { assert hs[..n] == hs; } else { assert init[..n] == hs[..n]; }
        }
      }
    }
  }

  /** How many records newer than `i` are optional, and how many are required at all. */
  ghost function Newer(s: State, ordered: seq<Evidence>, i: nat): nat {
    |set j | i < j < |ordered| && !Required(s, ordered[j])|
  }

  ghost function AllRequired(s: State, ordered: seq<Evidence>): nat {
    |set j | 0 <= j < |ordered| && Required(s, ordered[j])|
  }

  /** An optional record has a turn if the free slots reach to it from the newest. */
  ghost predicate HasTurn(s: State, ordered: seq<Evidence>, limit: nat, i: nat) {
    i < |ordered| && !Required(s, ordered[i]) && AllRequired(s, ordered) + Newer(s, ordered, i) < limit
  }

  /** A record that must be shown: it is quoted by a candidate, or its code is one
      that the rules know. */
  lemma RequiredMeans(s: State, e: Evidence)
    ensures Required(s, e) <==>
      || (exists c, n :: c in s.candidates && n in c.measurements && c.measurements[n].source == e.id)
      || (e.result.code.Some? && !e.result.code.value.OtherCode?)
  {
  }

  /** The hypotheses shown are all, each once, in the order in which they appear. */
  lemma {:induction false} DedupeIs(hs: seq<Hypothesis>)
    ensures forall h :: h in Dedupe(hs) <==> h in hs
    ensures forall i, j :: 0 <= i < j < |Dedupe(hs)| ==> Dedupe(hs)[i] != Dedupe(hs)[j]
    ensures forall n :: 0 <= n <= |hs| ==> Dedupe(hs[..n]) <= Dedupe(hs)
  {
    if hs != [] {
      var init, last := hs[..|hs| - 1], hs[|hs| - 1];
      assert hs == init + [last];
      DedupeIs(init);
      forall n | 0 <= n <= |hs| ensures Dedupe(hs[..n]) <= Dedupe(hs) {
        if n < |hs| { assert hs[..n] == init[..n]; } else { assert hs[..n] == hs; }
      }
    }
  }

  lemma {:induction false} RequiredCount(s: State, ordered: seq<Evidence>, n: nat)
    requires n <= |ordered|
    ensures |RequiredAt(s, ordered, n)| == |set j | 0 <= j < n && Required(s, ordered[j])|
  {
    hide Required;
    var all := set j | 0 <= j < n && Required(s, ordered[j]);
    if n > 0 {
      RequiredCount(s, ordered, n - 1);
      var init := set j | 0 <= j < n - 1 && Required(s, ordered[j]);
      assert all == init + (if Required(s, ordered[n - 1]) then {n - 1} else {});
    } else {
      assert all == {};
    }
  }

  /** The k-th optional record has exactly k newer ones. */
  lemma {:induction false} OptionalPlace(s: State, ordered: seq<Evidence>, n: nat, i: nat)
    requires n <= |ordered| && i < n && !Required(s, ordered[i])
    ensures var newer := |set j | i < j < n && !Required(s, ordered[j])|;
      newer < |OptionalAt(s, ordered, n)| && OptionalAt(s, ordered, n)[newer] == i
  {
    hide Required;
    var newer := set j | i < j < n && !Required(s, ordered[j]);
    if i < n - 1 {
      OptionalPlace(s, ordered, n - 1, i);
      var rest := set j | i < j < n - 1 && !Required(s, ordered[j]);
      assert newer == rest + (if Required(s, ordered[n - 1]) then {} else {n - 1});
    } else {
      assert newer == {};
    }
  }

  /** Exactly the records that have a turn are tried. */
  lemma TriedAre(s: State, ordered: seq<Evidence>, limit: nat)
    ensures forall i :: i in Tried(s, ordered, limit) <==> HasTurn(s, ordered, limit, i)
  {
    hide Required;
    var optional := OptionalAt(s, ordered, |ordered|);
    RequiredCount(s, ordered, |ordered|);
    OptionalAre(s, ordered, |ordered|);
    forall i: nat ensures i in Tried(s, ordered, limit) <==> HasTurn(s, ordered, limit, i) {
      if i < |ordered| && !Required(s, ordered[i]) {
        OptionalPlace(s, ordered, |ordered|, i);
        assert optional[Newer(s, ordered, i)] == i;
        if i in Tried(s, ordered, limit) {
          var k :| 0 <= k < |Tried(s, ordered, limit)| && Tried(s, ordered, limit)[k] == i;
          assert optional[k] == i;
        }
        if HasTurn(s, ordered, limit, i) { assert Tried(s, ordered, limit)[Newer(s, ordered, i)] == i; }
      }
      assert i in Tried(s, ordered, limit) ==> i in optional;
    }
  }

  /** Exactly when assembling fails: no packet is small enough with any number of
      hypotheses, and none is beyond the ceiling before that shows. */
  lemma {:induction false} TrimFails(base: Base, required: seq<nat>, hs: seq<Hypothesis>, max: nat)
    ensures Trim(base, required, hs, max).Hopeless? <==>
      forall n :: 0 <= n <= |hs| ==> max < Size(base, required, hs[..n]) <= MAX_SERIALIZED_CONTEXT_BYTES
  {
    hide Size;
    assert hs[..|hs|] == hs;
    if hs != [] {
      var init := hs[..|hs| - 1];
      TrimFails(base, required, init, max);
      forall n | 0 <= n < |hs| ensures hs[..n] == init[..n] { }
      if max < Size(base, required, hs) <= MAX_SERIALIZED_CONTEXT_BYTES {
        assert Trim(base, required, hs, max) == Trim(base, required, init, max);
        if Trim(base, required, init, max).Hopeless? {
          forall n | 0 <= n <= |hs|
            ensures max < Size(base, required, hs[..n]) <= MAX_SERIALIZED_CONTEXT_BYTES
          {
            if n < |hs| { assert hs[..n] == init[..n]; }
          }
        }
        if forall n :: 0 <= n <= |hs| ==> max < Size(base, required, hs[..n]) <= MAX_SERIALIZED_CONTEXT_BYTES {
          forall n | 0 <= n <= |init|
            ensures max < Size(base, required, init[..n]) <= MAX_SERIALIZED_CONTEXT_BYTES
          {
            assert hs[..n] == init[..n];
          }
        }
      }
    }
  }

  /** Every packet fits, shows all required evidence in ledger order, at most
      `limit` records unless more are required, keeps the longest prefix of the
      hypotheses that fits, and could take no record that it tried and left out. */
  lemma PacketsArePacked(base: Base, s: State, ordered: seq<Evidence>, limit: int, max: int)
    requires Monotone(base) && Assembly(base, s, ordered, limit, max).Context?
    ensures var p := Assembly(base, s, ordered, limit, max); var required := RequiredAt(s, ordered, |ordered|);
      && p.size == Serialized(base(p.selected, p.hypotheses), p.size) <= max
      && Increasing(p.selected) && (forall i :: i in p.selected ==> i < |ordered|)
      && (forall i :: 0 <= i < |ordered| && Required(s, ordered[i]) ==> i in p.selected)
      && |p.selected| <= (if |required| < limit then limit else |required|)
      && p.hypotheses <= Dedupe(s.hypotheses)
      && (forall n :: |p.hypotheses| < n <= |Dedupe(s.hypotheses)| ==>
          Size(base, required, Dedupe(s.hypotheses)[..n]) > max)
      && Tells(base, p.hypotheses, max, p.selected, Tried(s, ordered, limit))
      && (forall i :: i in p.selected ==> Required(s, ordered[i]) || HasTurn(s, ordered, limit, i))
      && (forall i :: HasTurn(s, ordered, limit, i) && i !in p.selected ==>
            Size(base, Insert(p.selected, i), p.hypotheses) > max)
  {
    hide Monotone, Required, Insert, Grow, Trim, Dedupe;
    var required := RequiredAt(s, ordered, |ordered|);
    var optional := OptionalAt(s, ordered, |ordered|);
    var tries := Tried(s, ordered, limit);
    RequiredAre(s, ordered, |ordered|);
    OptionalAre(s, ordered, |ordered|);
    forall t | t in tries ensures t !in required && t < |ordered| { assert t in optional; }
    var p := Assembly(base, s, ordered, limit, max);
    TrimMeets(base, required, Dedupe(s.hypotheses), max);
    GrowMeets(base, p.hypotheses, max, required, tries);
    TriedAre(s, ordered, limit);
    FourPassesSuffice(base(p.selected, p.hypotheses));
  }

  /** With the ceiling of the size field as its limit, which is the default, the
      packet is never trimmed and nothing is left out: what does not fit fails. */
  lemma NothingIsTrimmedAtTheCeiling(base: Base, s: State, ordered: seq<Evidence>, limit: int)
    requires Monotone(base)
    ensures var p := Assembly(base, s, ordered, limit, MAX_SERIALIZED_CONTEXT_BYTES);
      && !p.TooLarge?
      && (p.Context? ==>
          p.hypotheses == Dedupe(s.hypotheses) && forall t :: HasTurn(s, ordered, limit, t) ==> t in p.selected)
  {
    hide Monotone, Required, Insert, Grow, Trim, Dedupe, Size;
    var max := MAX_SERIALIZED_CONTEXT_BYTES;
    var required := RequiredAt(s, ordered, |ordered|);
    TrimMeets(base, required, Dedupe(s.hypotheses), max);
    var p := Assembly(base, s, ordered, limit, max);
    if p.Context? {
      RequiredAre(s, ordered, |ordered|);
      OptionalAre(s, ordered, |ordered|);
      forall t | t in Tried(s, ordered, limit) ensures t !in required { assert t in OptionalAt(s, ordered, |ordered|); }
      GrowAll(base, p.hypotheses, required, Tried(s, ordered, limit));
      TriedAre(s, ordered, limit);
    }
  }

  lemma {:induction false} GrowAll(base: Base, hs: seq<Hypothesis>, sel: seq<nat>, tries: seq<nat>)
    requires Increasing(sel) && NoRepeats(tries) && Grow(base, hs, MAX_SERIALIZED_CONTEXT_BYTES, sel, tries).Some?
    requires forall t :: t in tries ==> t !in sel
    ensures var r := Grow(base, hs, MAX_SERIALIZED_CONTEXT_BYTES, sel, tries).value;
      (forall t :: t in tries ==> t in r) && forall x :: x in sel ==> x in r
    decreases |tries|
  {
    hide Size, Insert;
    if tries != [] {
      InsertKeeps(sel, tries[0]);
      GrowAll(base, hs, Insert(sel, tries[0]), tries[1..]);
      forall t | t in tries ensures t in Grow(base, hs, MAX_SERIALIZED_CONTEXT_BYTES, sel, tries).value {
        if t != tries[0] { assert t in tries[1..]; }
      }
    }
  }

  // ---- the order of the ledger ----

  /** The records that the snapshot refers to, in the order of its references. */
  function Referred(refs: seq<EvidenceId>, ledger: seq<Evidence>): seq<Evidence> {
    if refs == [] then []
    else
      var found := RecordById(ledger, refs[|refs| - 1]);
      Referred(refs[..|refs| - 1], ledger) + (if found.Some? then [found.value] else [])
  }

  function Unreferred(refs: seq<EvidenceId>, ledger: seq<Evidence>): seq<Evidence> {
    if ledger == [] then []
    else
      var last := ledger[|ledger| - 1];
      Unreferred(refs, ledger[..|ledger| - 1]) + (if last.id in refs then [] else [last])
  }

  lemma {:induction false} FoundAt(ledger: seq<Evidence>, i: nat)
    requires i < |ledger| && forall j, k :: 0 <= j < k < |ledger| ==> ledger[j].id != ledger[k].id
    ensures RecordById(ledger, ledger[i].id) == Some(ledger[i])
  {
    if i < |ledger| - 1 { FoundAt(ledger[..|ledger| - 1], i); }
  }

  lemma {:induction false} ReferredAre(refs: seq<EvidenceId>, ledger: seq<Evidence>, n: nat)
    requires n <= |refs| <= |ledger| && forall i :: 0 <= i < |refs| ==> refs[i] == ledger[i].id
    requires forall j, k :: 0 <= j < k < |ledger| ==> ledger[j].id != ledger[k].id
    ensures Referred(refs[..n], ledger) == ledger[..n]
  {
    if n > 0 {
      ReferredAre(refs, ledger, n - 1);
      assert refs[..n][..n - 1] == refs[..n - 1];
      FoundAt(ledger, n - 1);
      assert ledger[..n] == ledger[..n - 1] + [ledger[n - 1]];
    }
  }

  predicate IdsOf(refs: seq<EvidenceId>, ledger: seq<Evidence>) {
    && |refs| <= |ledger| && (forall i :: 0 <= i < |refs| ==> refs[i] == ledger[i].id)
    && (forall j, k :: 0 <= j < k < |ledger| ==> ledger[j].id != ledger[k].id)
  }

  lemma ReferredTo(refs: seq<EvidenceId>, ledger: seq<Evidence>, n: nat)
    requires IdsOf(refs, ledger) && n < |ledger|
    ensures ledger[n].id in refs <==> n < |refs|
  {
    if n < |refs| { assert refs[n] == ledger[n].id; }
  }

  lemma {:induction false} UnreferredAre(refs: seq<EvidenceId>, ledger: seq<Evidence>, n: nat)
    requires IdsOf(refs, ledger) && n <= |ledger|
    ensures Unreferred(refs, ledger[..n]) == if n <= |refs| then [] else ledger[|refs|..n]
  {
    hide IdsOf, Unreferred;
    ShorterRefs(refs, ledger);
    if n == 0 {
      UnreferredNone(refs);
    } else {
      UnreferredAre(refs, ledger, n - 1);
      ReferredTo(refs, ledger, n - 1);
      UnreferredPush(refs, ledger[..n - 1], ledger[n - 1]);
      assert ledger[..n] == ledger[..n - 1] + [ledger[n - 1]];
      if n > |refs| { assert ledger[|refs|..n] == ledger[|refs|..n - 1] + [ledger[n - 1]]; }
    }
  }

  lemma UnreferredNone(refs: seq<EvidenceId>)
    ensures Unreferred(refs, []) == []
  {
  }

  lemma UnreferredPush(refs: seq<EvidenceId>, ledger: seq<Evidence>, e: Evidence)
    ensures Unreferred(refs, ledger + [e]) == Unreferred(refs, ledger) + (if e.id in refs then [] else [e])
  {
    assert (ledger + [e])[..|ledger|] == ledger;
  }

  lemma ShorterRefs(refs: seq<EvidenceId>, ledger: seq<Evidence>)
    requires IdsOf(refs, ledger)
    ensures |refs| <= |ledger|
  {
  }

  lemma IdsAgree(env: Env, d: Disk)
    requires Inv(env, d)
    ensures |d.state.evidenceRefs| <= |d.ledger| <= |d.state.evidenceRefs| + 1
    ensures forall i :: 0 <= i < |d.state.evidenceRefs| ==> d.state.evidenceRefs[i] == d.ledger[i].id
    ensures forall j, k :: 0 <= j < k < |d.ledger| ==> d.ledger[j].id != d.ledger[k].id
  {
    hide Replay, Roles, Proposal, Spent, Working, Account, AllAllowed, Reasons, Verdicts, Authority, Budgets,
      ValidSnapshot, Executions;
    var refs := d.state.evidenceRefs;
    forall i | 0 <= i < |refs| ensures refs[i] == d.ledger[i].id {
      assert Referenced(refs[i], d.ledger[i], d.state.executions[i]);
    }
    forall j, k | 0 <= j < k < |d.ledger| ensures d.ledger[j].id != d.ledger[k].id {
      assert Answers(env, d.ledger[j], d.state.executions[j], j);
      assert Answers(env, d.ledger[k], d.state.executions[k], k);
    }
  }

  /** `_ordered_evidence` returns the ledger as it is: references come in ledger
      order, and at most one record is not referred to, so that nothing is sorted. */
  lemma EvidenceIsLedgerOrdered(env: Env, d: Disk)
    requires Inv(env, d)
    ensures Referred(d.state.evidenceRefs, d.ledger) + Unreferred(d.state.evidenceRefs, d.ledger) == d.ledger
    ensures |Unreferred(d.state.evidenceRefs, d.ledger)| <= 1
  {
    hide Inv, Referred, Unreferred, RecordById;
    var refs := d.state.evidenceRefs;
    IdsAgree(env, d);
    ReferredAre(refs, d.ledger, |refs|);
    UnreferredAre(refs, d.ledger, |d.ledger|);
    assert refs[..|refs|] == refs && d.ledger[..|d.ledger|] == d.ledger;
  }
}
