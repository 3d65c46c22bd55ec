/** Event delivery: the server replays a growing trace from an offset, and a
    subscriber that may reconnect accepts each event once, in order. */
module Streaming {
  import opened Domain
  import opened Invariant

  /** The events after an offset. */
  function After(trace: seq<Event>, offset: nat): seq<Event> { if offset <= |trace| then trace[offset..] else [] }

  predicate Growing(polls: seq<seq<Event>>) {
    && (forall i :: 0 <= i < |polls| ==> Numbered(polls[i]))
    && (forall i, j :: 0 <= i < j < |polls| ==> polls[i] <= polls[j])
  }

  lemma AfterMore(before: seq<Event>, events: seq<Event>, offset: nat)
    requires before <= events
    ensures After(before, offset) + After(events, Max(offset, |before|)) == After(events, offset)
    ensures Max(Max(offset, |before|), |events|) == Max(offset, |events|)
  {
  }

  /** Yield what one poll adds. */
  method Drain(events: seq<Event>, seen: nat) returns (news: seq<Event>, next: nat)
    requires Numbered(events)
    ensures news == After(events, seen) && next == Max(seen, |events|) + 1
  {
    news, next := [], seen + 1;
    var i := 0;
    while i < |events|
      invariant 0 <= i <= |events|
      invariant news == After(events[..i], seen) && next == Max(seen, i) + 1
    {
      assert events[..i + 1] == events[..i] + [events[i]];
      if events[i].sequence >= next {
        news := news + [events[i]];
        next := events[i].sequence + 1;
      }
      i := i + 1;
    }
    assert events[..|events|] == events;
  }

  /** `stream_events`: poll, yield what is new, and stop once the run is idle.
      `active[i]` is what is inspected after the i-th poll. What has been yielded
      is always what the last poll has after the offset; the trace may have grown
      between that poll and the inspection. */
  method StreamEvents(polls: seq<seq<Event>>, active: seq<bool>, offset: nat)
      returns (yielded: seq<Event>, count: nat, stopped: bool)
    requires Growing(polls) && |active| == |polls|
    ensures count <= |polls| && (!stopped ==> count == |polls|) && (stopped ==> count > 0 && !active[count - 1])
    ensures yielded == if count == 0 then [] else After(polls[count - 1], offset)
    ensures forall i :: 0 <= i < count - (if stopped then 1 else 0) ==> active[i]
  {
    hide After;
    var next := offset + 1;
    yielded, count, stopped := [], 0, false;
    ghost var before: seq<Event> := [];
    AfterNothing(offset);
    while count < |polls|
      invariant 0 <= count <= |polls| && before == (if count == 0 then [] else polls[count - 1])
      invariant yielded == After(before, offset) && next == Max(offset, |before|) + 1
      invariant forall i :: 0 <= i < count ==> active[i]
    {
      var events := polls[count];
      var news;
      AfterMore(before, events, offset);
      news, next := Drain(events, next - 1);
      yielded, before := yielded + news, events;
      count := count + 1;
      if !active[count - 1] && next > |events| { return yielded, count, true; }
    }
  }

  lemma AfterNothing(offset: nat)
    ensures After([], offset) == []
  {
  }

  // ---- the subscriber ----

  /** A message as it parses: malformed ones carry no event. */
  datatype Message = Malformed | Message(run: string, id: string, event: Event)

  /** What a subscriber has recorded, and what it has passed on. */
  datatype Inbox = Inbox(run: string, offset: nat, ids: set<string>, sequences: set<nat>, accepted: seq<Event>,
      errors: nat)

  function Accepting(b: Inbox, m: Message): Inbox {
    if m.Malformed? || m.run != b.run then b.(errors := b.errors + 1)
    else if m.event.sequence <= b.offset || m.id in b.ids || m.event.sequence in b.sequences then b
    else b.(ids := b.ids + {m.id}, sequences := b.sequences + {m.event.sequence}, accepted := b.accepted + [m.event])
  }

  function AcceptAll(b: Inbox, ms: seq<Message>): Inbox
    decreases ms
  {
    if ms == [] then b else AcceptAll(Accepting(b, ms[0]), ms[1..])
  }

  /** The subscription's closure. */
  class Subscription {
    const run: string
    const offset: nat
    var ids: set<string>
    var sequences: set<nat>
    var accepted: seq<Event>
    var errors: nat

    constructor (run: string, offset: nat)
      ensures Contents() == Inbox(run, offset, {}, {}, [], 0)
    {
      this.run, this.offset := run, offset;
      ids, sequences, accepted, errors := {}, {}, [], 0;
    }

    ghost function Contents(): Inbox
      reads this
    {
      Inbox(run, offset, ids, sequences, accepted, errors)
    }

    /** The listener: report what is malformed or foreign, drop what is old or
        known, and pass on the rest. */
    method Accept(m: Message)
      modifies this
      ensures Contents() == Accepting(old(Contents()), m)
    {
      if m.Malformed? {
        errors := errors + 1;
      } else if m.run != run {
        errors := errors + 1;
      } else if m.event.sequence > offset && m.id !in ids && m.event.sequence !in sequences {
        ids := ids + {m.id};
        sequences := sequences + {m.event.sequence};
        accepted := accepted + [m.event];
      }
    }
  }

  // ---- whatever is delivered ----

  /** Messages that are reported: unparsable, or of another run. */
  predicate Reported(run: string, m: Message) { m.Malformed? || m.run != run }

  ghost function ReportedAt(run: string, ms: seq<Message>): set<nat> {
    set i | 0 <= i < |ms| && Reported(run, ms[i])
  }

  /** What a subscriber holds after any messages: each event it passed on was
      delivered for its run and lies after its offset, none twice; every such
      event was passed on unless its id or its sequence was known. */
  ghost predicate Received(b: Inbox, ms: seq<Message>) {
    && b.errors == |ReportedAt(b.run, ms)|
    && (forall e :: e in b.accepted ==> exists m :: m in ms && !Reported(b.run, m) && m.event == e)
    && (forall e :: e in b.accepted ==> b.offset < e.sequence && e.sequence in b.sequences)
    && (forall s :: s in b.sequences ==> exists e :: e in b.accepted && e.sequence == s)
    && (forall i, j :: 0 <= i < j < |b.accepted| ==> b.accepted[i].sequence != b.accepted[j].sequence)
    && (forall m :: m in ms && !Reported(b.run, m) && b.offset < m.event.sequence ==>
          m.event.sequence in b.sequences || m.id in b.ids)
    && (forall id :: id in b.ids ==> exists m :: m in ms && !Reported(b.run, m) && m.id == id && m.event in b.accepted)
  }

  lemma ReportedPush(run: string, ms: seq<Message>, m: Message)
    ensures ReportedAt(run, ms + [m]) == ReportedAt(run, ms) + (if Reported(run, m) then {|ms|} else {})
    ensures |ms| !in ReportedAt(run, ms)
  {
  }

  lemma ReceivedMore(b: Inbox, ms: seq<Message>, m: Message)
    requires Received(b, ms)
    ensures Received(Accepting(b, m), ms + [m])
  {
    ReportedPush(b.run, ms, m);
    hide ReportedAt;
    var c := Accepting(b, m);
    assert forall x :: x in ms + [m] <==> x in ms || x == m;
    if |c.accepted| > |b.accepted| {
      assert c.accepted == b.accepted + [m.event] && m.event in c.accepted;
      assert forall e :: e in c.accepted <==> e in b.accepted || e == m.event;
      assert forall i :: 0 <= i < |b.accepted| ==> b.accepted[i] in b.accepted;
    }
  }

  /** Whatever is delivered, in whatever order and however often. */
  lemma {:induction false} AnyDelivery(b: Inbox, before: seq<Message>, ms: seq<Message>)
    requires Received(b, before)
    ensures Received(AcceptAll(b, ms), before + ms)
    decreases ms
  {
    hide Received, Accepting;
    if ms == [] {
      assert before + ms == before;
    } else {
      ReceivedMore(b, before, ms[0]);
      AnyDelivery(Accepting(b, ms[0]), before + [ms[0]], ms[1..]);
      assert before + [ms[0]] + ms[1..] == before + ms;
    }
  }

  lemma NewInbox(run: string, offset: nat)
    ensures Received(Inbox(run, offset, {}, {}, [], 0), [])
  {
  }

  // ---- every delivery is gapless ----

  /** Ids are fresh per event. */
  ghost predicate Naming(name: nat -> string) { forall a, b :: name(a) == name(b) ==> a == b }

  /** One connection delivers a beginning of what comes after the offset. */
  predicate Delivers(run: string, name: nat -> string, trace: seq<Event>, offset: nat, ms: seq<Message>) {
    && |ms| <= |After(trace, offset)|
    && forall i :: 0 <= i < |ms| ==>
      ms[i] == Message(run, name(After(trace, offset)[i].sequence), After(trace, offset)[i])
  }

  ghost predicate Holds(b: Inbox, name: nat -> string, trace: seq<Event>, k: nat) {
    && k <= |After(trace, b.offset)| && b.accepted == After(trace, b.offset)[..k]
    && (forall s :: s in b.sequences <==> b.offset < s <= b.offset + k)
    && (forall s: nat :: name(s) in b.ids <==> b.offset < s <= b.offset + k)
    && (forall id :: id in b.ids ==> exists s: nat :: name(s) == id)
  }

  lemma AcceptNext(b: Inbox, name: nat -> string, trace: seq<Event>, k: nat, i: nat)
    requires Naming(name) && Numbered(trace) && Holds(b, name, trace, k) && i <= k && i < |After(trace, b.offset)|
    ensures var e := After(trace, b.offset)[i]; var c := Accepting(b, Message(b.run, name(e.sequence), e));
      Holds(c, name, trace, if i == k then k + 1 else k) && c.run == b.run && c.offset == b.offset
        && c.errors == b.errors
  {
    var full := After(trace, b.offset);
    var e := full[i];
    assert e == trace[b.offset + i] && e.sequence == b.offset + i + 1;
    if i == k {
      assert full[..k + 1] == full[..k] + [full[k]];
      var c := Accepting(b, Message(b.run, name(e.sequence), e));
      assert name(e.sequence) !in b.ids;
      forall s: nat ensures name(s) in c.ids <==> b.offset < s <= b.offset + k + 1 {
        if name(s) == name(e.sequence) { assert s == e.sequence; }
      }
    }
  }

  /** A connection that starts over at the offset is accepted from where the
      subscriber already is. */
  lemma {:induction false} ConnectionMeets(
      b: Inbox, name: nat -> string, trace: seq<Event>, k: nat, ms: seq<Message>, from: nat)
    requires Naming(name) && Numbered(trace) && Holds(b, name, trace, k)
      && Delivers(b.run, name, trace, b.offset, ms) && from <= |ms| && from <= k
    ensures var c := AcceptAll(b, ms[from..]);
      Holds(c, name, trace, if k < |ms| then |ms| else k) && c.run == b.run && c.offset == b.offset
        && c.errors == b.errors
    decreases |ms| - from
  {
    hide Holds, After;
    if from < |ms| {
      AcceptNext(b, name, trace, k, from);
      assert ms[from..][1..] == ms[from + 1..];
      ConnectionMeets(Accepting(b, ms[from]), name, trace, if from == k then k + 1 else k, ms, from + 1);
    } else {
      assert ms[from..] == [];
    }
  }

  lemma HoldsLonger(b: Inbox, name: nat -> string, trace: seq<Event>, longer: seq<Event>, k: nat)
    requires Holds(b, name, trace, k) && trace <= longer
    ensures Holds(b, name, longer, k)
  {
    assert After(longer, b.offset)[..k] == After(trace, b.offset)[..k];
  }

  function AcceptConnections(b: Inbox, connections: seq<seq<Message>>): Inbox
    decreases connections
  {
    if connections == [] then b else AcceptConnections(AcceptAll(b, connections[0]), connections[1..])
  }

  /** However the trace grows and however often the subscriber reconnects and is
      replayed from its offset, it accepts offset + 1, offset + 2, ... without a
      gap, a duplicate or a reordering. */
  lemma {:induction false} DeliveryIsGapless(b: Inbox, name: nat -> string, traces: seq<seq<Event>>,
      connections: seq<seq<Message>>, trace0: seq<Event>, k: nat)
    returns (last: seq<Event>, n: nat)
    requires Naming(name) && Growing([trace0] + traces) && |traces| == |connections| && Holds(b, name, trace0, k)
    requires forall i :: 0 <= i < |traces| ==> Delivers(b.run, name, traces[i], b.offset, connections[i])
    ensures Holds(AcceptConnections(b, connections), name, last, n) && k <= n && last == ([trace0] + traces)[|traces|]
    ensures forall i :: 0 <= i < |connections| ==> |connections[i]| <= n
    decreases connections
  {
    if traces == [] {
      return trace0, k;
    }
    hide Holds, After, Delivers, Growing, Accepting, Numbered;
    FirstConnection(trace0, traces);
    HoldsLonger(b, name, trace0, traces[0], k);
    ConnectionMeets(b, name, traces[0], k, connections[0], 0);
    assert connections[0][0..] == connections[0];
    var c := AcceptAll(b, connections[0]);
    forall i | 0 <= i < |traces[1..]| ensures Delivers(c.run, name, traces[1..][i], c.offset, connections[1..][i]) {
      assert Delivers(b.run, name, traces[i + 1], b.offset, connections[i + 1]);
    }
    last, n := DeliveryIsGapless(c, name, traces[1..], connections[1..], traces[0],
        if k < |connections[0]| then |connections[0]| else k);
    forall i | 0 <= i < |connections| ensures |connections[i]| <= n {
      if i > 0 { assert connections[i] == connections[1..][i - 1]; }
    }
  }

  lemma FirstConnection(trace0: seq<Event>, traces: seq<seq<Event>>)
    requires traces != [] && Growing([trace0] + traces)
    ensures trace0 <= traces[0] && Numbered(traces[0]) && Growing([traces[0]] + traces[1..])
    ensures ([traces[0]] + traces[1..])[|traces[1..]|] == ([trace0] + traces)[|traces|]
  {
    hide Numbered;
    var all := [trace0] + traces;
    assert all[0] == trace0 && all[1] == traces[0];
    assert [traces[0]] + traces[1..] == all[1..];
  }

  /** What holding means for the reader: consecutive sequences from the offset. */
  lemma {:induction false} HoldsMeans(b: Inbox, name: nat -> string, trace: seq<Event>, k: nat)
    requires Numbered(trace) && Holds(b, name, trace, k)
    ensures |b.accepted| == k && forall i :: 0 <= i < k ==> b.accepted[i].sequence == b.offset + i + 1
  {
  }
}
