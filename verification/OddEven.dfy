/** The odd/even diagnostic over exact reals: phases, transit numbers, and
    inverse-variance averages of averages. Variances stand for uncertainties,
    which are their square roots. */
module OddEven {

  datatype Sample = Sample(time: real, flux: real, error: real)

  /** The candidate's ephemeris; its box is shorter than its period. */
  datatype Ephemeris = Ephemeris(epoch: real, period: real, duration: real)

  predicate ValidEphemeris(c: Ephemeris) { 0.0 < c.duration < c.period }

  /** The floored remainder of a division by a positive number. */
  function Mod(x: real, p: real): real
    requires p > 0.0
  {
    x - (x / p).Floor as real * p
  }

  /** `phase_distance`. */
  function PhaseDistance(t: real, epoch: real, period: real): real
    requires period > 0.0
  {
    Mod(t - epoch + 0.5 * period, period) - 0.5 * period
  }

  /** Rounding to the nearest integer, ties to the even one. */
  function Rint(x: real): int {
    var f := x.Floor;
    var d := x - f as real;
    if d < 0.5 then f else if d > 0.5 then f + 1 else if f % 2 == 0 then f else f + 1
  }

  function TransitNumber(t: real, c: Ephemeris): int
    requires c.period > 0.0
  {
    Rint((t - c.epoch) / c.period)
  }

  predicate InTransit(t: real, c: Ephemeris)
    requires c.period > 0.0
  {
    var d := PhaseDistance(t, c.epoch, c.period);
    -0.5 * c.duration <= d <= 0.5 * c.duration
  }

  lemma ScaleBounds(a: real, b: real, x: real, p: real)
    requires p > 0.0 && a <= x < b
    ensures a * p <= x * p < b * p
  {
  }

  /** A number is within one step of its whole multiple of the divisor. */
  lemma ModBounds(y: real, p: real)
    requires p > 0.0
    ensures 0.0 <= Mod(y, p) < p && Mod(y, p) == y - Times((y / p).Floor, p)
  {
    var q := y / p;
    var m := q.Floor as real;
    assert q * p == y by { DivideMultiply(y, p); }
    ScaleBounds(m, m + 1.0, q, p);
    OneMore(m, p);
  }

  /** A whole number of periods. */
  function Times(n: int, p: real): real { n as real * p }

  /** The phase distance lies in [-P/2, P/2), and differs from the time since the
      epoch by a whole number of periods. */
  lemma PhaseIsCentered(t: real, epoch: real, period: real)
    requires period > 0.0
    ensures var d := PhaseDistance(t, epoch, period); var n := ((t - epoch) / period + 0.5).Floor;
      -0.5 * period <= d < 0.5 * period && t == epoch + Times(n, period) + d
  {
    hide Mod, Times;
    var y := t - epoch + 0.5 * period;
    ModBounds(y, period);
    HalfPeriod(t - epoch, period);
  }

  lemma HalfPeriod(x: real, p: real)
    requires p > 0.0
    ensures (x + 0.5 * p) / p == x / p + 0.5
  {
    DivideMultiply(x, p);
    QuotientIs(x + 0.5 * p, x / p + 0.5, p);
  }

  lemma QuotientIs(y: real, q: real, p: real)
    requires p != 0.0 && q * p == y
    ensures y / p == q
  {
    DivideMultiply(y, p);
    assert (y / p - q) * p == 0.0;
  }

  lemma DivideMultiply(x: real, p: real)
    requires p != 0.0
    ensures x / p * p == x && x * p / p == x
  {
  }

  lemma OneMore(x: real, p: real)
    ensures (x + 1.0) * p == x * p + p && (x - 0.5) * p == x * p - 0.5 * p && (x - 1.0) * p == x * p - p
  {
  }

  lemma RintIsFloor(x: real)
    ensures Rint(x) == (x + 0.5).Floor || (x + 0.5 == (x + 0.5).Floor as real && Rint(x) == (x + 0.5).Floor - 1)
  {
  }

  /** The rounded transit number is the whole number of periods, unless the time
      is exactly half a period away from the transit. */
  lemma TransitNumberIsExact(t: real, c: Ephemeris)
    requires c.period > 0.0
    ensures var d := PhaseDistance(t, c.epoch, c.period); var n := TransitNumber(t, c);
      t == c.epoch + Times(n, c.period) + d || d == -0.5 * c.period
  {
    hide PhaseDistance, Rint, Times;
    var x := (t - c.epoch) / c.period;
    PhaseIsCentered(t, c.epoch, c.period);
    RintIsFloor(x);
    var n := (x + 0.5).Floor;
    if x + 0.5 == n as real { TieIsHalf(t - c.epoch, n, c.period); }
  }

  lemma TieIsHalf(x: real, n: int, p: real)
    requires p > 0.0 && x / p + 0.5 == n as real
    ensures x == Times(n, p) - 0.5 * p
  {
    DivideMultiply(x, p);
    var m := n as real;
    OneMore(m, p);
    assert (m - 0.5) * p == x;
  }

  lemma WholePeriods(m: int, p: real)
    requires p > 0.0 && -p < Times(m, p) < p
    ensures m == 0
  {
    if m >= 1 { TimesGrows(1, m, p); } else if m <= -1 { TimesGrows(m, -1, p); }
  }

  lemma TimesGrows(m: int, n: int, p: real)
    requires p > 0.0 && m <= n
    ensures Times(m, p) <= Times(n, p)
    ensures Times(1, p) == p && Times(-1, p) == -p
  {
  }

  lemma TimesLess(m: int, n: int, p: real)
    ensures Times(m, p) - Times(n, p) == Times(m - n, p)
  {
    var a, b := m as real, n as real;
    assert (m - n) as real == a - b;
    assert (a - b) * p == a * p - b * p;
  }

  /** A time is in transit exactly if it lies within half a box of the centre of
      some transit. */
  lemma InTransitMeans(t: real, c: Ephemeris)
    requires ValidEphemeris(c)
    ensures InTransit(t, c) <==> exists n: int :: InBoxOf(t, c, n)
  {
    hide PhaseDistance, Times;
    PhaseIsCentered(t, c.epoch, c.period);
    var d, m := PhaseDistance(t, c.epoch, c.period), ((t - c.epoch) / c.period + 0.5).Floor;
    if InTransit(t, c) { assert InBoxOf(t, c, m); }
    if n :| InBoxOf(t, c, n) {
      TimesLess(n, m, c.period);
      WholePeriods(n - m, c.period);
    }
  }

  predicate InBoxOf(t: real, c: Ephemeris, n: int) {
    -0.5 * c.duration <= t - c.epoch - Times(n, c.period) <= 0.5 * c.duration
  }

  /** In transit the time is its transit's centre plus the phase distance. */
  lemma InTransitTimes(t: real, c: Ephemeris)
    requires ValidEphemeris(c) && InTransit(t, c)
    ensures t == c.epoch + Times(TransitNumber(t, c), c.period) + PhaseDistance(t, c.epoch, c.period)
  {
    TransitNumberIsExact(t, c);
  }

  /** With a box as long as the period a sample can be counted to the wrong transit. */
  lemma FullPeriodMiscounts()
    ensures var c := Ephemeris(0.0, 1.0, 1.0);
      InTransit(0.5, c) && 0.5 != Times(TransitNumber(0.5, c), 1.0) + PhaseDistance(0.5, 0.0, 1.0)
  {
    assert (1.0 / 1.0).Floor == 1;
    assert (0.5 / 1.0).Floor == 0;
  }

  // ---- averages ----

  /** A sample in transit: its transit number, flux, and inverse variance. */
  datatype Weighted = Weighted(number: int, flux: real, weight: real)

  predicate Positive(s: seq<Weighted>) { forall w :: w in s ==> w.weight > 0.0 }

  predicate Measured(samples: seq<Sample>) { forall x :: x in samples ==> x.error > 0.0 }

  /** The samples that lie in the box, with their transits and weights. */
  function Weigh(samples: seq<Sample>, c: Ephemeris): (s: seq<Weighted>)
    requires c.period > 0.0 && Measured(samples)
    ensures Positive(s)
  {
    if samples == [] then []
    else
      var last := samples[|samples| - 1];
      var init := Weigh(samples[..|samples| - 1], c);
      if InTransit(last.time, c) then init + [Weight(last, c)] else init
  }

  lemma PositiveSquare(e: real)
    requires e > 0.0
    ensures e * e > 0.0 && 1.0 / (e * e) > 0.0
  {
  }

  function WeightOf(s: seq<Weighted>, events: set<int>): real {
    if s == [] then 0.0
    else WeightOf(s[..|s| - 1], events) + (if s[|s| - 1].number in events then s[|s| - 1].weight else 0.0)
  }

  function FluxOf(s: seq<Weighted>, events: set<int>): real {
    if s == [] then 0.0
    else FluxOf(s[..|s| - 1], events)
         + (if s[|s| - 1].number in events then s[|s| - 1].weight * s[|s| - 1].flux else 0.0)
  }

  function CountOf(s: seq<Weighted>, events: set<int>): nat {
    if s == [] then 0 else CountOf(s[..|s| - 1], events) + (if s[|s| - 1].number in events then 1 else 0)
  }

  /** Sums over disjoint sets of events add up. */
  lemma {:induction false} SumsAdd(s: seq<Weighted>, a: set<int>, b: set<int>)
    requires a !! b
    ensures WeightOf(s, a + b) == WeightOf(s, a) + WeightOf(s, b)
    ensures FluxOf(s, a + b) == FluxOf(s, a) + FluxOf(s, b)
    ensures CountOf(s, a + b) == CountOf(s, a) + CountOf(s, b)
  {
    if s != [] { SumsAdd(s[..|s| - 1], a, b); }
  }

  lemma {:induction false} SumsEmpty(s: seq<Weighted>)
    ensures WeightOf(s, {}) == FluxOf(s, {}) == 0.0 && CountOf(s, {}) == 0
  {
    if s != [] { SumsEmpty(s[..|s| - 1]); }
  }

  lemma {:induction false} WeightPositive(s: seq<Weighted>, events: set<int>)
    requires Positive(s)
    ensures WeightOf(s, events) >= 0.0
    ensures (exists w :: w in s && w.number in events) ==> WeightOf(s, events) > 0.0
  {
    if s != [] {
      var init := s[..|s| - 1];
      assert s == init + [s[|s| - 1]];
      WeightPositive(init, events);
    }
  }

  /** Depth below unity of the weighted mean flux of some events. */
  function PooledDepth(s: seq<Weighted>, events: set<int>): real
    requires WeightOf(s, events) != 0.0
  {
    1.0 - FluxOf(s, events) / WeightOf(s, events)
  }

  /** The distinct transit numbers, in increasing order. */
  function Unique(s: seq<Weighted>): (u: seq<int>) {
    if s == [] then [] else Place(Unique(s[..|s| - 1]), s[|s| - 1].number)
  }

  function Place(u: seq<int>, n: int): seq<int> {
    if u == [] || u[|u| - 1] < n then u + [n]
    else if u[|u| - 1] == n then u
    else Place(u[..|u| - 1], n) + [u[|u| - 1]]
  }

  predicate Ascending(u: seq<int>) { forall i, j :: 0 <= i < j < |u| ==> u[i] < u[j] }

  lemma {:induction false} PlaceKeeps(u: seq<int>, n: int)
    requires Ascending(u)
    ensures Ascending(Place(u, n)) && forall x :: x in Place(u, n) <==> x == n || x in u
  {
    if u != [] && n < u[|u| - 1] {
      var init, last := u[..|u| - 1], u[|u| - 1];
      assert u == init + [last];
      PlaceKeeps(init, n);
      var p := Place(init, n);
      forall i | 0 <= i < |p| ensures p[i] < last { assert p[i] == n || p[i] in init; }
    }
  }

  lemma {:induction false} UniqueAre(s: seq<Weighted>)
    ensures Ascending(Unique(s)) && forall n :: n in Unique(s) <==> exists w :: w in s && w.number == n
  {
    if s != [] {
      var init, last := s[..|s| - 1], s[|s| - 1];
      assert s == init + [last];
      UniqueAre(init);
      PlaceKeeps(Unique(init), last.number);
      forall n ensures n in Unique(s) <==> exists w :: w in s && w.number == n {
        if n in Unique(s) && n != last.number { var w :| w in init && w.number == n; assert w in s; }
        if n == last.number { assert last in s; }
      }
    }
  }

  function OfParity(u: seq<int>, parity: int): set<int> { set n | n in u && n % 2 == parity }

  /** The places of the samples in transit, and of those of one parity. */
  ghost function InBox(samples: seq<Sample>, c: Ephemeris): set<nat>
    requires c.period > 0.0
  {
    set i | 0 <= i < |samples| && InTransit(samples[i].time, c)
  }

  ghost function OfTransits(samples: seq<Sample>, c: Ephemeris, parity: int): set<nat>
    requires c.period > 0.0
  {
    set i | i in InBox(samples, c) && TransitNumber(samples[i].time, c) % 2 == parity
  }

  /** The transits of one parity that were observed at all. */
  ghost function Transits(samples: seq<Sample>, c: Ephemeris, parity: int): set<int>
    requires c.period > 0.0
  {
    set i | i in OfTransits(samples, c, parity) :: TransitNumber(samples[i].time, c)
  }

  ghost function InEvents(samples: seq<Sample>, c: Ephemeris, events: set<int>): set<nat>
    requires c.period > 0.0
  {
    set i | i in InBox(samples, c) && TransitNumber(samples[i].time, c) in events
  }

  ghost function Observed(samples: seq<Sample>, c: Ephemeris): set<int>
    requires c.period > 0.0
  {
    set i | i in InBox(samples, c) :: TransitNumber(samples[i].time, c)
  }

  function Numbers(s: seq<Weighted>): set<int> { set w | w in s :: w.number }

  lemma NumbersPush(s: seq<Weighted>, x: Weighted)
    ensures Numbers(s + [x]) == Numbers(s) + {x.number}
  {
    forall n | n in Numbers(s) + {x.number} ensures n in Numbers(s + [x]) {
      if n == x.number { assert x in s + [x]; }
      else { var w :| w in s && w.number == n; assert w in s + [x]; }
    }
  }

  lemma SamplesPush(init: seq<Sample>, x: Sample, c: Ephemeris, events: set<int>)
    requires c.period > 0.0
    ensures var samples := init + [x]; var i := |init|; var number := TransitNumber(x.time, c);
      if InTransit(x.time, c) then
        && InBox(samples, c) == InBox(init, c) + {i} && Observed(samples, c) == Observed(init, c) + {number}
        && InEvents(samples, c, events) == InEvents(init, c, events) + (if number in events then {i} else {})
      else
        && InBox(samples, c) == InBox(init, c) && Observed(samples, c) == Observed(init, c)
        && InEvents(samples, c, events) == InEvents(init, c, events)
  {
    hide InTransit, TransitNumber;
    var samples := init + [x];
    assert InBox(samples, c) == InBox(init, c) + (if InTransit(x.time, c) then {|init|} else {});
    forall k | k in InBox(init, c) ensures samples[k] == init[k] { }
    assert samples[|init|] == x;
  }

  /** A sample is weighed exactly if it is in transit, once, and for its own transit. */
  lemma {:induction false} WeighedAre(samples: seq<Sample>, c: Ephemeris, events: set<int>)
    requires c.period > 0.0 && Measured(samples)
    ensures CountOf(Weigh(samples, c), events) == |InEvents(samples, c, events)|
    ensures |Weigh(samples, c)| == |InBox(samples, c)| && Numbers(Weigh(samples, c)) == Observed(samples, c)
  {
    hide InTransit, TransitNumber, InBox, Observed, InEvents, Numbers;
    if samples != [] {
      var init, x := samples[..|samples| - 1], samples[|samples| - 1];
      assert samples == init + [x];
      WeighedAre(init, c, events);
      SamplesPush(init, x, c, events);
      NotYet(init, c, events);
      var s, t := Weigh(init, c), Weigh(samples, c);
      if InTransit(x.time, c) {
        assert t[..|t| - 1] == s && t == s + [t[|t| - 1]];
        NumbersPush(s, t[|t| - 1]);
      }
    } else {
      assert InBox(samples, c) == {} && Observed(samples, c) == {} && InEvents(samples, c, events) == {} by {
        NoSamples(c, events);
      }
      assert Numbers([]) == {} by { NoNumbers(); }
    }
  }

  lemma NoNumbers()
    ensures Numbers([]) == {}
  {
  }

  lemma NoSamples(c: Ephemeris, events: set<int>)
    requires c.period > 0.0
    ensures InBox([], c) == {} && Observed([], c) == {} && InEvents([], c, events) == {}
  {
  }

  lemma NotYet(samples: seq<Sample>, c: Ephemeris, events: set<int>)
    requires c.period > 0.0
    ensures |samples| !in InBox(samples, c) && |samples| !in InEvents(samples, c, events)
  {
  }

  lemma EventsAre(samples: seq<Sample>, c: Ephemeris, s: seq<Weighted>, parity: int)
    requires c.period > 0.0 && Numbers(s) == Observed(samples, c)
    ensures OfParity(Unique(s), parity) == Transits(samples, c, parity)
  {
    hide InTransit, TransitNumber, Unique;
    UniqueAre(s);
    forall n ensures n in Unique(s) <==> n in Numbers(s) { }
  }

  /** The places of the samples in transit, in order. */
  ghost function Boxed(samples: seq<Sample>, c: Ephemeris): seq<nat>
    requires c.period > 0.0
  {
    if samples == [] then []
    else
      var last := |samples| - 1;
      Boxed(samples[..last], c) + (if InTransit(samples[last].time, c) then [last] else [])
  }

  /** A sample's transit, flux and weight: the inverse of its squared error. */
  predicate WeighedAs(w: Weighted, x: Sample, c: Ephemeris)
    requires c.period > 0.0
  {
    w.number == TransitNumber(x.time, c) && w.flux == x.flux && w.weight * (x.error * x.error) == 1.0
  }

  function Weight(x: Sample, c: Ephemeris): Weighted
    requires c.period > 0.0 && x.error > 0.0
  {
    PositiveSquare(x.error);
    Weighted(TransitNumber(x.time, c), x.flux, 1.0 / (x.error * x.error))
  }

  lemma WeighPush(init: seq<Sample>, x: Sample, c: Ephemeris)
    requires c.period > 0.0 && Measured(init + [x])
    ensures x.error > 0.0 && Measured(init)
    ensures Weigh(init + [x], c) == Weigh(init, c) + (if InTransit(x.time, c) then [Weight(x, c)] else [])
    ensures Boxed(init + [x], c) == Boxed(init, c) + (if InTransit(x.time, c) then [|init|] else [])
  {
    hide InTransit, TransitNumber;
    assert x in init + [x] && forall y :: y in init ==> y in init + [x];
    assert (init + [x])[..|init|] == init;
  }

  /** The samples in transit are weighed one by one, in their order. */
  lemma {:induction false} WeightsAre(samples: seq<Sample>, c: Ephemeris)
    requires c.period > 0.0 && Measured(samples)
    ensures |Weigh(samples, c)| == |Boxed(samples, c)|
    ensures forall k :: 0 <= k < |Boxed(samples, c)| ==> Boxed(samples, c)[k] in InBox(samples, c)
    ensures forall i, j :: 0 <= i < j < |Boxed(samples, c)| ==> Boxed(samples, c)[i] < Boxed(samples, c)[j]
    ensures forall k :: 0 <= k < |Weigh(samples, c)| && Boxed(samples, c)[k] < |samples| ==>
      WeighedAs(Weigh(samples, c)[k], samples[Boxed(samples, c)[k]], c)
  {
    hide InTransit, TransitNumber, WeighedAs, Weigh, Boxed, InBox;
    if samples == [] {
      assert Weigh([], c) == [] && Boxed([], c) == [] by { NoneWeighed(c); }
    } else {
      var init, x := samples[..|samples| - 1], samples[|samples| - 1];
      assert samples == init + [x];
      WeighPush(init, x, c);
      WeightsAre(init, c);
      SamplesPush(init, x, c, {});
      InBoxBelow(init, c);
      OneWeighed(x, c);
    }
  }

  lemma NoneWeighed(c: Ephemeris)
    requires c.period > 0.0
    ensures Weigh([], c) == [] && Boxed([], c) == []
  {
  }

  lemma InBoxBelow(samples: seq<Sample>, c: Ephemeris)
    requires c.period > 0.0
    ensures forall i :: i in InBox(samples, c) ==> i < |samples|
  {
  }

  lemma OneWeighed(x: Sample, c: Ephemeris)
    requires c.period > 0.0 && x.error > 0.0
    ensures WeighedAs(Weight(x, c), x, c)
  {
    hide TransitNumber;
    PositiveSquare(x.error);
    DivideMultiply(1.0, x.error * x.error);
  }

  /** The parities of the weighed samples are those of the observed transits. */
  lemma ParityIs(samples: seq<Sample>, c: Ephemeris, parity: int)
    requires c.period > 0.0 && Measured(samples)
    ensures var s := Weigh(samples, c);
      && OfParity(Unique(s), parity) == Transits(samples, c, parity)
      && CountOf(s, OfParity(Unique(s), parity)) == |OfTransits(samples, c, parity)|
  {
    hide InTransit, TransitNumber, Weigh, Unique, CountOf;
    var s := Weigh(samples, c);
    var events := OfParity(Unique(s), parity);
    UniqueAre(s);
    WeighedAre(samples, c, events);
    assert events == Transits(samples, c, parity) by { EventsAre(samples, c, s, parity); }
    assert InEvents(samples, c, events) == OfTransits(samples, c, parity);
  }

  /** Every sample in transit belongs to exactly one parity, and is weighed in it once. */
  lemma ParitiesPartition(samples: seq<Sample>, c: Ephemeris)
    requires c.period > 0.0 && Measured(samples)
    ensures OfTransits(samples, c, 1) !! OfTransits(samples, c, 0)
    ensures OfTransits(samples, c, 1) + OfTransits(samples, c, 0) == InBox(samples, c)
    ensures var s := Weigh(samples, c); var odd, even := OfParity(Unique(s), 1), OfParity(Unique(s), 0);
      && odd !! even && |s| == |InBox(samples, c)|
      && CountOf(s, odd) == |OfTransits(samples, c, 1)| && CountOf(s, even) == |OfTransits(samples, c, 0)|
      && CountOf(s, odd) + CountOf(s, even) == |s|
  {
    hide InTransit, TransitNumber, Weigh, Unique, CountOf;
    ParityIs(samples, c, 1);
    ParityIs(samples, c, 0);
    WeighedAre(samples, c, {});
  }

  function Sum(xs: seq<real>): real { if xs == [] then 0.0 else Sum(xs[..|xs| - 1]) + xs[|xs| - 1] }

  function Dot(xs: seq<real>, ys: seq<real>): real
    requires |xs| == |ys|
  {
    if xs == [] then 0.0 else Dot(xs[..|xs| - 1], ys[..|ys| - 1]) + Product(xs[|xs| - 1], ys[|ys| - 1])
  }

  function Product(x: real, y: real): real { x * y }

  lemma SumsPush(xs: seq<real>, ys: seq<real>, x: real, y: real)
    requires |xs| == |ys|
    ensures Sum(ys + [y]) == Sum(ys) + y && Dot(xs + [x], ys + [y]) == Dot(xs, ys) + Product(x, y)
  {
    hide Product;
    assert (xs + [x])[..|xs|] == xs && (ys + [y])[..|ys|] == ys;
  }

  /** The depths of the events of one parity, in order. */
  function EventDepths(s: seq<Weighted>, u: seq<int>, parity: int): seq<real>
    requires forall n :: n in u ==> WeightOf(s, {n}) != 0.0
  {
    if u == [] then []
    else
      var n := u[|u| - 1];
      EventDepths(s, u[..|u| - 1], parity) + (if n % 2 == parity then [PooledDepth(s, {n})] else [])
  }

  function Mean(xs: seq<real>): real
    requires xs != []
  {
    Sum(xs) / |xs| as real
  }

  /** The sum of squared deviations from `mean`. */
  function Deviations(xs: seq<real>, mean: real): real {
    if xs == [] then 0.0
    else Deviations(xs[..|xs| - 1], mean) + Product(xs[|xs| - 1] - mean, xs[|xs| - 1] - mean)
  }

  /** The square of the empirical standard error of a mean, with one degree of freedom lost. */
  function SquaredStandardError(xs: seq<real>): real
    requires |xs| >= 2
  {
    Deviations(xs, Mean(xs)) / (|xs| - 1) as real / |xs| as real
  }

  function Larger(a: real, b: real): real { if a < b then b else a }

  function Squares(xs: seq<real>): real {
    if xs == [] then 0.0 else Squares(xs[..|xs| - 1]) + Product(xs[|xs| - 1], xs[|xs| - 1])
  }

  lemma {:induction false} DeviationsAre(xs: seq<real>, m: real)
    ensures Deviations(xs, m) == Squares(xs) - 2.0 * Product(m, Sum(xs)) + |xs| as real * Product(m, m)
  {
    if xs != [] {
      var init, x := xs[..|xs| - 1], xs[|xs| - 1];
      DeviationsAre(init, m);
      DeviationPush(x, m, Sum(init), |init| as real);
    }
  }

  lemma DeviationPush(x: real, m: real, sum: real, n: real)
    ensures Product(x - m, x - m) == Product(x, x) - 2.0 * Product(m, x) + Product(m, m)
    ensures Product(m, sum + x) == Product(m, sum) + Product(m, x)
    ensures (n + 1.0) * Product(m, m) == n * Product(m, m) + Product(m, m)
  {
  }

  /** The squared standard error of n depths, times n squared and n - 1, is n times
      the sum of their squares less the square of their sum. */
  lemma StandardErrorMeans(xs: seq<real>)
    requires |xs| >= 2
    ensures var n := |xs| as real;
      SquaredStandardError(xs) * (n - 1.0) * n * n == n * Squares(xs) - Product(Sum(xs), Sum(xs))
  {
    var n, mean := |xs| as real, Mean(xs);
    DeviationsAre(xs, mean);
    var deviations := Deviations(xs, mean);
    assert (|xs| - 1) as real == n - 1.0;
    DivideMultiply(deviations / (n - 1.0), n);
    DivideMultiply(deviations, n - 1.0);
    DivideMultiply(Sum(xs), n);
    Unscaled(SquaredStandardError(xs), deviations, n);
    MeanSquare(mean, Sum(xs), n, Squares(xs));
  }

  lemma Unscaled(e: real, deviations: real, n: real)
    requires n >= 2.0 && e == deviations / (n - 1.0) / n
    ensures e * (n - 1.0) * n * n == deviations * n
  {
    var a := deviations / (n - 1.0);
    DivideMultiply(a, n);
    DivideMultiply(deviations, n - 1.0);
    assert e * n == a;
    assert e * (n - 1.0) * n == a * (n - 1.0);
  }

  lemma MeanSquare(m: real, sum: real, n: real, squares: real)
    requires m * n == sum
    ensures (squares - 2.0 * Product(m, sum) + n * Product(m, m)) * n == n * squares - Product(sum, sum)
  {
    assert Product(m, sum) * n == sum * sum;
    assert n * Product(m, m) * n == sum * sum;
  }

  /** What the samples of some events lack below unity, by weight. */
  function LackOf(s: seq<Weighted>, events: set<int>): real {
    if s == [] then 0.0
    else
      LackOf(s[..|s| - 1], events)
      + (if s[|s| - 1].number in events then Product(s[|s| - 1].weight, 1.0 - s[|s| - 1].flux) else 0.0)
  }

  lemma {:induction false} LackIs(s: seq<Weighted>, events: set<int>)
    ensures LackOf(s, events) == WeightOf(s, events) - FluxOf(s, events)
  {
    if s != [] {
      LackIs(s[..|s| - 1], events);
      var w := s[|s| - 1];
      assert Product(w.weight, 1.0 - w.flux) == w.weight - w.weight * w.flux;
    }
  }

  /** A pooled depth is the mean of what the samples lack, each by its weight. */
  lemma PooledMeans(s: seq<Weighted>, events: set<int>)
    requires WeightOf(s, events) != 0.0
    ensures PooledDepth(s, events) * WeightOf(s, events) == LackOf(s, events)
  {
    LackIs(s, events);
    DepthTimesWeight(FluxOf(s, events), WeightOf(s, events));
  }

  lemma EventWeights(s: seq<Weighted>)
    requires Positive(s)
    ensures forall n :: n in Unique(s) ==> WeightOf(s, {n}) > 0.0
  {
    UniqueAre(s);
    forall n | n in Unique(s) ensures WeightOf(s, {n}) > 0.0 {
      var w :| w in s && w.number == n;
      assert w.number in {n};
      WeightPositive(s, {n});
    }
  }

  lemma {:induction false} DepthsPerEvent(s: seq<Weighted>, u: seq<int>, parity: int)
    requires Ascending(u) && forall n :: n in u ==> WeightOf(s, {n}) != 0.0
    ensures |EventDepths(s, u, parity)| == |OfParity(u, parity)|
  {
    if u != [] {
      var init, last := u[..|u| - 1], u[|u| - 1];
      assert u == init + [last];
      DepthsPerEvent(s, init, parity);
      if last % 2 == parity {
        assert OfParity(u, parity) == OfParity(init, parity) + {last};
      } else {
        assert OfParity(u, parity) == OfParity(init, parity);
      }
    }
  }

  /** One event's depth times its weight. */
  lemma DepthTimesWeight(f: real, w: real)
    requires w != 0.0
    ensures (1.0 - f / w) * w == w - f
  {
    DivideMultiply(f, w);
    Distribute(f / w, w);
  }

  lemma InverseTwice(w: real)
    requires w > 0.0
    ensures 1.0 / w > 0.0 && 1.0 / (1.0 / w) == w
  {
  }

  /** `depth_for`: average the samples of each event, then the events, each time
      by inverse variance. The result is the single pooled average of all
      samples of that parity, and its variance the pooled variance; the
      uncertainty is the larger of that variance and the squared standard error
      of the events. */
  method DepthFor(s: seq<Weighted>, parity: int) returns (depth: real, variance: real, uncertainty: real, samples: nat)
    requires Positive(s) && |OfParity(Unique(s), parity)| >= 2
    ensures forall n :: n in Unique(s) ==> WeightOf(s, {n}) > 0.0
    ensures |EventDepths(s, Unique(s), parity)| == |OfParity(Unique(s), parity)|
    ensures uncertainty == Larger(variance, SquaredStandardError(EventDepths(s, Unique(s), parity)))
    ensures WeightOf(s, OfParity(Unique(s), parity)) > 0.0
    ensures depth == PooledDepth(s, OfParity(Unique(s), parity))
    ensures variance == 1.0 / WeightOf(s, OfParity(Unique(s), parity))
    ensures samples == CountOf(s, OfParity(Unique(s), parity))
  {
    hide WeightOf, FluxOf, CountOf, Unique, Sum, Dot, SquaredStandardError, Deviations, EventDepths, Larger;
    var events := Unique(s);
    UniqueAre(s);
    EventWeights(s);
    DepthsPerEvent(s, events, parity);
    SumsEmpty(s);
    EmptySums(s, parity);
    var depths: seq<real>, weights: seq<real> := [], [];
    samples := 0;
    var i := 0;
    ghost var done: set<int> := {};
    while i < |events|
      invariant 0 <= i <= |events|
      invariant done == set k | 0 <= k < i && events[k] % 2 == parity :: events[k]
      invariant |depths| == |weights| && depths == EventDepths(s, events[..i], parity)
      invariant Sum(weights) == WeightOf(s, done) && Dot(depths, weights) == WeightOf(s, done) - FluxOf(s, done)
      invariant samples == CountOf(s, done)
    {
      var n := events[i];
      assert events[..i + 1] == events[..i] + [n];
      DepthsPush(s, events[..i], n, parity);
      if n % 2 == parity {
        assert n in events;
        WeightPositive(s, {n});
        var weight := WeightOf(s, {n});
        var depth := 1.0 - FluxOf(s, {n}) / weight;
        var eventVariance := 1.0 / weight;
        InverseTwice(weight);
        var inverse := 1.0 / eventVariance;
        EventAdds(s, done, n, depths, weights, depth, inverse);
        samples := samples + CountOf(s, {n});
        depths, weights := depths + [depth], weights + [inverse];
        done := done + {n};
      }
      i := i + 1;
    }
    assert events[..|events|] == events;
    AllDone(events, parity, done);
    PoolPositive(s, parity);
    var total := WeightOf(s, done);
    depth := Dot(depths, weights) / Sum(weights);
    variance := 1.0 / Sum(weights);
    uncertainty := Larger(variance, SquaredStandardError(depths));
    DivideDifference(total, FluxOf(s, done));
  }

  datatype Depth = Depth(depth: real, variance: real, uncertainty: real, samples: nat)

  datatype Comparison = TooFewTransits | Depths(odd: Depth, even: Depth)

  lemma {:induction false} ParitiesOf(u: seq<int>)
    requires Ascending(u)
    ensures |u| == |OfParity(u, 0)| + |OfParity(u, 1)|
  {
    if u != [] {
      var init, last := u[..|u| - 1], u[|u| - 1];
      assert u == init + [last];
      ParitiesOf(init);
      ParityPush(init, last, 0);
      ParityPush(init, last, 1);
    }
  }

  lemma ParityPush(u: seq<int>, n: int, parity: int)
    requires Ascending(u + [n])
    ensures |OfParity(u + [n], parity)| == |OfParity(u, parity)| + (if n % 2 == parity then 1 else 0)
  {
    forall i | 0 <= i < |u| ensures u[i] != n { assert (u + [n])[i] < (u + [n])[|u|]; }
    if n % 2 == parity { assert OfParity(u + [n], parity) == OfParity(u, parity) + {n}; }
    else { assert OfParity(u + [n], parity) == OfParity(u, parity); }
  }

  /** `compare_odd_even` up to its two depths: refused exactly with fewer than
      two observed transits of a parity, and otherwise each depth is the pooled
      one of the samples in transits of its parity. */
  method CompareDepths(samples: seq<Sample>, c: Ephemeris) returns (r: Comparison)
    requires c.period > 0.0 && Measured(samples)
    ensures r.TooFewTransits? <==> |Transits(samples, c, 1)| < 2 || |Transits(samples, c, 0)| < 2
    ensures r.Depths? ==>
      && r.odd.samples == |OfTransits(samples, c, 1)| && r.even.samples == |OfTransits(samples, c, 0)|
      && r.odd.samples + r.even.samples == |InBox(samples, c)|
    ensures r.Depths? ==> var s := Weigh(samples, c);
      && Pooled(s, Transits(samples, c, 1), r.odd) && Pooled(s, Transits(samples, c, 0), r.even)
      && (forall n :: n in Unique(s) ==> WeightOf(s, {n}) > 0.0)
      && Uncertain(r.odd, EventDepths(s, Unique(s), 1)) && Uncertain(r.even, EventDepths(s, Unique(s), 0))
  {
    hide InTransit, TransitNumber, Weigh, Unique, CountOf, OfParity, WeightOf, FluxOf;
    var s := Weigh(samples, c);
    UniqueAre(s);
    ParitiesOf(Unique(s));
    ParityIs(samples, c, 1);
    ParityIs(samples, c, 0);
    ParitiesPartition(samples, c);
    var events := Unique(s);
    var odd, even := OfParity(events, 1), OfParity(events, 0);
    if |events| < 4 || |odd| < 2 || |even| < 2 { return TooFewTransits; }
    var d1, v1, u1, n1 := DepthFor(s, 1);
    var d0, v0, u0, n0 := DepthFor(s, 0);
    r := Depths(Depth(d1, v1, u1, n1), Depth(d0, v0, u0, n0));
  }

  /** A depth and variance are those of all samples of these events together. */
  predicate Pooled(s: seq<Weighted>, events: set<int>, d: Depth) {
    WeightOf(s, events) > 0.0 && d.depth == PooledDepth(s, events) && d.variance == 1.0 / WeightOf(s, events)
  }

  /** The uncertainty is the formal one or the empirical one, whichever is larger. */
  predicate Uncertain(d: Depth, depths: seq<real>) {
    && |depths| >= 2 && d.variance <= d.uncertainty && SquaredStandardError(depths) <= d.uncertainty
    && (d.uncertainty == d.variance || d.uncertainty == SquaredStandardError(depths))
  }

  /** One more event, averaged and weighted, adds its samples to the pool. */
  lemma EventAdds(
      s: seq<Weighted>, done: set<int>, n: int, depths: seq<real>, weights: seq<real>, depth: real, weight: real)
    requires |depths| == |weights| && n !in done && weight == WeightOf(s, {n}) && weight != 0.0
      && depth == 1.0 - FluxOf(s, {n}) / weight
    requires Sum(weights) == WeightOf(s, done) && Dot(depths, weights) == WeightOf(s, done) - FluxOf(s, done)
    ensures Sum(weights + [weight]) == WeightOf(s, done + {n})
    ensures Dot(depths + [depth], weights + [weight]) == WeightOf(s, done + {n}) - FluxOf(s, done + {n})
    ensures CountOf(s, done + {n}) == CountOf(s, done) + CountOf(s, {n})
  {
    hide WeightOf, FluxOf, CountOf, Sum, Dot;
    SumsPush(depths, weights, depth, weight);
    DepthTimesWeight(FluxOf(s, {n}), weight);
    SumsAdd(s, done, {n});
  }

  lemma DepthsPush(s: seq<Weighted>, u: seq<int>, n: int, parity: int)
    requires forall k :: k in u + [n] ==> WeightOf(s, {k}) != 0.0
    ensures (forall k :: k in u ==> WeightOf(s, {k}) != 0.0) && WeightOf(s, {n}) != 0.0
    ensures EventDepths(s, u + [n], parity) ==
      EventDepths(s, u, parity) + (if n % 2 == parity then [PooledDepth(s, {n})] else [])
  {
    assert n in u + [n] && forall k :: k in u ==> k in u + [n];
    assert (u + [n])[..|u|] == u;
  }

  lemma EmptySums(s: seq<Weighted>, parity: int)
    ensures Sum([]) == 0.0 && Dot([], []) == 0.0 && EventDepths(s, [], parity) == []
  {
  }

  lemma DivideDifference(w: real, f: real)
    requires w != 0.0
    ensures (w - f) / w == 1.0 - f / w
  {
    var a := f / w;
    DivideMultiply(f, w);
    Distribute(a, w);
    QuotientIs(w - f, 1.0 - a, w);
  }

  lemma Distribute(a: real, w: real)
    ensures (1.0 - a) * w == w - a * w
  {
  }

  lemma AllDone(events: seq<int>, parity: int, done: set<int>)
    requires done == set k | 0 <= k < |events| && events[k] % 2 == parity :: events[k]
    ensures done == OfParity(events, parity)
  {
  }

  lemma PoolPositive(s: seq<Weighted>, parity: int)
    requires Positive(s) && |OfParity(Unique(s), parity)| >= 2
    ensures WeightOf(s, OfParity(Unique(s), parity)) > 0.0
  {
    UniqueAre(s);
    assert OfParity(Unique(s), parity) != {};
    var n :| n in OfParity(Unique(s), parity);
    var w :| w in s && w.number == n;
    assert w in s && w.number in OfParity(Unique(s), parity);
    WeightPositive(s, OfParity(Unique(s), parity));
  }
}
