/** Thinning a plotted series: the extremes of every bucket and both ends. */
module Decimation {

  datatype Series = Series(x: seq<real>, y: seq<real>) | LengthMismatch | OverLimit

  /** Floor division, as the source's `//`. */
  function BucketCount(limit: int): (n: nat)
    ensures n >= 1 && (if limit >= 4 then 2 + 2 * n <= limit < 2 + 2 * (n + 1) else n == 1)
  {
    if limit < 4 then 1 else (limit - 2) / 2
  }

  /** Where bucket `k` of `count` begins in a series of `n` points. */
  function BucketStart(k: nat, n: nat, count: nat): nat
    requires count > 0
  {
    k * n / count
  }

  /** The first index of a least value in a non-empty range. */
  function FirstLeast(y: seq<real>, from: nat, to: nat): (i: nat)
    requires from < to <= |y|
    ensures from <= i < to && (forall j :: from <= j < to ==>
        y[i] <= y[j]) && (forall j :: from <= j < i ==> y[i] < y[j])
  {
    if to == from + 1 then from
    else
      var i := FirstLeast(y, from, to - 1);
      if y[to - 1] < y[i] then to - 1 else i
  }

  function FirstGreatest(y: seq<real>, from: nat, to: nat): (i: nat)
    requires from < to <= |y|
    ensures from <= i < to && (forall j :: from <= j < to ==>
        y[j] <= y[i]) && (forall j :: from <= j < i ==> y[j] < y[i])
  {
    if to == from + 1 then from
    else
      var i := FirstGreatest(y, from, to - 1);
      if y[i] < y[to - 1] then to - 1 else i
  }

  lemma QuotientBounds(a: nat, b: nat)
    requires b > 0
    ensures a / b * b <= a < (a / b + 1) * b
  {
  }

  lemma TimesMonotone(a: nat, b: nat, c: nat)
    requires a <= b
    ensures a * c <= b * c
  {
  }

  lemma QuotientGrows(p: nat, q: nat, c: nat)
    requires c > 0 && p + c <= q
    ensures p / c < q / c
  {
    QuotientBounds(p, c);
    QuotientBounds(q, c);
    if q / c <= p / c { TimesMonotone(q / c + 1, p / c + 1, c); }
  }

  lemma QuotientAtMost(p: nat, n: nat, c: nat)
    requires c > 0 && p <= n * c
    ensures p / c <= n
  {
    QuotientBounds(p, c);
    if n < p / c { TimesMonotone(n + 1, p / c, c); }
  }

  lemma QuotientExact(n: nat, c: nat)
    requires c > 0
    ensures c * n / c == n
  {
    QuotientAtMost(c * n, n, c);
    QuotientBounds(c * n, c);
    if c * n / c < n { TimesMonotone(c * n / c + 1, n, c); }
  }

  /** The buckets follow each other without gap or overlap, none is empty, and
      together they cover the series. */
  lemma BucketsPartition(k: nat, n: nat, count: nat)
    requires 0 < count <= n && k < count
    ensures BucketStart(0, n, count) == 0 && BucketStart(count, n, count) == n
    ensures BucketStart(k, n, count) < BucketStart(k + 1, n, count) <= n
    ensures BucketStart(k, n, count) * count <= k * n < (BucketStart(k, n, count) + 1) * count
  {
    QuotientBounds(k * n, count);
    QuotientExact(n, count);
    QuotientAtMost(0, 0, count);
    assert (k + 1) * n == k * n + n;
    QuotientGrows(k * n, (k + 1) * n, count);
    TimesMonotone(k + 1, count, n);
    QuotientAtMost((k + 1) * n, n, count);
  }

  /** Every point lies in one bucket. */
  lemma {:induction false} BucketOf(i: nat, n: nat, count: nat, upTo: nat) returns (k: nat)
    requires 0 < count <= n && upTo <= count && i < BucketStart(upTo, n, count)
    ensures k < upTo && BucketStart(k, n, count) <= i < BucketStart(k + 1, n, count)
    decreases upTo
  {
    BucketsPartition(0, n, count);
    hide BucketStart;
    if BucketStart(upTo - 1, n, count) <= i { k := upTo - 1; } else { k := BucketOf(i, n, count, upTo - 1); }
  }

  /** The indices kept of the first `k` buckets, and both ends. */
  function Kept(y: seq<real>, count: nat, k: nat): set<nat>
    requires 0 < count <= |y| && k <= count
  {
    if k == 0 then {0, |y| - 1}
    else
      BucketsPartition(k - 1, |y|, count);
      var from, to := BucketStart(k - 1, |y|, count), BucketStart(k, |y|, count);
      Kept(y, count, k - 1) + {FirstLeast(y, from, to), FirstGreatest(y, from, to)}
  }

  /** The members of a set below `n`, in order. */
  function Sorted(s: set<nat>, n: nat): seq<nat> {
    if n == 0 then [] else Sorted(s, n - 1) + (if n - 1 in s then [n - 1] else [])
  }

  function At(xs: seq<real>, indices: seq<nat>): seq<real>
    requires forall i :: i in indices ==> i < |xs|
  {
    seq(|indices|, k requires 0 <= k < |indices| => assert indices[k] in indices; xs[indices[k]])
  }

  lemma {:induction false} SortedIs(s: set<nat>, n: nat)
    ensures forall i :: i in Sorted(s, n) <==> i in s && i < n
    ensures forall a, b :: 0 <= a < b < |Sorted(s, n)| ==> Sorted(s, n)[a] < Sorted(s, n)[b]
  {
    if n > 0 {
      SortedIs(s, n - 1);
      var init := Sorted(s, n - 1);
      forall a | 0 <= a < |init| ensures init[a] < n - 1 { assert init[a] in init; }
    }
  }

  lemma {:induction false} SortedSize(s: set<nat>, n: nat)
    requires forall i :: i in s ==> i < n
    ensures |Sorted(s, n)| == |s|
  {
    if n > 0 {
      var rest := s - {n - 1};
      SortedSize(rest, n - 1);
      SortedSame(s, rest, n - 1);
    } else {
      assert s == {};
    }
  }

  lemma {:induction false} SortedSame(s: set<nat>, t: set<nat>, n: nat)
    requires forall i :: 0 <= i < n ==> (i in s <==> i in t)
    ensures Sorted(s, n) == Sorted(t, n)
  {
    if n > 0 { SortedSame(s, t, n - 1); }
  }

  lemma AddTwo(s: set<nat>, a: nat, b: nat)
    ensures |s + {a, b}| <= |s| + 2
  {
    assert s + {a, b} == s + {a} + {b};
    assert |s + {a}| <= |s| + 1;
  }

  lemma {:induction false} KeptBounds(y: seq<real>, count: nat, k: nat)
    requires 0 < count <= |y| && k <= count
    ensures |Kept(y, count, k)| <= 2 + 2 * k && 0 in Kept(y, count, k) && |y| - 1 in Kept(y, count, k)
    ensures forall i :: i in Kept(y, count, k) ==> i < |y|
  {
    hide BucketStart, FirstLeast, FirstGreatest, Kept;
    if k > 0 {
      KeptBounds(y, count, k - 1);
      KeptMore(y, count, k - 1);
      var from, to := BucketStart(k - 1, |y|, count), BucketStart(k, |y|, count);
      AddTwo(Kept(y, count, k - 1), FirstLeast(y, from, to), FirstGreatest(y, from, to));
    } else {
      KeptNone(y, count);
      AddTwo({}, 0, |y| - 1);
      assert {} + {0, |y| - 1} == {0, |y| - 1};
    }
  }

  lemma {:induction false} KeptOf(y: seq<real>, count: nat, k: nat, n: nat)
    requires 0 < count <= |y| && k < n <= count
    ensures BucketStart(k, |y|, count) < BucketStart(k + 1, |y|, count) <= |y|
    ensures var from, to := BucketStart(k, |y|, count), BucketStart(k + 1, |y|, count);
      FirstLeast(y, from, to) in Kept(y, count, n) && FirstGreatest(y, from, to) in Kept(y, count, n)
    decreases n
  {
    hide BucketStart, FirstLeast, FirstGreatest;
    BucketsPartition(k, |y|, count);
    if k < n - 1 { KeptOf(y, count, k, n - 1); }
  }

  lemma KeptNone(y: seq<real>, count: nat)
    requires 0 < count <= |y|
    ensures Kept(y, count, 0) == {0, |y| - 1}
  {
  }

  lemma KeptMore(y: seq<real>, count: nat, k: nat)
    requires 0 < count <= |y| && k < count
    ensures BucketStart(k, |y|, count) < BucketStart(k + 1, |y|, count) <= |y|
    ensures Kept(y, count, k + 1) == Kept(y, count, k)
      + {FirstLeast(y, BucketStart(k, |y|, count), BucketStart(k + 1, |y|, count)),
          FirstGreatest(y, BucketStart(k, |y|, count), BucketStart(k + 1, |y|, count))}
  {
    hide BucketStart, FirstLeast, FirstGreatest;
    BucketsPartition(k, |y|, count);
  }

  predicate Inner(y: seq<real>, i: nat) { 0 < i < |y| - 1 }

  /** A series whose ends and extremes are more points than the limit allows. */
  predicate Crowded(y: seq<real>, limit: int) {
    || limit < 2
    || (2 <= limit < 4 && limit < |y| &&
        var least, greatest := FirstLeast(y, 0, |y|), FirstGreatest(y, 0, |y|);
        if limit == 2 then Inner(y, least) || Inner(y, greatest)
        else Inner(y, least) && Inner(y, greatest) && least != greatest)
  }

  /** Below a limit of four there is one bucket, the whole series. */
  lemma KeptOfOne(y: seq<real>)
    requires 0 < |y|
    ensures Kept(y, 1, 1) == {0, |y| - 1} + {FirstLeast(y, 0, |y|), FirstGreatest(y, 0, |y|)}
  {
    hide FirstLeast, FirstGreatest;
    BucketsPartition(0, |y|, 1);
    KeptNone(y, 1);
  }

  lemma CrowdedIs(y: seq<real>, limit: int)
    requires 0 < |y| && limit < |y|
    ensures BucketCount(limit) <= |y|
    ensures |Kept(y, BucketCount(limit), BucketCount(limit))| > limit <==> Crowded(y, limit)
  {
    hide Kept, FirstLeast, FirstGreatest, Inner;
    KeptBounds(y, BucketCount(limit), BucketCount(limit));
    if limit < 4 {
      KeptOfOne(y);
      OneBucket(y, FirstLeast(y, 0, |y|), FirstGreatest(y, 0, |y|));
      ThreeOrMore(y, limit);
    }
  }

  function Ends(y: seq<real>): set<nat>
    requires 0 < |y|
  {
    {0, |y| - 1}
  }

  function Inners(y: seq<real>, a: nat, b: nat): set<nat> {
    (if Inner(y, a) then {a} else {}) + (if Inner(y, b) then {b} else {})
  }

  /** Both ends, and the extremes that are none of them. */
  lemma OneBucket(y: seq<real>, a: nat, b: nat)
    requires a < |y| && b < |y|
    ensures |{0, |y| - 1} + {a, b}| ==
      (if |y| == 1 then 1 else 2) + (if Inner(y, a) then 1 else 0) + (if Inner(y, b) && a != b then 1 else 0)
  {
    hide Inner, Ends, Inners;
    BucketParts(y, a, b);
    InnerCount(y, a, b);
    EndsCount(y);
  }

  lemma BucketParts(y: seq<real>, a: nat, b: nat)
    requires a < |y| && b < |y|
    ensures {0, |y| - 1} + {a, b} == Ends(y) + Inners(y, a, b) && Ends(y) !! Inners(y, a, b)
  {
  }

  lemma EndsCount(y: seq<real>)
    requires 0 < |y|
    ensures |Ends(y)| == if |y| == 1 then 1 else 2
  {
    if |y| == 1 { assert Ends(y) == {0}; }
  }

  lemma InnerCount(y: seq<real>, a: nat, b: nat)
    ensures |Inners(y, a, b)| == (if Inner(y, a) then 1 else 0) + (if Inner(y, b) && a != b then 1 else 0)
  {
    hide Inner;
    assert {a} + {a} == {a};
  }

  lemma ThreeOrMore(y: seq<real>, limit: int)
    requires 0 < |y| && limit < |y| && limit < 4
    ensures var least, greatest := FirstLeast(y, 0, |y|), FirstGreatest(y, 0, |y|);
      Crowded(y, limit) <==>
        (if |y| == 1 then 1 else 2) + (if Inner(y, least) then 1 else 0)
          + (if Inner(y, greatest) && least != greatest then 1 else 0) > limit
  {
    hide FirstLeast, FirstGreatest, Inner;
  }

  /** `bounded_series`. The indices are ghost evidence of what was kept. */
  method BoundedSeries(x: seq<real>, y: seq<real>, limit: int) returns (r: Series, ghost indices: seq<nat>)
    ensures r.LengthMismatch? <==> |x| != |y|
    ensures |x| == |y| && |x| <= limit ==> r == Series(x, y)
    ensures limit >= 4 ==> !r.OverLimit?
    ensures r.Series? ==> |r.x| == |r.y| <= limit
    ensures |x| == |y| && limit < |x| ==> (r.OverLimit? <==> Crowded(y, limit))
    ensures r.Series? && limit < |x| ==>
      Thinned(y, limit, indices) && (forall i :: i in indices ==>
        i < |y|) && r == Series(At(x, indices), At(y, indices))
  {
    hide BucketStart, FirstLeast, FirstGreatest, Thinned, Kept, Sorted, Inner;
    indices := [];
    if |x| != |y| { return LengthMismatch, []; }
    if |x| <= limit { return Series(x, y), []; }
    var count := BucketCount(limit);
    if |x| == 0 { return OverLimit, []; }
    var selected: set<nat> := {0, |x| - 1};
    var bucket := 0;
    KeptNone(y, count);
    while bucket < count
      invariant 0 <= bucket <= count <= |y| && selected == Kept(y, count, bucket)
    {
      BucketsPartition(bucket, |y|, count);
      KeptMore(y, count, bucket);
      var from, to := BucketStart(bucket, |y|, count), BucketStart(bucket + 1, |y|, count);
      selected := selected + {FirstLeast(y, from, to), FirstGreatest(y, from, to)};
      bucket := bucket + 1;
    }
    KeptBounds(y, count, count);
    CrowdedIs(y, limit);
    SortedIs(selected, |y|);
    SortedSize(selected, |y|);
    var kept := Sorted(selected, |y|);
    if |kept| > limit { return OverLimit, []; }
    ThinnedBy(y, limit);
    return Series(At(x, kept), At(y, kept)), kept;
  }

  /** What thinning keeps: an ordered selection with both ends, such that every
      point lies between two kept values of its own bucket. */
  predicate Thinned(y: seq<real>, limit: int, indices: seq<nat>) {
    var n, count := |y|, BucketCount(limit);
    && n > 0 && (forall a, b :: 0 <= a < b < |indices| ==>
        indices[a] < indices[b]) && (forall i :: i in indices ==> i < n)
    && 0 in indices && n - 1 in indices
    && forall i :: 0 <= i < n ==> Between(y, count, indices, i)
  }

  predicate Between(y: seq<real>, count: nat, indices: seq<nat>, i: nat)
    requires i < |y| && count > 0
  {
    exists k, lo, hi :: 0 <= k < count && lo in indices && hi in indices && InBucket(k, |y|, count, i)
      && InBucket(k, |y|, count, lo)
      && InBucket(k, |y|, count, hi) && lo < |y| && hi < |y| && y[lo] <= y[i] <= y[hi]
  }

  predicate InBucket(k: nat, n: nat, count: nat, i: nat)
    requires count > 0
  {
    BucketStart(k, n, count) <= i < BucketStart(k + 1, n, count)
  }

  lemma ThinnedBy(y: seq<real>, limit: int)
    requires 0 < |y| && BucketCount(limit) <= |y|
    ensures Thinned(y, limit, Sorted(Kept(y, BucketCount(limit), BucketCount(limit)), |y|))
  {
    hide BucketStart;
    var n, count := |y|, BucketCount(limit);
    var kept := Kept(y, count, count);
    var indices := Sorted(kept, n);
    KeptBounds(y, count, count);
    SortedIs(kept, n);
    forall i | 0 <= i < n ensures Between(y, count, indices, i) {
      BucketsPartition(0, n, count);
      var k := BucketOf(i, n, count, count);
      KeptOf(y, count, k, count);
      var from, to := BucketStart(k, n, count), BucketStart(k + 1, n, count);
      var lo, hi := FirstLeast(y, from, to), FirstGreatest(y, from, to);
      assert InBucket(k, n, count, i) && InBucket(k, n, count, lo) && InBucket(k, n, count, hi);
    }
  }

  /** The least and the greatest value of the series are always kept. */
  lemma ExtremesAreKept(y: seq<real>, limit: int, indices: seq<nat>, i: nat)
    requires Thinned(y, limit, indices) && i < |y|
    requires (forall j :: 0 <= j < |y| ==> y[i] <= y[j]) || (forall j :: 0 <= j < |y| ==> y[j] <= y[i])
    ensures exists k :: k in indices && k < |y| && y[k] == y[i]
  {
    var count := BucketCount(limit);
    assert Between(y, count, indices, i);
    var k, lo, hi :| 0 <= k < count && lo in indices && hi in indices && InBucket(k, |y|, count, i)
      && InBucket(k, |y|, count, lo)
      && InBucket(k, |y|, count, hi) && lo < |y| && hi < |y| && y[lo] <= y[i] <= y[hi];
    assert y[lo] == y[i] || y[hi] == y[i];
  }

  /** Below a limit of four the selection can be too large. */
  lemma SmallLimitsOverflow()
    ensures var y := [1.0, 0.0, 2.0, 1.0]; BucketCount(3) == 1 && |Kept(y, 1, 1)| > 3
  {
    var y := [1.0, 0.0, 2.0, 1.0];
    BucketsPartition(0, 4, 1);
    assert FirstLeast(y, 0, 4) == 1;
    assert FirstGreatest(y, 0, 4) == 2;
    assert Kept(y, 1, 0) == {0, 3};
    assert Kept(y, 1, 1) == {0, 3, 1, 2};
  }
}
