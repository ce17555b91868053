/** Bars of higher timeframes, rolled up from five-minute bars. */
module Rollup {
  import opened Prelude
  import opened Market

  /** The bucket of a bar: its day, and its place in the day for intraday timeframes. */
  datatype Bucket = Bucket(day: int, index: int)

  const DERIVED: seq<Timeframe> := [M15, M30, H1, H4, D1]

  /** Intraday buckets are anchored at 09:30 and include their closing instant. */
  function BucketKey(b: Bar, tf: Timeframe): Bucket {
    if tf.D1? then Bucket(b.day, 0) else Bucket(b.day, (b.elapsed - 1) / Seconds(tf))
  }

  /** A bucket in progress, after one more bar. */
  function Merge(acc: Bar, b: Bar): Bar {
    acc.(high := Max(acc.high, b.high), low := Min(acc.low, b.low), close := b.close,
         volume := acc.volume + b.volume, ts := b.ts, day := b.day, elapsed := b.elapsed)
  }

  /** What has been emitted, and the bucket in progress. */
  datatype Rolled = Rolled(emitted: seq<Bar>, acc: Option<Bar>)

  function Add(tf: Timeframe, r: Rolled, b: Bar): Rolled {
    match r.acc
    case None => Rolled(r.emitted, Some(b))
    case Some(acc) =>
      if BucketKey(acc, tf) == BucketKey(b, tf) then Rolled(r.emitted, Some(Merge(acc, b)))
      else Rolled(r.emitted + [acc], Some(b))
  }

  function Fold(tf: Timeframe, bars: seq<Bar>): Rolled {
    if bars == [] then Rolled([], None) else Add(tf, Fold(tf, bars[..|bars| - 1]), bars[|bars| - 1])
  }

  function Flushed(r: Rolled): seq<Bar> {
    r.emitted + (if r.acc.Some? then [r.acc.value] else [])
  }

  /** The whole derived series. */
  function Roll(tf: Timeframe, bars: seq<Bar>): seq<Bar> {
    Flushed(Fold(tf, bars))
  }

  lemma FoldAppend(tf: Timeframe, bars: seq<Bar>, b: Bar)
    ensures Fold(tf, bars + [b]) == Add(tf, Fold(tf, bars), b)
  {
    assert (bars + [b])[..|bars|] == bars;
  }

  // ----- what a derived bar is -----

  function HighOf(bars: seq<Bar>): real
    requires bars != []
  {
    if |bars| == 1 then bars[0].high else Max(HighOf(bars[..|bars| - 1]), bars[|bars| - 1].high)
  }

  function LowOf(bars: seq<Bar>): real
    requires bars != []
  {
    if |bars| == 1 then bars[0].low else Min(LowOf(bars[..|bars| - 1]), bars[|bars| - 1].low)
  }

  /** Open of the first, highest high, lowest low, close and stamp of the last, all the volume. */
  function Aggregate(group: seq<Bar>): Bar
    requires group != []
  {
    var last := group[|group| - 1];
    last.(symbol := group[0].symbol, open := group[0].open, high := HighOf(group), low := LowOf(group),
      volume := Volume(group))
  }

  function Concat(groups: seq<seq<Bar>>): seq<Bar> {
    if groups == [] then [] else Concat(groups[..|groups| - 1]) + groups[|groups| - 1]
  }

  /** A cut of the bars into consecutive groups, each one bucket, neighbours in different ones. */
  ghost predicate Buckets(tf: Timeframe, bars: seq<Bar>, groups: seq<seq<Bar>>) {
    Concat(groups) == bars && Chained(tf, groups)
  }

  ghost predicate Chained(tf: Timeframe, groups: seq<seq<Bar>>) {
    && (forall k :: 0 <= k < |groups| ==> OneBucket(tf, groups[k]))
    && (forall k :: 0 <= k < |groups| - 1 ==> Changes(tf, groups[k], groups[k + 1]))
  }

  ghost predicate OneBucket(tf: Timeframe, group: seq<Bar>) {
    group != [] && forall k :: 0 <= k < |group| ==> BucketKey(group[k], tf) == BucketKey(group[0], tf)
  }

  predicate Changes(tf: Timeframe, group: seq<Bar>, next: seq<Bar>) {
    group != [] && next != [] && BucketKey(group[0], tf) != BucketKey(next[0], tf)
  }

  ghost predicate Summarizes(out: seq<Bar>, groups: seq<seq<Bar>>) {
    |out| == |groups| && forall k :: 0 <= k < |out| ==> groups[k] != [] && out[k] == Aggregate(groups[k])
  }

  lemma AggregateMore(tf: Timeframe, group: seq<Bar>, b: Bar)
    requires group != []
    ensures BucketKey(Aggregate(group), tf) == BucketKey(group[|group| - 1], tf)
    ensures Aggregate(group + [b]) == Merge(Aggregate(group), b)
  {
    var more := group + [b];
    assert more[..|group|] == group;
    assert HighOf(more) == Max(HighOf(group), b.high);
    assert LowOf(more) == Min(LowOf(group), b.low);
    assert Volume(more) == Volume(group) + b.volume;
  }

  lemma AggregateOne(b: Bar)
    ensures Aggregate([b]) == b
  {
    assert [b][..0] == [];
    assert Volume([b]) == Volume([b][..0]) + b.volume;
  }

  lemma ConcatMore(groups: seq<seq<Bar>>, group: seq<Bar>)
    ensures Concat(groups + [group]) == Concat(groups) + group
  {
    var all := groups + [group];
    assert all[..|all| - 1] == groups && all[|all| - 1] == group;
  }

  /** One more bar joins the last group or starts a new one. */
  lemma JoinLast(tf: Timeframe, front: seq<Bar>, before: seq<seq<Bar>>, b: Bar)
    requires Buckets(tf, front, before) && before != [] && before[|before| - 1] != []
    requires BucketKey(before[|before| - 1][0], tf) == BucketKey(b, tf)
    ensures var n := |before| - 1; Buckets(tf, front + [b], before[..n] + [before[n] + [b]])
  {
    hide Chained;
    var n := |before| - 1;
    var group := before[n];
    ConcatMore(before[..n], group);
    ConcatMore(before[..n], group + [b]);
    assert before == before[..n] + [group];
    ChainJoins(tf, before, b);
  }

  lemma ChainJoins(tf: Timeframe, before: seq<seq<Bar>>, b: Bar)
    requires Chained(tf, before) && before != [] && before[|before| - 1] != []
    requires BucketKey(before[|before| - 1][0], tf) == BucketKey(b, tf)
    ensures var n := |before| - 1; Chained(tf, before[..n] + [before[n] + [b]])
  {
    hide BucketKey, OneBucket;
    var n := |before| - 1;
    JoinedBucket(tf, before[n], b);
    var after := before[..n] + [before[n] + [b]];
    assert after[n][0] == before[n][0];
    forall k | 0 <= k < n ensures Changes(tf, after[k], after[k + 1]) {
      assert Changes(tf, before[k], before[k + 1]);
    }
  }

  lemma JoinedBucket(tf: Timeframe, group: seq<Bar>, b: Bar)
    requires OneBucket(tf, group) && BucketKey(group[0], tf) == BucketKey(b, tf)
    ensures OneBucket(tf, group + [b])
  {
    hide BucketKey;
  }

  lemma StartNew(tf: Timeframe, front: seq<Bar>, before: seq<seq<Bar>>, b: Bar)
    requires Buckets(tf, front, before) && before != [] && before[|before| - 1] != []
    requires BucketKey(before[|before| - 1][0], tf) != BucketKey(b, tf)
    ensures Buckets(tf, front + [b], before + [[b]])
  {
    hide Chained, Concat;
    ConcatMore(before, [b]);
    ChainStarts(tf, before, b);
  }

  lemma ChainStarts(tf: Timeframe, before: seq<seq<Bar>>, b: Bar)
    requires Chained(tf, before) && before != [] && before[|before| - 1] != []
    requires BucketKey(before[|before| - 1][0], tf) != BucketKey(b, tf)
    ensures Chained(tf, before + [[b]])
  {
    hide BucketKey, OneBucket;
    OneAlone(tf, b);
    var n := |before|;
    var after := before + [[b]];
    assert after[n] == [b];
    forall k | 0 <= k < n ensures Changes(tf, after[k], after[k + 1]) {
      if k < n - 1 {
        assert Changes(tf, before[k], before[k + 1]);
      }
    }
  }

  lemma OneAlone(tf: Timeframe, b: Bar)
    ensures OneBucket(tf, [b]) && Chained(tf, [[b]])
  {
    hide BucketKey;
  }

  /** The derived bars seen from the side of their groups. */
  ghost predicate Derives(tf: Timeframe, bars: seq<Bar>, groups: seq<seq<Bar>>) {
    var r := Fold(tf, bars);
    && |groups| == |r.emitted| + 1 && r.acc.Some?
    && (forall k :: 0 <= k < |groups| ==> groups[k] != [])
    && (forall k :: 0 <= k < |r.emitted| ==> r.emitted[k] == Aggregate(groups[k]))
    && r.acc.value == Aggregate(groups[|groups| - 1])
  }

  lemma DerivesMore(tf: Timeframe, front: seq<Bar>, before: seq<seq<Bar>>, b: Bar) returns (groups: seq<seq<Bar>>)
    requires Derives(tf, front, before) && Buckets(tf, front, before)
    ensures Derives(tf, front + [b], groups) && Buckets(tf, front + [b], groups)
  {
    hide BucketKey, Merge, Aggregate, Fold, Buckets;
    var n := |before| - 1;
    var group := before[n];
    FoldAppend(tf, front, b);
    AggregateMore(tf, group, b);
    OneKey(tf, front, before);
    if BucketKey(group[0], tf) == BucketKey(b, tf) {
      groups := before[..n] + [group + [b]];
      JoinLast(tf, front, before, b);
    } else {
      groups := before + [[b]];
      AggregateOne(b);
      StartNew(tf, front, before, b);
    }
  }

  lemma OneKey(tf: Timeframe, bars: seq<Bar>, groups: seq<seq<Bar>>)
    requires Buckets(tf, bars, groups) && groups != []
    ensures var group := groups[|groups| - 1];
      group != [] && BucketKey(group[|group| - 1], tf) == BucketKey(group[0], tf)
  {
    hide BucketKey;
    assert OneBucket(tf, groups[|groups| - 1]);
  }

  lemma GroupOfOne(tf: Timeframe, b: Bar)
    ensures Derives(tf, [b], [[b]]) && Buckets(tf, [b], [[b]])
  {
    hide BucketKey, Merge, Aggregate, Chained;
    AggregateOne(b);
    OneAlone(tf, b);
    ConcatMore([], [b]);
    assert [] + [[b]] == [[b]];
    FoldAppend(tf, [], b);
    assert [] + [b] == [b];
  }

  lemma {:induction false} GroupsOf(tf: Timeframe, bars: seq<Bar>) returns (groups: seq<seq<Bar>>)
    requires bars != []
    ensures Derives(tf, bars, groups) && Buckets(tf, bars, groups)
  {
    hide BucketKey, Merge, Aggregate, Derives, Buckets;
    var front, b := bars[..|bars| - 1], bars[|bars| - 1];
    assert front + [b] == bars;
    if front == [] {
      groups := [[b]];
      GroupOfOne(tf, b);
    } else {
      var before := GroupsOf(tf, front);
      groups := DerivesMore(tf, front, before, b);
    }
  }

  /**
   * Each derived bar is exactly the aggregate of the consecutive input bars of its bucket, and the
   * groups make up the input: nothing is lost, split or counted twice.
   */
  lemma RollSummarizesBuckets(tf: Timeframe, bars: seq<Bar>) returns (groups: seq<seq<Bar>>)
    ensures Buckets(tf, bars, groups)
    ensures Summarizes(Roll(tf, bars), groups)
  {
    hide BucketKey, Merge, Aggregate;
    groups := [];
    if bars != [] {
      groups := GroupsOf(tf, bars);
    }
  }

  // ----- conservation and validity -----

  lemma VolumeMore(bars: seq<Bar>, b: Bar)
    ensures Volume(bars + [b]) == Volume(bars) + b.volume
  {
    assert (bars + [b])[..|bars|] == bars;
  }

  lemma AddVolume(tf: Timeframe, r: Rolled, b: Bar)
    ensures Volume(Flushed(Add(tf, r, b))) == Volume(Flushed(r)) + b.volume
  {
    hide BucketKey, Volume;
    VolumeMore(r.emitted, b);
    assert r.emitted + [] == r.emitted;
    if r.acc.Some? {
      VolumeMore(r.emitted, r.acc.value);
      VolumeMore(r.emitted, Merge(r.acc.value, b));
      VolumeMore(r.emitted + [r.acc.value], b);
    }
  }

  /** Emitted and in-progress volume is the input's volume, at every moment. */
  lemma {:induction false} VolumeIsConserved(tf: Timeframe, bars: seq<Bar>)
    ensures Volume(Roll(tf, bars)) == Volume(bars)
    ensures var r := Fold(tf, bars);
      Volume(r.emitted) + (if r.acc.Some? then r.acc.value.volume else 0.0) == Volume(bars)
  {
    hide BucketKey, Add;
    var r := Fold(tf, bars);
    if bars != [] {
      var front := bars[..|bars| - 1];
      VolumeIsConserved(tf, front);
      AddVolume(tf, Fold(tf, front), bars[|bars| - 1]);
    }
    if r.acc.Some? {
      VolumeMore(r.emitted, r.acc.value);
    } else {
      assert Roll(tf, bars) == r.emitted;
    }
  }

  /** Every derived bar passes the check that bars are built with. */
  lemma {:induction false} RollStaysSane(tf: Timeframe, bars: seq<Bar>)
    requires AllSane(bars)
    ensures AllSane(Fold(tf, bars).emitted) && (Fold(tf, bars).acc.Some? ==> Sane(Fold(tf, bars).acc.value))
    ensures AllSane(Roll(tf, bars))
  {
    hide BucketKey;
    if bars != [] {
      RollStaysSane(tf, bars[..|bars| - 1]);
    }
  }

  // ----- nesting -----

  /** The second timeframe is made of whole buckets of the first. */
  predicate Divides(fine: Timeframe, coarse: Timeframe) {
    coarse.D1? || (!fine.D1? && Seconds(coarse) % Seconds(fine) == 0)
  }

  lemma AtLeast(n: int, d: nat)
    requires n >= 1
    ensures n * d >= d
  {
  }

  lemma Divided(x: int, d: nat) returns (q: int, r: int)
    requires d > 0
    ensures q == x / d && r == x % d && x == q * d + r && 0 <= r < d
  {
    q, r := x / d, x % d;
  }

  lemma Compare(q: int, q': int, r: int, r': int, d: nat)
    requires q > q' && 0 <= r < d && 0 <= r' < d
    ensures q * d + r > q' * d + r'
  {
    AtLeast(q - q', d);
    assert (q - q') * d == q * d - q' * d;
  }

  lemma QuotientMonotone(x: int, y: int, d: nat)
    requires d > 0 && x <= y
    ensures x / d <= y / d
  {
    var q, r := Divided(x, d);
    var q', r' := Divided(y, d);
    if q > q' {
      Compare(q, q', r, r', d);
    }
  }

  lemma EuclideanUnique(e: int, d: nat, q: int, r: int)
    requires d > 0 && e == q * d + r && 0 <= r < d
    ensures e / d == q
  {
    var q', r' := Divided(e, d);
    if q' > q {
      Compare(q', q, r', r, d);
    } else if q' < q {
      Compare(q, q', r, r', d);
    }
  }

  lemma Expand(q: int, k: int, r: int, m: int)
    ensures (q * k + r) * m == q * (m * k) + r * m
  {
  }

  lemma RestFits(r2: int, k: int, r: int, m: int)
    requires 0 <= r2 < k && 0 <= r < m
    ensures 0 <= r2 * m + r < m * k
  {
    var gap := k - 1 - r2;
    assert gap * m >= 0;
    assert gap * m == m * k - m - r2 * m;
  }

  lemma QuotientsNest(e: int, m: nat, k: nat)
    requires m > 0 && k > 0
    ensures m * k > 0 && e / (m * k) == (e / m) / k
  {
    var q, r := Divided(e, m);
    var q2, r2 := Divided(q, k);
    Expand(q2, k, r2, m);
    RestFits(r2, k, r, m);
    EuclideanUnique(e, m * k, q2, r2 * m + r);
  }

  lemma SameFineSameCoarse(fine: Timeframe, coarse: Timeframe, a: Bar, b: Bar)
    requires Divides(fine, coarse) && BucketKey(a, fine) == BucketKey(b, fine)
    ensures BucketKey(a, coarse) == BucketKey(b, coarse)
  {
    if !coarse.D1? {
      var k := Seconds(coarse) / Seconds(fine);
      assert Seconds(coarse) == Seconds(fine) * k;
      QuotientsNest(a.elapsed - 1, Seconds(fine), k);
      QuotientsNest(b.elapsed - 1, Seconds(fine), k);
    }
  }

  lemma MergeAssociates(a: Bar, b: Bar, c: Bar)
    ensures Merge(Merge(a, b), c) == Merge(a, Merge(b, c))
  {
  }

  lemma MergeKey(tf: Timeframe, a: Bar, b: Bar)
    ensures BucketKey(Merge(a, b), tf) == BucketKey(b, tf)
  {
  }

  /** Two bars of one fine bucket may be merged before they are added to the coarse one. */
  lemma AddMerged(fine: Timeframe, coarse: Timeframe, r: Rolled, a: Bar, b: Bar)
    requires Divides(fine, coarse) && BucketKey(a, fine) == BucketKey(b, fine)
    ensures Add(coarse, r, Merge(a, b)) == Add(coarse, Add(coarse, r, a), b)
  {
    hide BucketKey, Merge, Divides;
    SameFineSameCoarse(fine, coarse, a, b);
    MergeKey(coarse, a, b);
    if r.acc.Some? {
      MergeAssociates(r.acc.value, a, b);
      MergeKey(coarse, r.acc.value, a);
    }
  }

  lemma {:induction false} FoldNests(fine: Timeframe, coarse: Timeframe, bars: seq<Bar>)
    requires Divides(fine, coarse)
    ensures Fold(coarse, Roll(fine, bars)) == Fold(coarse, bars)
  {
    hide BucketKey, Merge, Divides;
    if bars != [] {
      var front, b := bars[..|bars| - 1], bars[|bars| - 1];
      FoldNests(fine, coarse, front);
      var r := Fold(fine, front);
      if r.acc.Some? {
        FoldAppend(coarse, r.emitted, r.acc.value);
        if BucketKey(r.acc.value, fine) == BucketKey(b, fine) {
          FoldAppend(coarse, r.emitted, Merge(r.acc.value, b));
          AddMerged(fine, coarse, Fold(coarse, r.emitted), r.acc.value, b);
        } else {
          FoldAppend(coarse, r.emitted + [r.acc.value], b);
        }
      } else {
        FoldAppend(coarse, r.emitted, b);
        assert Roll(fine, front) == r.emitted;
      }
    }
  }

  /** Rolling up the fine series gives the coarse series: 15m to 30m, 1H, 4H and D, and so on up. */
  lemma RollNests(fine: Timeframe, coarse: Timeframe, bars: seq<Bar>)
    requires fine in DERIVED && coarse in DERIVED && Seconds(fine) <= Seconds(coarse)
    ensures Roll(coarse, Roll(fine, bars)) == Roll(coarse, bars)
  {
    FoldNests(fine, coarse, bars);
  }

  // ----- each bucket once -----

  predicate Later(a: Bar, b: Bar) {
    a.day < b.day || (a.day == b.day && a.elapsed < b.elapsed)
  }

  predicate Above(x: Bucket, y: Bucket) {
    x.day < y.day || (x.day == y.day && x.index < y.index)
  }

  ghost predicate InClockOrder(bars: seq<Bar>) {
    forall j, k :: 0 <= j < k < |bars| ==> Later(bars[j], bars[k])
  }

  lemma LaterBucket(tf: Timeframe, a: Bar, b: Bar)
    requires Later(a, b)
    ensures BucketKey(a, tf) == BucketKey(b, tf) || Above(BucketKey(a, tf), BucketKey(b, tf))
  {
    if a.day == b.day && !tf.D1? {
      QuotientMonotone(a.elapsed - 1, b.elapsed - 1, Seconds(tf));
    }
  }

  ghost predicate Ascending(tf: Timeframe, out: seq<Bar>) {
    forall j, k :: 0 <= j < k < |out| ==> Above(BucketKey(out[j], tf), BucketKey(out[k], tf))
  }

  lemma {:induction false} RollAscends(tf: Timeframe, bars: seq<Bar>)
    requires InClockOrder(bars)
    ensures Ascending(tf, Roll(tf, bars))
    ensures bars != [] ==> Fold(tf, bars).acc.Some? && Stamp(Fold(tf, bars).acc.value, bars[|bars| - 1])
    ensures bars != [] ==> Roll(tf, bars) == Fold(tf, bars).emitted + [Fold(tf, bars).acc.value]
  {
    hide BucketKey, Merge;
    if bars != [] {
      var front, b := bars[..|bars| - 1], bars[|bars| - 1];
      RollAscends(tf, front);
      if front != [] {
        var r := Fold(tf, front);
        var acc := r.acc.value;
        StampKey(tf, acc, front[|front| - 1]);
        MergeStamp(acc, b);
        LaterBucket(tf, front[|front| - 1], b);
        AscendingMore(tf, r.emitted, acc, b, Merge(acc, b));
      }
    }
  }

  predicate Stamp(a: Bar, b: Bar) {
    a.ts == b.ts && a.day == b.day && a.elapsed == b.elapsed
  }

  lemma StampKey(tf: Timeframe, a: Bar, b: Bar)
    requires Stamp(a, b)
    ensures BucketKey(a, tf) == BucketKey(b, tf)
  {
  }

  lemma MergeStamp(a: Bar, b: Bar)
    ensures Stamp(Merge(a, b), b)
  {
  }

  lemma AscendingMore(tf: Timeframe, out: seq<Bar>, acc: Bar, b: Bar, merged: Bar)
    requires Ascending(tf, out + [acc]) && Stamp(merged, b)
    requires BucketKey(acc, tf) == BucketKey(b, tf) || Above(BucketKey(acc, tf), BucketKey(b, tf))
    ensures BucketKey(acc, tf) == BucketKey(b, tf) ==> Ascending(tf, out + [merged])
    ensures BucketKey(acc, tf) != BucketKey(b, tf) ==> Ascending(tf, out + [acc] + [b])
  {
    hide BucketKey;
    StampKey(tf, merged, b);
    var was := out + [acc];
    assert was[|out|] == acc;
    assert forall k :: 0 <= k < |out| ==> was[k] == out[k];
    forall k | 0 <= k < |out| ensures Above(BucketKey(out[k], tf), BucketKey(acc, tf)) {
      assert Above(BucketKey(was[k], tf), BucketKey(was[|out|], tf));
    }
    forall j, k | 0 <= j < k < |out| ensures Above(BucketKey(out[j], tf), BucketKey(out[k], tf)) {
      assert Above(BucketKey(was[j], tf), BucketKey(was[k], tf));
    }
  }

  lemma {:induction false} EveryBucketAppears(tf: Timeframe, bars: seq<Bar>, k: nat)
    requires k < |bars|
    ensures exists n :: 0 <= n < |Roll(tf, bars)| && BucketKey(Roll(tf, bars)[n], tf) == BucketKey(bars[k], tf)
  {
    var groups := RollSummarizesBuckets(tf, bars);
    var n, m := ConcatFinds(groups, k);
    AggregateMore(tf, groups[n], bars[k]);
    assert OneBucket(tf, groups[n]);
    assert BucketKey(Roll(tf, bars)[n], tf) == BucketKey(groups[n][m], tf);
  }

  lemma {:induction false} ConcatFinds(groups: seq<seq<Bar>>, k: nat) returns (n: nat, m: nat)
    requires k < |Concat(groups)|
    ensures n < |groups| && m < |groups[n]| && groups[n][m] == Concat(groups)[k]
  {
    var front, last := groups[..|groups| - 1], groups[|groups| - 1];
    if k < |Concat(front)| {
      n, m := ConcatFinds(front, k);
    } else {
      n, m := |groups| - 1, k - |Concat(front)|;
    }
  }

  /** On increasing input every bucket that occurs is emitted exactly once. */
  lemma EachBucketOnce(tf: Timeframe, bars: seq<Bar>, k: nat) returns (n: nat)
    requires InClockOrder(bars) && k < |bars|
    ensures var out := Roll(tf, bars);
      && n < |out| && BucketKey(out[n], tf) == BucketKey(bars[k], tf)
      && forall m :: 0 <= m < |out| && BucketKey(out[m], tf) == BucketKey(bars[k], tf) ==> m == n
  {
    hide Roll, BucketKey;
    EveryBucketAppears(tf, bars, k);
    RollAscends(tf, bars);
    n :| 0 <= n < |Roll(tf, bars)| && BucketKey(Roll(tf, bars)[n], tf) == BucketKey(bars[k], tf);
  }
}
