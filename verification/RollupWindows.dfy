/** Which bars make up a derived bar, by the clock: windows of the day, anchored at 09:30. */
module RollupWindows {
  import opened Market
  import opened Rollup

  /** The length of an intraday timeframe, in seconds. */
  function Length(tf: Timeframe): nat {
    match tf
    case M15 => 15 * 60
    case M30 => 30 * 60
    case H1 => 60 * 60
    case H4 => 4 * 60 * 60
    case _ => 24 * 60 * 60
  }

  /** Closed in window `i` of a day: after its start and no later than its end. A day is one window. */
  predicate InWindow(tf: Timeframe, b: Bar, day: int, i: int) {
    b.day == day && (tf != D1 ==> i * Length(tf) < b.elapsed <= (i + 1) * Length(tf))
  }

  /** The bars of one window, in order. */
  function WindowOf(tf: Timeframe, bars: seq<Bar>, day: int, i: int): seq<Bar> {
    if bars == [] then []
    else
      var last := bars[|bars| - 1];
      WindowOf(tf, bars[..|bars| - 1], day, i) + (if InWindow(tf, last, day, i) then [last] else [])
  }

  /** First open, highest high, lowest low, last close and stamp, and all the volume of some bars. */
  ghost predicate Sums(d: Bar, group: seq<Bar>) {
    && group != []
    && d.symbol == group[0].symbol && d.open == group[0].open
    && d.close == group[|group| - 1].close && Stamp(d, group[|group| - 1])
    && (forall k :: 0 <= k < |group| ==> group[k].high <= d.high && d.low <= group[k].low)
    && (exists k :: 0 <= k < |group| && group[k].high == d.high)
    && (exists k :: 0 <= k < |group| && group[k].low == d.low)
    && d.volume == Volume(group)
  }

  lemma {:induction false} ExtremesOf(group: seq<Bar>)
    requires group != []
    ensures forall k :: 0 <= k < |group| ==> group[k].high <= HighOf(group) && LowOf(group) <= group[k].low
    ensures exists k :: 0 <= k < |group| && group[k].high == HighOf(group)
    ensures exists k :: 0 <= k < |group| && group[k].low == LowOf(group)
  {
    var n := |group| - 1;
    if n == 0 {
      assert group[0].high == HighOf(group) && group[0].low == LowOf(group);
    } else {
      var front := group[..n];
      ExtremesOf(front);
      var j :| 0 <= j < |front| && front[j].high == HighOf(front);
      var k :| 0 <= k < |front| && front[k].low == LowOf(front);
      assert group[j].high == HighOf(front) && group[k].low == LowOf(front);
      assert forall m :: 0 <= m < n ==> group[m] == front[m];
      assert group[n].high == HighOf(group) || group[j].high == HighOf(group);
      assert group[n].low == LowOf(group) || group[k].low == LowOf(group);
    }
  }

  lemma AggregateSums(group: seq<Bar>)
    requires group != []
    ensures Sums(Aggregate(group), group)
  {
    hide Volume;
    ExtremesOf(group);
  }

  /** A bucket is a window. */
  lemma KeyIsWindow(tf: Timeframe, b: Bar, day: int, i: int)
    requires tf in DERIVED && (tf == D1 ==> i == 0)
    ensures BucketKey(b, tf) == Bucket(day, i) <==> InWindow(tf, b, day, i)
  {
    if tf != D1 {
      var n, e := Length(tf), b.elapsed - 1;
      assert n == Seconds(tf);
      var q, r := Divided(e, n);
      Expand(i, 1, 0, n);
      if InWindow(tf, b, day, i) {
        EuclideanUnique(e, n, i, e - i * n);
      }
    }
  }

  function IndexOf(tf: Timeframe, b: Bar): int {
    BucketKey(b, tf).index
  }

  /** Two bars are of one bucket exactly if one window holds both. */
  lemma SameKeySameWindow(tf: Timeframe, a: Bar, b: Bar)
    requires tf in DERIVED
    ensures InWindow(tf, a, a.day, IndexOf(tf, a))
    ensures BucketKey(a, tf) == BucketKey(b, tf) <==> Together(tf, a, b)
  {
    hide BucketKey;
    KeyDay(tf, a);
    KeyIsWindow(tf, a, a.day, IndexOf(tf, a));
    KeyIsWindow(tf, b, a.day, IndexOf(tf, a));
    if Together(tf, a, b) {
      var day, i :| InWindow(tf, a, day, i) && InWindow(tf, b, day, i);
      var j := if tf == D1 then 0 else i;
      KeyIsWindow(tf, a, day, j);
      KeyIsWindow(tf, b, day, j);
    }
  }

  lemma KeyDay(tf: Timeframe, a: Bar)
    ensures BucketKey(a, tf).day == a.day && (tf == D1 ==> BucketKey(a, tf).index == 0)
    ensures BucketKey(a, tf) == Bucket(a.day, IndexOf(tf, a))
  {
  }

  /** One window holds both bars. */
  ghost predicate Together(tf: Timeframe, a: Bar, b: Bar) {
    exists day, i :: InWindow(tf, a, day, i) && InWindow(tf, b, day, i)
  }

  // ----- any input -----

  /** Consecutive groups that make up the input, each within one window and neighbours in different ones. */
  ghost predicate Windows(tf: Timeframe, bars: seq<Bar>, groups: seq<seq<Bar>>) {
    && Concat(groups) == bars
    && (forall n :: 0 <= n < |groups| ==> OneWindow(tf, groups[n]))
    && (forall n :: 0 <= n < |groups| - 1 ==> Parted(tf, groups[n], groups[n + 1]))
  }

  ghost predicate OneWindow(tf: Timeframe, group: seq<Bar>) {
    group != [] && exists day, i :: AllIn(tf, group, day, i)
  }

  ghost predicate AllIn(tf: Timeframe, group: seq<Bar>, day: int, i: int) {
    forall k :: 0 <= k < |group| ==> InWindow(tf, group[k], day, i)
  }

  ghost predicate Parted(tf: Timeframe, group: seq<Bar>, next: seq<Bar>) {
    group != [] && next != [] && !Together(tf, group[0], next[0])
  }

  /** Whatever the order of the input, each derived bar sums a run of input bars of one window. */
  lemma RollsByWindows(tf: Timeframe, bars: seq<Bar>) returns (groups: seq<seq<Bar>>)
    requires tf in DERIVED
    ensures Windows(tf, bars, groups)
    ensures |Roll(tf, bars)| == |groups| && forall n :: 0 <= n < |groups| ==> Sums(Roll(tf, bars)[n], groups[n])
  {
    hide BucketKey, Roll, Sums, Aggregate, Together;
    groups := RollSummarizesBuckets(tf, bars);
    forall n | 0 <= n < |groups| ensures OneWindow(tf, groups[n]) && Sums(Roll(tf, bars)[n], groups[n]) {
      assert OneBucket(tf, groups[n]);
      BucketIsWindow(tf, groups[n]);
      AggregateSums(groups[n]);
    }
    forall n | 0 <= n < |groups| - 1 ensures Parted(tf, groups[n], groups[n + 1]) {
      assert Changes(tf, groups[n], groups[n + 1]);
      SameKeySameWindow(tf, groups[n][0], groups[n + 1][0]);
    }
  }

  lemma BucketIsWindow(tf: Timeframe, group: seq<Bar>)
    requires tf in DERIVED && OneBucket(tf, group)
    ensures forall k :: 0 <= k < |group| ==> InWindow(tf, group[k], group[0].day, IndexOf(tf, group[0]))
    ensures OneWindow(tf, group)
  {
    hide BucketKey, InWindow;
    KeyDay(tf, group[0]);
    forall k | 0 <= k < |group| ensures InWindow(tf, group[k], group[0].day, IndexOf(tf, group[0])) {
      KeyIsWindow(tf, group[k], group[0].day, IndexOf(tf, group[0]));
    }
    assert AllIn(tf, group, group[0].day, IndexOf(tf, group[0]));
  }

  // ----- input in order -----

  /** The derived bar sums exactly the bars of one window. */
  ghost predicate SumsWindow(tf: Timeframe, bars: seq<Bar>, d: Bar, day: int, i: int) {
    Sums(d, WindowOf(tf, bars, day, i))
  }

  ghost predicate IsWindow(tf: Timeframe, bars: seq<Bar>, d: Bar) {
    exists day, i :: SumsWindow(tf, bars, d, day, i)
  }

  lemma {:induction false} WindowOfConcat(tf: Timeframe, xs: seq<Bar>, ys: seq<Bar>, day: int, i: int)
    ensures WindowOf(tf, xs + ys, day, i) == WindowOf(tf, xs, day, i) + WindowOf(tf, ys, day, i)
  {
    hide InWindow;
    if ys == [] {
      assert xs + ys == xs;
    } else {
      WindowOfConcat(tf, xs, ys[..|ys| - 1], day, i);
      assert (xs + ys)[..|xs + ys| - 1] == xs + ys[..|ys| - 1];
    }
  }

  lemma {:induction false} AllOrNone(tf: Timeframe, group: seq<Bar>, day: int, i: int)
    ensures (forall k :: 0 <= k < |group| ==> InWindow(tf, group[k], day, i)) ==> WindowOf(tf, group, day, i) == group
    ensures (forall k :: 0 <= k < |group| ==> !InWindow(tf, group[k], day, i)) ==> WindowOf(tf, group, day, i) == []
  {
    hide InWindow;
    if group != [] {
      AllOrNone(tf, group[..|group| - 1], day, i);
    }
  }

  /** Only one of the groups lies in the window. */
  lemma {:induction false} OnlyOneGroup(tf: Timeframe, groups: seq<seq<Bar>>, n: nat, day: int, i: int)
    requires forall m, k :: 0 <= m < |groups| && 0 <= k < |groups[m]| ==>
      (InWindow(tf, groups[m][k], day, i) <==> m == n)
    ensures WindowOf(tf, Concat(groups), day, i) == if n < |groups| then groups[n] else []
  {
    hide InWindow;
    if groups != [] {
      var front, last := groups[..|groups| - 1], groups[|groups| - 1];
      forall m, k | 0 <= m < |front| && 0 <= k < |front[m]| ensures InWindow(tf, front[m][k], day, i) <==> m == n {
        assert front[m] == groups[m];
      }
      OnlyOneGroup(tf, front, n, day, i);
      assert forall k :: 0 <= k < |last| ==> groups[|groups| - 1][k] == last[k];
      AllOrNone(tf, last, day, i);
      WindowOfConcat(tf, Concat(front), last, day, i);
    }
  }

  /** The key of a derived bar is that of every bar of its group. */
  lemma GroupKeys(tf: Timeframe, bars: seq<Bar>, groups: seq<seq<Bar>>, m: nat, k: nat)
    requires Buckets(tf, bars, groups) && Summarizes(Roll(tf, bars), groups) && m < |groups| && k < |groups[m]|
    ensures BucketKey(groups[m][k], tf) == BucketKey(Roll(tf, bars)[m], tf)
  {
    hide BucketKey, Roll, Aggregate;
    assert OneBucket(tf, groups[m]);
    AggregateMore(tf, groups[m], groups[m][0]);
  }

  lemma WindowAt(tf: Timeframe, bars: seq<Bar>, n: nat) returns (day: int, i: int)
    requires tf in DERIVED && InClockOrder(bars) && n < |Roll(tf, bars)|
    ensures SumsWindow(tf, bars, Roll(tf, bars)[n], day, i) && BucketKey(Roll(tf, bars)[n], tf) == Bucket(day, i)
    ensures tf == D1 ==> i == 0
  {
    hide BucketKey, Roll, Sums, Aggregate, InWindow;
    var out := Roll(tf, bars);
    var groups := RollSummarizesBuckets(tf, bars);
    RollAscends(tf, bars);
    KeyDay(tf, out[n]);
    day, i := out[n].day, IndexOf(tf, out[n]);
    forall m, k | 0 <= m < |groups| && 0 <= k < |groups[m]|
      ensures InWindow(tf, groups[m][k], day, i) <==> m == n
    {
      GroupKeys(tf, bars, groups, m, k);
      KeyIsWindow(tf, groups[m][k], day, i);
      KeysDiffer(tf, out, m, n);
    }
    OnlyOneGroup(tf, groups, n, day, i);
    AggregateSums(groups[n]);
  }

  lemma KeysDiffer(tf: Timeframe, out: seq<Bar>, m: nat, n: nat)
    requires Ascending(tf, out) && m < |out| && n < |out|
    ensures BucketKey(out[m], tf) == BucketKey(out[n], tf) <==> m == n
  {
    hide BucketKey;
    if m < n {
      assert Above(BucketKey(out[m], tf), BucketKey(out[n], tf));
    } else if n < m {
      assert Above(BucketKey(out[n], tf), BucketKey(out[m], tf));
    }
  }

  lemma {:induction false} WindowHasBar(tf: Timeframe, bars: seq<Bar>, day: int, i: int) returns (k: nat)
    requires WindowOf(tf, bars, day, i) != []
    ensures k < |bars| && InWindow(tf, bars[k], day, i)
  {
    hide InWindow;
    k := |bars| - 1;
    if !InWindow(tf, bars[k], day, i) {
      k := WindowHasBar(tf, bars[..k], day, i);
    }
  }

  lemma BarOfWindow(tf: Timeframe, bars: seq<Bar>, day: int, i: int) returns (n: nat)
    requires tf in DERIVED && InClockOrder(bars) && WindowOf(tf, bars, day, i) != []
    ensures n < |Roll(tf, bars)| && SumsWindow(tf, bars, Roll(tf, bars)[n], day, i)
  {
    hide BucketKey, Roll, Sums, WindowOf, InWindow;
    var j := if tf == D1 then 0 else i;
    var k := WindowHasBar(tf, bars, day, i);
    SameWindows(tf, bars, day, i, j);
    DayIsWindow(tf, bars[k], day, i, j);
    KeyIsWindow(tf, bars[k], day, j);
    n := EachBucketOnce(tf, bars, k);
    var day', i' := WindowAt(tf, bars, n);
    assert day' == day && i' == j;
    assert Sums(Roll(tf, bars)[n], WindowOf(tf, bars, day, j));
  }

  /** A day has only one window of its own length, whatever its number. */
  lemma DayIsWindow(tf: Timeframe, b: Bar, day: int, i: int, j: int)
    requires j == if tf == D1 then 0 else i
    ensures InWindow(tf, b, day, i) == InWindow(tf, b, day, j)
  {
  }

  lemma {:induction false} SameWindows(tf: Timeframe, bars: seq<Bar>, day: int, i: int, j: int)
    requires j == if tf == D1 then 0 else i
    ensures WindowOf(tf, bars, day, i) == WindowOf(tf, bars, day, j)
  {
    hide InWindow;
    if bars != [] {
      SameWindows(tf, bars[..|bars| - 1], day, i, j);
      DayIsWindow(tf, bars[|bars| - 1], day, i, j);
    }
  }

  /**
   * On input in order each derived bar sums exactly the input bars of one window of one day, and each
   * window that has bars has its own derived bar.
   */
  lemma RollIsByWindow(tf: Timeframe, bars: seq<Bar>)
    requires tf in DERIVED && InClockOrder(bars)
    ensures forall d :: d in Roll(tf, bars) ==> IsWindow(tf, bars, d)
    ensures forall day, i :: WindowOf(tf, bars, day, i) != [] ==>
      exists n :: 0 <= n < |Roll(tf, bars)| && SumsWindow(tf, bars, Roll(tf, bars)[n], day, i)
  {
    hide Roll, Sums, SumsWindow, WindowOf, BucketKey, InWindow, Aggregate;
    var out := Roll(tf, bars);
    forall d | d in out ensures IsWindow(tf, bars, d) {
      var n: nat :| n < |out| && out[n] == d;
      var day, i := WindowAt(tf, bars, n);
    }
    forall day, i | WindowOf(tf, bars, day, i) != []
      ensures exists n :: 0 <= n < |out| && SumsWindow(tf, bars, out[n], day, i)
    {
      var n := BarOfWindow(tf, bars, day, i);
    }
  }

  // ----- bar by bar -----

  /** The bar sums the last run of bars of one window. */
  ghost predicate SumsLastRun(tf: Timeframe, fed: seq<Bar>, d: Bar) {
    fed != [] && exists cut :: LastRun(tf, fed, cut) && Sums(d, fed[cut..])
  }

  ghost predicate LastRun(tf: Timeframe, fed: seq<Bar>, cut: int)
    requires fed != []
  {
    && 0 <= cut < |fed|
    && (forall k :: cut <= k < |fed| ==> Together(tf, fed[k], fed[|fed| - 1]))
    && (cut > 0 ==> !Together(tf, fed[cut - 1], fed[|fed| - 1]))
  }

  /** What one more bar completes: nothing within its window, and else the run of bars before it. */
  ghost predicate Completes(tf: Timeframe, fed: seq<Bar>, b: Bar, out: seq<Bar>) {
    if fed == [] || Together(tf, fed[|fed| - 1], b) then out == [] else |out| == 1 && SumsLastRun(tf, fed, out[0])
  }

  lemma AccSumsLastRun(tf: Timeframe, fed: seq<Bar>)
    requires tf in DERIVED && fed != []
    ensures Fold(tf, fed).acc.Some? && SumsLastRun(tf, fed, Fold(tf, fed).acc.value)
    ensures BucketKey(Fold(tf, fed).acc.value, tf) == BucketKey(fed[|fed| - 1], tf)
  {
    hide BucketKey, Fold, Sums, Together, Aggregate;
    var groups := GroupsOf(tf, fed);
    var n := |groups| - 1;
    var last, head := groups[n], Concat(groups[..n]);
    assert groups == groups[..n] + [last];
    ConcatMore(groups[..n], last);
    assert fed == head + last;
    AggregateSums(last);
    assert fed[|head|..] == last;
    AggregateMore(tf, last, last[0]);
    LastGroupIsRun(tf, groups, head);
    assert LastRun(tf, fed, |head|);
  }

  lemma LastGroupIsRun(tf: Timeframe, groups: seq<seq<Bar>>, head: seq<Bar>)
    requires tf in DERIVED && Chained(tf, groups) && groups != [] && head == Concat(groups[..|groups| - 1])
    ensures var last := groups[|groups| - 1]; last != [] && LastRun(tf, head + last, |head|)
  {
    hide BucketKey, Together;
    var n := |groups| - 1;
    var last := groups[n];
    var fed := head + last;
    assert OneBucket(tf, last);
    forall k | |head| <= k < |fed| ensures Together(tf, fed[k], fed[|fed| - 1]) {
      assert fed[k] == last[k - |head|];
      SameKeySameWindow(tf, fed[k], fed[|fed| - 1]);
    }
    if head != [] {
      LastOfConcat(groups[..n], tf);
      var before := groups[n - 1];
      assert Changes(tf, groups[n - 1], groups[n]) && OneBucket(tf, before);
      assert fed[|head| - 1] == before[|before| - 1];
      SameKeySameWindow(tf, fed[|head| - 1], fed[|fed| - 1]);
    }
  }

  lemma LastOfConcat(groups: seq<seq<Bar>>, tf: Timeframe)
    requires Concat(groups) != [] && forall k :: 0 <= k < |groups| ==> OneBucket(tf, groups[k])
    ensures groups != [] && groups[|groups| - 1] != []
    ensures Concat(groups)[|Concat(groups)| - 1] == groups[|groups| - 1][|groups[|groups| - 1]| - 1]
  {
    hide BucketKey;
    assert OneBucket(tf, groups[|groups| - 1]);
  }

  lemma FoldCompletes(tf: Timeframe, fed: seq<Bar>, b: Bar, out: seq<Bar>)
    requires tf in DERIVED && Fold(tf, fed + [b]).emitted == Fold(tf, fed).emitted + out
    ensures Completes(tf, fed, b, out)
  {
    hide BucketKey, Fold, Together, SumsLastRun, Merge;
    FoldAppend(tf, fed, b);
    var r := Fold(tf, fed);
    if fed == [] {
      NothingFolded(tf);
      assert r.emitted + out == r.emitted + [];
    } else {
      AccSumsLastRun(tf, fed);
      SameKeySameWindow(tf, fed[|fed| - 1], b);
      var more := if Together(tf, fed[|fed| - 1], b) then [] else [r.acc.value];
      assert r.emitted + out == r.emitted + more;
      assert out == (r.emitted + out)[|r.emitted|..] == (r.emitted + more)[|r.emitted|..] == more;
    }
  }

  lemma NothingFolded(tf: Timeframe)
    ensures Fold(tf, []).acc.None? && Fold(tf, []).emitted == []
  {
  }
}
