/** Calibration maps: pools fitted from samples by pooling adjacent violators. */
module Calibration {
  import opened Controls
  import opened Sorting

  /** A composite score and whether the trade won. */
  type Sample = (real, bool)

  const MIN_N := 15
  const BUCKET := 5

  datatype Pool = Pool(lo: int, hi: int, n: nat, wins: nat)

  /** The Laplace-smoothed win rate. */
  function Wr(p: Pool): real {
    (p.wins as real + 1.0) / (p.n as real + 2.0)
  }

  function Merged(a: Pool, b: Pool): Pool {
    Pool(a.lo, b.hi, a.n + b.n, a.wins + b.wins)
  }

  /** Merges from the right while the last pool's rate falls below its neighbour's. */
  function Collapse(pools: seq<Pool>): seq<Pool>
    decreases |pools|
  {
    var k := |pools|;
    if k >= 2 && Wr(pools[k - 1]) < Wr(pools[k - 2])
    then Collapse(pools[..k - 2] + [Merged(pools[k - 2], pools[k - 1])])
    else pools
  }

  function Pav(ordered: seq<Pool>): seq<Pool> {
    if ordered == [] then [] else Collapse(Pav(ordered[..|ordered| - 1]) + [ordered[|ordered| - 1]])
  }

  ghost predicate Monotone(pools: seq<Pool>) {
    forall k :: 0 <= k < |pools| - 1 ==> Rises(pools[k], pools[k + 1])
  }

  predicate Rises(p: Pool, q: Pool) {
    Wr(p) <= Wr(q)
  }

  lemma {:induction false} CollapseMonotone(pools: seq<Pool>)
    requires pools != [] && Monotone(pools[..|pools| - 1])
    ensures Monotone(Collapse(pools))
    decreases |pools|
  {
    hide Wr;
    var k := |pools|;
    if k >= 2 && Wr(pools[k - 1]) < Wr(pools[k - 2]) {
      var shorter := pools[..k - 2] + [Merged(pools[k - 2], pools[k - 1])];
      var head, lead := pools[..k - 2], pools[..k - 1];
      assert shorter[..|shorter| - 1] == head;
      forall j | 0 <= j < |head| - 1 ensures Rises(head[j], head[j + 1]) {
        assert Rises(lead[j], lead[j + 1]);
      }
      CollapseMonotone(shorter);
    } else {
      forall j | 0 <= j < k - 1 ensures Rises(pools[j], pools[j + 1]) {
        if j < k - 2 {
          assert Rises(pools[..k - 1][j], pools[..k - 1][j + 1]);
        }
      }
    }
  }

  lemma {:induction false} PavMonotone(ordered: seq<Pool>)
    ensures Monotone(Pav(ordered))
  {
    hide Wr;
    if ordered != [] {
      var before := Pav(ordered[..|ordered| - 1]);
      PavMonotone(ordered[..|ordered| - 1]);
      assert (before + [ordered[|ordered| - 1]])[..|before|] == before;
      CollapseMonotone(before + [ordered[|ordered| - 1]]);
    }
  }

  /** Rates that are already in order are left alone. */
  lemma {:induction false} PavKeepsMonotone(ordered: seq<Pool>)
    requires Monotone(ordered)
    ensures Pav(ordered) == ordered
  {
    hide Wr, Collapse;
    if ordered != [] {
      var front := ordered[..|ordered| - 1];
      forall k | 0 <= k < |front| - 1 ensures Rises(front[k], front[k + 1]) {
        assert Rises(ordered[k], ordered[k + 1]);
      }
      PavKeepsMonotone(front);
      assert |ordered| >= 2 ==> Rises(ordered[|ordered| - 2], ordered[|ordered| - 1]);
      assert front + [ordered[|ordered| - 1]] == ordered;
      NothingCollapses(ordered);
    }
  }

  lemma NothingCollapses(pools: seq<Pool>)
    requires |pools| >= 2 ==> Rises(pools[|pools| - 2], pools[|pools| - 1])
    ensures Collapse(pools) == pools
  {
  }

  // ----- what a pool counts -----

  predicate In(s: Sample, lo: int, hi: int) {
    lo as real <= s.0 < hi as real
  }

  function Number(samples: seq<Sample>, lo: int, hi: int): nat {
    if samples == [] then 0
    else Number(samples[..|samples| - 1], lo, hi) + One(In(samples[|samples| - 1], lo, hi))
  }

  function Wins(samples: seq<Sample>, lo: int, hi: int): nat {
    if samples == [] then 0
    else
      var last := samples[|samples| - 1];
      Wins(samples[..|samples| - 1], lo, hi) + One(In(last, lo, hi) && last.1)
  }

  /** The pool counts exactly the samples in its range, and there are some. */
  ghost predicate Exact(samples: seq<Sample>, p: Pool) {
    p.lo < p.hi && p.n == Number(samples, p.lo, p.hi) && p.wins == Wins(samples, p.lo, p.hi) && p.n > 0
  }

  /** Consecutive pools do not overlap and leave no sample between them. */
  ghost predicate Adjoin(samples: seq<Sample>, p: Pool, q: Pool) {
    p.hi <= q.lo && Number(samples, p.hi, q.lo) == 0
  }

  ghost predicate Partition(samples: seq<Sample>, pools: seq<Pool>) {
    && (forall k :: 0 <= k < |pools| ==> Exact(samples, pools[k]))
    && (forall k :: 0 <= k < |pools| - 1 ==> Adjoin(samples, pools[k], pools[k + 1]))
  }

  lemma {:induction false} CountsSplit(samples: seq<Sample>, a: int, b: int, c: int)
    requires a <= b <= c
    ensures Number(samples, a, c) == Number(samples, a, b) + Number(samples, b, c)
    ensures Wins(samples, a, c) == Wins(samples, a, b) + Wins(samples, b, c)
  {
    if samples != [] {
      CountsSplit(samples[..|samples| - 1], a, b, c);
    }
  }

  lemma {:induction false} WinsWithinNumber(samples: seq<Sample>, lo: int, hi: int)
    ensures Wins(samples, lo, hi) <= Number(samples, lo, hi)
  {
    if samples != [] {
      WinsWithinNumber(samples[..|samples| - 1], lo, hi);
    }
  }

  lemma MergedExact(samples: seq<Sample>, p: Pool, q: Pool)
    requires Exact(samples, p) && Exact(samples, q) && Adjoin(samples, p, q)
    ensures Exact(samples, Merged(p, q))
  {
    hide Number, Wins;
    CountsSplit(samples, p.lo, p.hi, q.hi);
    CountsSplit(samples, p.hi, q.lo, q.hi);
    WinsWithinNumber(samples, p.hi, q.lo);
  }

  lemma {:induction false} CollapsePartitions(samples: seq<Sample>, pools: seq<Pool>)
    requires Partition(samples, pools) && pools != []
    ensures Partition(samples, Collapse(pools)) && Collapse(pools) != []
    ensures Collapse(pools)[0].lo == pools[0].lo && Collapse(pools)[|Collapse(pools)| - 1].hi == pools[|pools| - 1].hi
    decreases |pools|
  {
    hide Wr, Exact, Number;
    var k := |pools|;
    if k >= 2 && Wr(pools[k - 1]) < Wr(pools[k - 2]) {
      var p, q := pools[k - 2], pools[k - 1];
      assert Adjoin(samples, p, q);
      MergedExact(samples, p, q);
      var shorter := pools[..k - 2] + [Merged(p, q)];
      forall j | 0 <= j < |shorter| - 1 ensures Adjoin(samples, shorter[j], shorter[j + 1]) {
        assert Adjoin(samples, pools[j], pools[j + 1]);
      }
      CollapsePartitions(samples, shorter);
    }
  }

  lemma {:induction false} PavPartitions(samples: seq<Sample>, ordered: seq<Pool>)
    requires Partition(samples, ordered) && ordered != []
    ensures Partition(samples, Pav(ordered)) && Pav(ordered) != []
    ensures Pav(ordered)[0].lo == ordered[0].lo && Pav(ordered)[|Pav(ordered)| - 1].hi == ordered[|ordered| - 1].hi
  {
    hide Wr, Exact, Number;
    var front, last := ordered[..|ordered| - 1], ordered[|ordered| - 1];
    if front == [] {
      assert Pav(front) == [];
      assert [] + [last] == ordered;
    } else {
      assert forall j :: 0 <= j < |front| - 1 ==> Adjoin(samples, ordered[j], ordered[j + 1]);
      assert Adjoin(samples, ordered[|front| - 1], ordered[|front|]);
      PavPartitions(samples, front);
      CollapsePartitions(samples, Pav(front) + [last]);
    }
  }

  lemma {:induction false} SampleIsCounted(samples: seq<Sample>, k: nat, lo: int, hi: int)
    requires k < |samples| && In(samples[k], lo, hi)
    ensures Number(samples, lo, hi) > 0
  {
    if k < |samples| - 1 {
      SampleIsCounted(samples[..|samples| - 1], k, lo, hi);
    }
  }

  /** A sample in the range spanned by the pools is in one of them. */
  lemma {:induction false} SampleHasPool(samples: seq<Sample>, pools: seq<Pool>, k: nat) returns (i: nat)
    requires Partition(samples, pools) && pools != [] && k < |samples|
    requires In(samples[k], pools[0].lo, pools[|pools| - 1].hi)
    ensures i < |pools| && In(samples[k], pools[i].lo, pools[i].hi)
    decreases |pools|
  {
    hide Number, Wins;
    i := |pools| - 1;
    if samples[k].0 < pools[i].lo as real {
      var prev := pools[i - 1];
      assert Adjoin(samples, prev, pools[i]);
      if samples[k].0 >= prev.hi as real {
        SampleIsCounted(samples, k, prev.hi, pools[i].lo);
      } else {
        var front := pools[..i];
        forall j | 0 <= j < |front| - 1 ensures Adjoin(samples, front[j], front[j + 1]) {
          assert Adjoin(samples, pools[j], pools[j + 1]);
        }
        i := SampleHasPool(samples, front, k);
      }
    }
  }

  lemma {:induction false} PoolsApart(samples: seq<Sample>, pools: seq<Pool>, i: nat, j: nat)
    requires Partition(samples, pools) && i < j < |pools|
    ensures pools[i].hi <= pools[j].lo
    decreases j
  {
    hide Number, Wins;
    assert Adjoin(samples, pools[j - 1], pools[j]);
    if i < j - 1 {
      PoolsApart(samples, pools, i, j - 1);
      assert Exact(samples, pools[j - 1]);
    }
  }

  // ----- fitting -----

  function BucketOf(composite: real): int {
    (composite / BUCKET as real).Floor
  }

  function BucketPool(samples: seq<Sample>, k: int): Pool {
    Pool(BUCKET * k, BUCKET * k + BUCKET, Number(samples, BUCKET * k, BUCKET * k + BUCKET),
         Wins(samples, BUCKET * k, BUCKET * k + BUCKET))
  }

  lemma BucketHolds(composite: real, k: int)
    ensures BucketOf(composite) == k <==> (BUCKET * k) as real <= composite < (BUCKET * k + BUCKET) as real
  {
    var x := composite / 5.0;
    assert x * 5.0 == composite;
  }

  /** The occupied buckets in ascending order. */
  ghost predicate Ordered(samples: seq<Sample>, ks: seq<int>) {
    && Ascends(ks)
    && (forall n :: 0 <= n < |samples| ==> BucketOf(samples[n].0) in ks)
    && (forall i :: 0 <= i < |ks| ==> Number(samples, BUCKET * ks[i], BUCKET * ks[i] + BUCKET) > 0)
  }

  function Buckets(samples: seq<Sample>, ks: seq<int>): (r: seq<Pool>)
    ensures |r| == |ks| && forall i :: 0 <= i < |ks| ==> r[i] == BucketPool(samples, ks[i])
  {
    seq(|ks|, i requires 0 <= i < |ks| => BucketPool(samples, ks[i]))
  }

  lemma {:induction false} NoneBetween(samples: seq<Sample>, lo: int, hi: int)
    requires forall n :: 0 <= n < |samples| ==> !In(samples[n], lo, hi)
    ensures Number(samples, lo, hi) == 0
  {
    if samples != [] {
      NoneBetween(samples[..|samples| - 1], lo, hi);
    }
  }

  lemma BucketsPartition(samples: seq<Sample>, ks: seq<int>)
    requires Ordered(samples, ks)
    ensures Partition(samples, Buckets(samples, ks))
  {
    hide Number, Wins, BucketOf;
    forall i | 0 <= i < |ks| - 1 ensures Adjoin(samples, BucketPool(samples, ks[i]), BucketPool(samples, ks[i + 1])) {
      var lo, hi := BUCKET * ks[i] + BUCKET, BUCKET * ks[i + 1];
      forall n | 0 <= n < |samples| ensures !In(samples[n], lo, hi) {
        var k := BucketOf(samples[n].0);
        BucketHolds(samples[n].0, k);
        var j :| 0 <= j < |ks| && ks[j] == k;
        if j <= i {
          assert ks[j] <= ks[i];
        } else {
          assert ks[i + 1] <= ks[j];
        }
      }
      NoneBetween(samples, lo, hi);
    }
  }

  /** Every sample of a partition built from all occupied buckets is in exactly one pool. */
  lemma EachSampleOnePool(samples: seq<Sample>, ks: seq<int>, n: nat) returns (i: nat)
    requires Ordered(samples, ks) && n < |samples|
    ensures var pools := Pav(Buckets(samples, ks));
      && i < |pools| && In(samples[n], pools[i].lo, pools[i].hi)
      && forall j :: 0 <= j < |pools| && In(samples[n], pools[j].lo, pools[j].hi) ==> j == i
  {
    hide Number, Wins, BucketOf, Pav;
    var k := BucketOf(samples[n].0);
    BucketHolds(samples[n].0, k);
    var m :| 0 <= m < |ks| && ks[m] == k;
    assert ks[0] <= k <= ks[|ks| - 1];
    BucketsPartition(samples, ks);
    PavPartitions(samples, Buckets(samples, ks));
    var pools := Pav(Buckets(samples, ks));
    i := SampleHasPool(samples, pools, n);
    forall j | 0 <= j < |pools| && In(samples[n], pools[j].lo, pools[j].hi) ensures j == i {
      if j < i {
        PoolsApart(samples, pools, j, i);
      } else if i < j {
        PoolsApart(samples, pools, i, j);
      }
    }
  }

  function TotalNumber(pools: seq<Pool>): nat {
    if pools == [] then 0 else TotalNumber(pools[..|pools| - 1]) + pools[|pools| - 1].n
  }

  function TotalWins(pools: seq<Pool>): nat {
    if pools == [] then 0 else TotalWins(pools[..|pools| - 1]) + pools[|pools| - 1].wins
  }

  lemma {:induction false} CollapseConserves(pools: seq<Pool>)
    ensures TotalNumber(Collapse(pools)) == TotalNumber(pools) && TotalWins(Collapse(pools)) == TotalWins(pools)
    decreases |pools|
  {
    hide Wr;
    var k := |pools|;
    if k >= 2 && Wr(pools[k - 1]) < Wr(pools[k - 2]) {
      var shorter := pools[..k - 2] + [Merged(pools[k - 2], pools[k - 1])];
      assert shorter[..|shorter| - 1] == pools[..k - 2];
      assert pools[..k - 1][..k - 2] == pools[..k - 2];
      CollapseConserves(shorter);
    }
  }

  /** Pooling neither loses nor invents samples or wins. */
  lemma {:induction false} PavConserves(ordered: seq<Pool>)
    ensures TotalNumber(Pav(ordered)) == TotalNumber(ordered) && TotalWins(Pav(ordered)) == TotalWins(ordered)
  {
    if ordered != [] {
      var before := Pav(ordered[..|ordered| - 1]);
      PavConserves(ordered[..|ordered| - 1]);
      assert (before + [ordered[|ordered| - 1]])[..|before|] == before;
      CollapseConserves(before + [ordered[|ordered| - 1]]);
    }
  }

  datatype Tally = Tally(n: nat, wins: nat)

  /** Samples and wins of one bucket. */
  function TallyOf(samples: seq<Sample>, k: int): Tally {
    Tally(Number(samples, BUCKET * k, BUCKET * k + BUCKET), Wins(samples, BUCKET * k, BUCKET * k + BUCKET))
  }

  ghost predicate Tallied(samples: seq<Sample>, raw: map<int, Tally>) {
    && (forall k :: k in raw <==> TallyOf(samples, k).n > 0)
    && (forall k :: k in raw ==> raw[k] == TallyOf(samples, k))
  }

  lemma OneMoreSample(samples: seq<Sample>, s: Sample, k: int)
    ensures TallyOf(samples + [s], k) == Tally(TallyOf(samples, k).n + One(k == BucketOf(s.0)),
                                               TallyOf(samples, k).wins + One(k == BucketOf(s.0) && s.1))
  {
    hide BucketOf;
    assert (samples + [s])[..|samples|] == samples;
    BucketHolds(s.0, k);
  }

  lemma TallyMore(samples: seq<Sample>, raw: map<int, Tally>, s: Sample)
    requires Tallied(samples, raw)
    ensures var k := BucketOf(s.0); var b := if k in raw then raw[k] else Tally(0, 0);
      Tallied(samples + [s], raw[k := Tally(b.n + 1, b.wins + One(s.1))])
  {
    hide BucketOf, TallyOf;
    var lo := BucketOf(s.0);
    forall k ensures TallyOf(samples + [s], k)
      == Tally(TallyOf(samples, k).n + One(k == lo), TallyOf(samples, k).wins + One(k == lo && s.1))
      ensures TallyOf(samples, k).n == 0 ==> TallyOf(samples, k).wins == 0
    {
      OneMoreSample(samples, s, k);
      NoNumberNoWins(samples, k);
    }
  }

  lemma NoNumberNoWins(samples: seq<Sample>, k: int)
    ensures TallyOf(samples, k).wins <= TallyOf(samples, k).n
  {
    WinsWithinNumber(samples, BUCKET * k, BUCKET * k + BUCKET);
  }

  /** The first loop: samples and wins by bucket. */
  method TallyBuckets(samples: seq<Sample>) returns (raw: map<int, Tally>)
    ensures Tallied(samples, raw)
    ensures forall n :: 0 <= n < |samples| ==> BucketOf(samples[n].0) in raw
  {
    raw := map[];
    assert samples[..0] == [];
    assert Tallied([], raw);
    hide Tallied, BucketOf;
    for n := 0 to |samples|
      invariant Tallied(samples[..n], raw)
      invariant forall m :: 0 <= m < n ==> BucketOf(samples[m].0) in raw
    {
      var (composite, won) := samples[n];
      TallyMore(samples[..n], raw, samples[n]);
      assert samples[..n + 1] == samples[..n] + [samples[n]];
      var lo := BucketOf(composite);
      var b := if lo in raw then raw[lo] else Tally(0, 0);
      raw := raw[lo := Tally(b.n + 1, b.wins + One(won))];
    }
    assert samples[..|samples|] == samples;
  }

  /** Pool by pool, merging backwards while the rates are out of order. */
  method Fit(samples: seq<Sample>) returns (pools: seq<Pool>, ghost ks: seq<int>)
    ensures Ordered(samples, ks) && pools == Pav(Buckets(samples, ks))
    ensures Monotone(pools) && Partition(samples, pools)
  {
    hide Number, Wins, Wr, BucketOf;
    var raw := TallyBuckets(samples);
    var keys := Sorted(raw.Keys);
    ks := keys;
    forall i | 0 <= i < |keys| ensures keys[i] in raw {
      assert keys[i] in keys;
    }
    ghost var ordered := Buckets(samples, ks);
    pools := [];
    for n := 0 to |keys|
      invariant pools == Pav(ordered[..n])
    {
      var k := keys[n];
      pools := pools + [Pool(BUCKET * k, BUCKET * k + BUCKET, raw[k].n, raw[k].wins)];
      assert ordered[..n + 1][..n] == ordered[..n];
      ghost var goal := Collapse(pools);
      while |pools| >= 2 && Wr(pools[|pools| - 1]) < Wr(pools[|pools| - 2])
        invariant Collapse(pools) == goal
        decreases |pools|
      {
        var a := pools[|pools| - 1];
        var b := pools[|pools| - 2];
        pools := pools[..|pools| - 2] + [b.(hi := a.hi, n := b.n + a.n, wins := b.wins + a.wins)];
      }
    }
    assert ordered[..|ordered|] == ordered;
    PavMonotone(ordered);
    BucketsPartition(samples, ks);
    if ordered != [] {
      PavPartitions(samples, ordered);
    }
  }
}
