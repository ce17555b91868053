/** What a fitted map claims for a composite, and when a better composite never gets less. */
module Claims {
  import opened Market
  import opened Controls
  import opened Calibration
  import Rounding

  /** The fitted buckets as they are stored, and whether the evidence behind them was validated. */
  datatype CalibrationMap = CalibrationMap(pools: seq<Pool>, validated: bool)

  const MAX_UNVALIDATED_CONFIDENCE := 0.74
  const CONSERVATIVE_FACTOR := 0.90

  function Round4(x: real): real {
    Rounding.RoundTo(x, 10000.0)
  }

  function Conservative(composite: real): real {
    Round4(Min(composite / 100.0 * CONSERVATIVE_FACTOR, CONSERVATIVE_FACTOR))
  }

  predicate Sufficient(p: Pool) {
    p.n >= MIN_N
  }

  /** A composite belongs to its pool's range; a perfect score also to a range that ends at 100. */
  predicate Belongs(p: Pool, composite: real) {
    (p.lo as real <= composite < p.hi as real) || (composite == 100.0 && p.hi == 100)
  }

  predicate Answers(p: Pool, composite: real) {
    Belongs(p, composite) && Sufficient(p)
  }

  /** The first pool that answers for a composite, or the number of pools. */
  function Lookup(pools: seq<Pool>, composite: real): (i: nat)
    ensures i <= |pools|
    ensures i < |pools| ==> Answers(pools[i], composite)
    ensures forall j :: 0 <= j < i ==> !Answers(pools[j], composite)
  {
    if pools == [] then 0
    else if Answers(pools[0], composite) then 0
    else 1 + Lookup(pools[1..], composite)
  }

  function Claim(p: Pool): real {
    Min(Round4(Wr(p)), 0.95)
  }

  /** What is claimed where no validated evidence speaks. */
  function Fallback(composite: real): real {
    Min(Conservative(composite), MAX_UNVALIDATED_CONFIDENCE)
  }

  function Confidence(m: CalibrationMap, composite: real): real {
    var i := Lookup(m.pools, composite);
    if m.validated && i < |m.pools| then Claim(m.pools[i])
    else Fallback(composite)
  }

  /** Whether validated evidence speaks about a composite. */
  predicate Speaks(m: CalibrationMap, composite: real) {
    m.validated && Lookup(m.pools, composite) < |m.pools|
  }

  /** Consecutive pools do not overlap, and each has a range. */
  ghost predicate Disjoint(pools: seq<Pool>) {
    && (forall k :: 0 <= k < |pools| ==> pools[k].lo < pools[k].hi)
    && (forall i, j :: 0 <= i < j < |pools| ==> pools[i].hi <= pools[j].lo)
  }

  lemma PartitionIsDisjoint(samples: seq<Sample>, pools: seq<Pool>)
    requires Partition(samples, pools)
    ensures Disjoint(pools)
  {
    hide Number, Wins;
    forall i, j | 0 <= i < j < |pools| ensures pools[i].hi <= pools[j].lo {
      PoolsApart(samples, pools, i, j);
    }
    forall k | 0 <= k < |pools| ensures pools[k].lo < pools[k].hi {
      assert Exact(samples, pools[k]);
    }
  }

  lemma {:induction false} MonotoneFar(pools: seq<Pool>, i: nat, j: nat)
    requires Monotone(pools) && i <= j < |pools|
    ensures Wr(pools[i]) <= Wr(pools[j])
    decreases j
  {
    hide Wr;
    if i < j {
      MonotoneFar(pools, i, j - 1);
      assert Rises(pools[j - 1], pools[j]);
    }
  }

  lemma ClaimMonotone(p: Pool, q: Pool)
    requires Wr(p) <= Wr(q)
    ensures Claim(p) <= Claim(q)
  {
    hide Wr;
    Rounding.RoundToMonotone(Wr(p), Wr(q), 10000.0);
  }

  /** A higher composite is answered by the same pool or a later one. */
  lemma LookupMonotone(pools: seq<Pool>, a: real, b: real)
    requires Disjoint(pools) && a <= b
    requires Lookup(pools, a) < |pools| && Lookup(pools, b) < |pools|
    ensures Lookup(pools, a) <= Lookup(pools, b)
  {
    var i := Lookup(pools, a);
    forall j | 0 <= j < i ensures !Answers(pools[j], b) {
      assert pools[j].hi <= pools[i].lo && !Answers(pools[j], a);
    }
  }

  /** Where validated evidence speaks, a better composite never gets less confidence. */
  lemma ConfidenceMonotone(samples: seq<Sample>, m: CalibrationMap, a: real, b: real)
    requires Partition(samples, m.pools) && Monotone(m.pools)
    requires Speaks(m, a) && Speaks(m, b) && a <= b
    ensures Confidence(m, a) <= Confidence(m, b) <= 0.95
  {
    hide Wr, Monotone, Partition, Disjoint, Rounding.RoundTo;
    PartitionIsDisjoint(samples, m.pools);
    LookupMonotone(m.pools, a, b);
    MonotoneFar(m.pools, Lookup(m.pools, a), Lookup(m.pools, b));
    ClaimMonotone(m.pools[Lookup(m.pools, a)], m.pools[Lookup(m.pools, b)]);
  }

  lemma PavOfNothing()
    ensures Pav([]) == []
  {
  }

  lemma FittedIsSound(samples: seq<Sample>, ks: seq<int>)
    requires Ordered(samples, ks)
    ensures Partition(samples, Pav(Buckets(samples, ks))) && Monotone(Pav(Buckets(samples, ks)))
  {
    hide Number, Wins, Pav, Wr;
    BucketsPartition(samples, ks);
    PavMonotone(Buckets(samples, ks));
    if Buckets(samples, ks) == [] {
      PavOfNothing();
    } else {
      PavPartitions(samples, Buckets(samples, ks));
    }
  }

  /** So the fit of any samples, once validated, is monotone where it has enough of them. */
  lemma FittedConfidenceMonotone(samples: seq<Sample>, ks: seq<int>, a: real, b: real)
    requires Ordered(samples, ks) && a <= b
    ensures var m := CalibrationMap(Pav(Buckets(samples, ks)), true);
      Speaks(m, a) && Speaks(m, b) ==> Confidence(m, a) <= Confidence(m, b) <= 0.95
  {
    hide Confidence, Speaks, Number, Wins, Pav, Wr;
    var m := CalibrationMap(Pav(Buckets(samples, ks)), true);
    FittedIsSound(samples, ks);
    if Speaks(m, a) && Speaks(m, b) {
      ConfidenceMonotone(samples, m, a, b);
    }
  }

  // ----- exactly when a better composite never gets less -----

  lemma FallbackMonotone(a: real, b: real)
    requires a <= b
    ensures Fallback(a) <= Fallback(b)
  {
    hide Rounding.RoundTo;
    Rounding.RoundToMonotone(Min(a / 100.0 * CONSERVATIVE_FACTOR, CONSERVATIVE_FACTOR),
                             Min(b / 100.0 * CONSERVATIVE_FACTOR, CONSERVATIVE_FACTOR), 10000.0);
  }

  /** Just below a whole score the fallback rounds to what it is at that score. */
  lemma FallbackJustBelow(lo: int)
    requires lo <= 100
    ensures Fallback(lo as real - 0.005) == Fallback(lo as real)
  {
    var x := lo as real;
    assert Min(x / 100.0 * CONSERVATIVE_FACTOR, CONSERVATIVE_FACTOR) * 10000.0 == (90 * lo) as real;
    assert Min((x - 0.005) / 100.0 * CONSERVATIVE_FACTOR, CONSERVATIVE_FACTOR) * 10000.0 == (90 * lo) as real - 0.45;
    assert Rounding.RoundHalfEven((90 * lo) as real - 0.45) == 90 * lo;
    assert Rounding.RoundHalfEven((90 * lo) as real) == 90 * lo;
  }

  /** The better composite gets no less confidence. */
  predicate NoLess(m: CalibrationMap, a: real, b: real) {
    Confidence(m, a) <= Confidence(m, b)
  }

  function Answer(m: CalibrationMap, composite: real): Pool
    requires Speaks(m, composite)
  {
    m.pools[Lookup(m.pools, composite)]
  }

  /**
   * Of two composites the better one gets less exactly when evidence speaks about one of them alone
   * and its claim and the other's fallback are out of order.
   */
  lemma NoLessExactly(samples: seq<Sample>, m: CalibrationMap, a: real, b: real)
    requires Partition(samples, m.pools) && Monotone(m.pools) && a <= b
    ensures NoLess(m, a, b) <==>
      && (Speaks(m, a) && !Speaks(m, b) ==> Claim(Answer(m, a)) <= Fallback(b))
      && (!Speaks(m, a) && Speaks(m, b) ==> Fallback(a) <= Claim(Answer(m, b)))
  {
    hide Claim, Conservative, Lookup, Partition, Monotone;
    FallbackMonotone(a, b);
    if Speaks(m, a) && Speaks(m, b) {
      ConfidenceMonotone(samples, m, a, b);
    }
  }

  /** No sufficient pool ends where this sufficient one begins. */
  predicate StartsRun(pools: seq<Pool>, k: nat)
    requires k < |pools|
  {
    Sufficient(pools[k]) && forall j :: 0 <= j < |pools| && Sufficient(pools[j]) ==> pools[j].hi != pools[k].lo
  }

  /** No sufficient pool begins where this sufficient one ends. */
  predicate EndsRun(pools: seq<Pool>, k: nat)
    requires k < |pools|
  {
    Sufficient(pools[k]) && forall j :: 0 <= j < |pools| && Sufficient(pools[j]) ==> pools[j].lo != pools[k].hi
  }

  /** At either end of a run of sufficient pools the claim and the fallback beyond it are in order. */
  predicate EdgesAgree(pools: seq<Pool>) {
    forall k :: 0 <= k < |pools| ==>
      && (StartsRun(pools, k) && pools[k].lo > 0 ==> Fallback(pools[k].lo as real) <= Claim(pools[k]))
      && (EndsRun(pools, k) && pools[k].hi < 100 ==> Claim(pools[k]) <= Fallback(pools[k].hi as real))
  }

  ghost predicate Silent(pools: seq<Pool>, composite: real) {
    forall j :: 0 <= j < |pools| ==> !Answers(pools[j], composite)
  }

  lemma SilentExactly(pools: seq<Pool>, composite: real)
    ensures Silent(pools, composite) <==> Lookup(pools, composite) == |pools|
  {
    hide Answers;
  }

  /** A composite that no pool answers lies below the whole run that leads up to a pool above it. */
  lemma {:induction false} RunAbove(pools: seq<Pool>, k: nat, a: real) returns (i: nat)
    requires Disjoint(pools) && k < |pools| && Sufficient(pools[k])
    requires Silent(pools, a) && a < pools[k].lo as real
    ensures i <= k && StartsRun(pools, i) && a < pools[i].lo as real
    decreases k
  {
    i := k;
    if !StartsRun(pools, k) {
      var j :| 0 <= j < |pools| && Sufficient(pools[j]) && pools[j].hi == pools[k].lo;
      assert !Answers(pools[j], a);
      i := RunAbove(pools, j, a);
    }
  }

  lemma {:induction false} RunBelow(pools: seq<Pool>, k: nat, b: real) returns (i: nat)
    requires Disjoint(pools) && k < |pools| && Sufficient(pools[k])
    requires Silent(pools, b) && pools[k].hi as real <= b <= 100.0
    ensures k <= i < |pools| && EndsRun(pools, i) && pools[i].hi as real <= b && pools[i].hi < 100
    decreases |pools| - k
  {
    i := k;
    assert !Answers(pools[k], b);
    if !EndsRun(pools, k) {
      var j :| 0 <= j < |pools| && Sufficient(pools[j]) && pools[j].lo == pools[k].hi;
      assert !Answers(pools[j], b);
      i := RunBelow(pools, j, b);
    }
  }

  lemma ClaimFar(pools: seq<Pool>, i: nat, j: nat)
    requires Monotone(pools) && i <= j < |pools|
    ensures Claim(pools[i]) <= Claim(pools[j])
  {
    hide Wr, Claim;
    MonotoneFar(pools, i, j);
    ClaimMonotone(pools[i], pools[j]);
  }

  lemma AgreeingEdgesSuffice(samples: seq<Sample>, m: CalibrationMap, a: real, b: real)
    requires Partition(samples, m.pools) && Monotone(m.pools) && 0.0 <= a <= b <= 100.0
    requires m.validated ==> EdgesAgree(m.pools)
    ensures NoLess(m, a, b)
  {
    hide Claim, Fallback, Confidence, Lookup, Partition, Monotone, NoLess;
    var pools := m.pools;
    PartitionIsDisjoint(samples, pools);
    NoLessExactly(samples, m, a, b);
    SilentExactly(pools, a);
    SilentExactly(pools, b);
    if Speaks(m, a) && !Speaks(m, b) {
      var k := Lookup(pools, a);
      var i := RunBelow(pools, k, b);
      ClaimFar(pools, k, i);
      FallbackMonotone(pools[i].hi as real, b);
    } else if !Speaks(m, a) && Speaks(m, b) {
      var k := Lookup(pools, b);
      var i := RunAbove(pools, k, a);
      ClaimFar(pools, i, k);
      FallbackMonotone(a, pools[i].lo as real);
    }
  }

  lemma {:induction false} CountedSample(samples: seq<Sample>, lo: int, hi: int) returns (n: nat)
    requires Number(samples, lo, hi) > 0
    ensures n < |samples| && In(samples[n], lo, hi)
  {
    n := |samples| - 1;
    if !In(samples[n], lo, hi) {
      n := CountedSample(samples[..n], lo, hi);
    }
  }

  ghost predicate OnScale(samples: seq<Sample>) {
    forall n :: 0 <= n < |samples| ==> 0.0 <= samples[n].0 <= 100.0
  }

  lemma AnswerIs(m: CalibrationMap, k: nat, composite: real)
    requires Disjoint(m.pools) && m.validated && k < |m.pools| && Answers(m.pools[k], composite)
    requires forall j :: 0 <= j < k ==> !Answers(m.pools[j], composite)
    ensures Speaks(m, composite) && Answer(m, composite) == m.pools[k]
  {
  }

  lemma LowerEdgeNeeded(samples: seq<Sample>, m: CalibrationMap, k: nat, x: real)
    requires Partition(samples, m.pools) && Monotone(m.pools) && m.validated
    requires k < |m.pools| && StartsRun(m.pools, k) && 0 < m.pools[k].lo <= 100
    requires NoLess(m, x, m.pools[k].lo as real) && x == m.pools[k].lo as real - 0.005
    ensures Fallback(m.pools[k].lo as real) <= Claim(m.pools[k])
  {
    hide Claim, Fallback, Confidence, Lookup, Partition, Monotone, NoLess;
    var pools, lo := m.pools, m.pools[k].lo;
    PartitionIsDisjoint(samples, pools);
    AnswerIs(m, k, lo as real);
    assert Silent(pools, x);
    SilentExactly(pools, x);
    NoLessExactly(samples, m, x, lo as real);
    FallbackJustBelow(lo);
  }

  lemma UpperEdgeNeeded(samples: seq<Sample>, m: CalibrationMap, k: nat, x: real)
    requires Partition(samples, m.pools) && Monotone(m.pools) && m.validated
    requires k < |m.pools| && EndsRun(m.pools, k) && m.pools[k].hi < 100
    requires m.pools[k].lo as real <= x < m.pools[k].hi as real && NoLess(m, x, m.pools[k].hi as real)
    ensures Claim(m.pools[k]) <= Fallback(m.pools[k].hi as real)
  {
    hide Claim, Fallback, Confidence, Lookup, Partition, Monotone, NoLess;
    var pools, hi := m.pools, m.pools[k].hi;
    PartitionIsDisjoint(samples, pools);
    AnswerIs(m, k, x);
    assert Silent(pools, hi as real);
    SilentExactly(pools, hi as real);
    NoLessExactly(samples, m, x, hi as real);
  }

  /**
   * A better composite never gets less confidence, over the whole scale, exactly when the evidence
   * is not validated or the edges of its runs of sufficient pools agree with the fallback.
   */
  lemma MonotoneExactly(samples: seq<Sample>, m: CalibrationMap)
    requires Partition(samples, m.pools) && Monotone(m.pools) && OnScale(samples)
    ensures (forall a, b :: 0.0 <= a <= b <= 100.0 ==> NoLess(m, a, b)) <==> (m.validated ==> EdgesAgree(m.pools))
  {
    hide Claim, Fallback, Confidence, Monotone, NoLess, StartsRun, EndsRun, Number, Wins;
    var pools := m.pools;
    if m.validated ==> EdgesAgree(pools) {
      forall a, b | 0.0 <= a <= b <= 100.0 ensures NoLess(m, a, b) {
        AgreeingEdgesSuffice(samples, m, a, b);
      }
    }
    if m.validated && forall a, b :: 0.0 <= a <= b <= 100.0 ==> NoLess(m, a, b) {
      forall k | 0 <= k < |pools|
        ensures StartsRun(pools, k) && pools[k].lo > 0 ==> Fallback(pools[k].lo as real) <= Claim(pools[k])
        ensures EndsRun(pools, k) && pools[k].hi < 100 ==> Claim(pools[k]) <= Fallback(pools[k].hi as real)
      {
        var lo, hi := pools[k].lo as real, pools[k].hi as real;
        assert Exact(samples, pools[k]);
        var n := CountedSample(samples, pools[k].lo, pools[k].hi);
        if StartsRun(pools, k) && pools[k].lo > 0 {
          LowerEdgeNeeded(samples, m, k, lo - 0.005);
        }
        if EndsRun(pools, k) && pools[k].hi < 100 {
          UpperEdgeNeeded(samples, m, k, samples[n].0);
        }
      }
    }
  }

  /** The same of what fitting makes of any samples on the scale. */
  lemma FittedMonotoneExactly(samples: seq<Sample>, ks: seq<int>, validated: bool)
    requires Ordered(samples, ks) && OnScale(samples)
    ensures var m := CalibrationMap(Pav(Buckets(samples, ks)), validated);
      (forall a, b :: 0.0 <= a <= b <= 100.0 ==> NoLess(m, a, b)) <==> (validated ==> EdgesAgree(m.pools))
  {
    hide NoLess, EdgesAgree, Partition, Monotone, Ordered, OnScale, Pav, Buckets;
    FittedIsSound(samples, ks);
    MonotoneExactly(samples, CalibrationMap(Pav(Buckets(samples, ks)), validated));
  }

  // ----- two fits that are not monotone -----

  function Repeat(s: Sample, n: nat): seq<Sample> {
    if n == 0 then [] else Repeat(s, n - 1) + [s]
  }

  /** Trades at one composite. */
  function Batch(composite: real, won: nat, lost: nat): seq<Sample> {
    Repeat((composite, true), won) + Repeat((composite, false), lost)
  }

  lemma {:induction false} RepeatCounts(s: Sample, n: nat, lo: int, hi: int)
    ensures Number(Repeat(s, n), lo, hi) == (if In(s, lo, hi) then n else 0)
    ensures Wins(Repeat(s, n), lo, hi) == (if In(s, lo, hi) && s.1 then n else 0)
  {
    if n > 0 {
      RepeatCounts(s, n - 1, lo, hi);
      assert Repeat(s, n)[..n - 1] == Repeat(s, n - 1) by { RepeatLength(s, n - 1); }
      RepeatLength(s, n - 1);
    }
  }

  lemma {:induction false} RepeatLength(s: Sample, n: nat)
    ensures |Repeat(s, n)| == n && forall k :: 0 <= k < n ==> Repeat(s, n)[k] == s
  {
    if n > 0 {
      RepeatLength(s, n - 1);
    }
  }

  lemma {:induction false} CountsConcat(xs: seq<Sample>, ys: seq<Sample>, lo: int, hi: int)
    ensures Number(xs + ys, lo, hi) == Number(xs, lo, hi) + Number(ys, lo, hi)
    ensures Wins(xs + ys, lo, hi) == Wins(xs, lo, hi) + Wins(ys, lo, hi)
  {
    if ys == [] {
      assert xs + ys == xs;
    } else {
      CountsConcat(xs, ys[..|ys| - 1], lo, hi);
      assert (xs + ys)[..|xs + ys| - 1] == xs + ys[..|ys| - 1];
    }
  }

  lemma BatchCounts(composite: real, won: nat, lost: nat, lo: int, hi: int)
    ensures var inside := lo as real <= composite < hi as real;
      && Number(Batch(composite, won, lost), lo, hi) == (if inside then won + lost else 0)
      && Wins(Batch(composite, won, lost), lo, hi) == (if inside then won else 0)
  {
    hide Number, Wins;
    CountsConcat(Repeat((composite, true), won), Repeat((composite, false), lost), lo, hi);
    RepeatCounts((composite, true), won, lo, hi);
    RepeatCounts((composite, false), lost, lo, hi);
  }

  /** Two batches in different buckets are fitted to two pools if their rates are in order. */
  lemma TwoBatches(j: int, won1: nat, lost1: nat, k: int, won2: nat, lost2: nat)
    requires j < k && won1 + lost1 > 0 && won2 + lost2 > 0
    requires Wr(Pool(BUCKET * j, BUCKET * j + BUCKET, won1 + lost1, won1))
      <= Wr(Pool(BUCKET * k, BUCKET * k + BUCKET, won2 + lost2, won2))
    ensures var samples := Batch((BUCKET * j) as real, won1, lost1) + Batch((BUCKET * k) as real, won2, lost2);
      && Ordered(samples, [j, k])
      && Pav(Buckets(samples, [j, k])) == [Pool(BUCKET * j, BUCKET * j + BUCKET, won1 + lost1, won1),
                                           Pool(BUCKET * k, BUCKET * k + BUCKET, won2 + lost2, won2)]
  {
    hide Number, Wins, Wr, Batch, Pav;
    var x, y := (BUCKET * j) as real, (BUCKET * k) as real;
    var samples := Batch(x, won1, lost1) + Batch(y, won2, lost2);
    forall i | i == j || i == k ensures BucketPool(samples, i) ==
      if i == j then Pool(BUCKET * j, BUCKET * j + BUCKET, won1 + lost1, won1)
      else Pool(BUCKET * k, BUCKET * k + BUCKET, won2 + lost2, won2)
    {
      CountsConcat(Batch(x, won1, lost1), Batch(y, won2, lost2), BUCKET * i, BUCKET * i + BUCKET);
      BatchCounts(x, won1, lost1, BUCKET * i, BUCKET * i + BUCKET);
      BatchCounts(y, won2, lost2, BUCKET * i, BUCKET * i + BUCKET);
    }
    BatchBuckets(j, won1, lost1);
    BatchBuckets(k, won2, lost2);
    var pools := Buckets(samples, [j, k]);
    assert pools == [BucketPool(samples, j), BucketPool(samples, k)];
    assert Rises(pools[0], pools[1]);
    PavKeepsMonotone(pools);
  }

  lemma BatchBuckets(k: int, won: nat, lost: nat)
    ensures forall s :: s in Batch((BUCKET * k) as real, won, lost) ==> BucketOf(s.0) == k
  {
    var x := (BUCKET * k) as real;
    RepeatLength((x, true), won);
    RepeatLength((x, false), lost);
    BucketHolds(x, k);
  }

  /** Fifteen trades at 50 and thirteen at 60, fitted and validated: 50 claims more than 60. */
  lemma ThinAboveBreaksMonotonicity()
    ensures var samples := Batch(50.0, 12, 3) + Batch(60.0, 13, 0);
      var m := CalibrationMap(Pav(Buckets(samples, [10, 12])), true);
      && Ordered(samples, [10, 12]) && m.pools == [Pool(50, 55, 15, 12), Pool(60, 65, 13, 13)]
      && Confidence(m, 50.0) == 0.7647 && Confidence(m, 60.0) == 0.54
  {
    hide Number, Wins, Batch, Pav, Buckets, Ordered;
    TwoBatches(10, 12, 3, 12, 13, 0);
    var p := Pool(50, 55, 15, 12);
    assert Wr(p) == 13.0 / 17.0;
    assert 7646.6 <= Wr(p) * 10000.0 <= 7647.4;
    assert Rounding.RoundHalfEven(Wr(p) * 10000.0) == 7647;
    assert 60.0 / 100.0 * CONSERVATIVE_FACTOR == 0.54;
    Rounding.RoundToFixed(0.54, 5400, 10000.0);
  }

  /** One trade at 50 and a hundred at 60: 52 falls back to more than the evidence claims for 62. */
  lemma ThinBelowBreaksMonotonicity()
    ensures var samples := Batch(50.0, 0, 1) + Batch(60.0, 40, 60);
      var m := CalibrationMap(Pav(Buckets(samples, [10, 12])), true);
      && Ordered(samples, [10, 12]) && m.pools == [Pool(50, 55, 1, 0), Pool(60, 65, 100, 40)]
      && Confidence(m, 52.0) == 0.468 && Confidence(m, 62.0) == 0.402
  {
    hide Number, Wins, Batch, Pav, Buckets, Ordered;
    TwoBatches(10, 0, 1, 12, 40, 60);
    var p := Pool(60, 65, 100, 40);
    assert Wr(p) == 41.0 / 102.0;
    assert 4019.6 <= Wr(p) * 10000.0 <= 4019.7;
    assert Rounding.RoundHalfEven(Wr(p) * 10000.0) == 4020;
    assert 52.0 / 100.0 * CONSERVATIVE_FACTOR == 0.468;
    Rounding.RoundToFixed(0.468, 4680, 10000.0);
    assert Claim(p) == 0.402;
    AnswerIs(CalibrationMap([Pool(50, 55, 1, 0), p], true), 1, 62.0);
  }

  /** Without validated evidence the confidence stays below the gate, whatever the composite. */
  lemma UnvalidatedStaysBelowGate(m: CalibrationMap, composite: real)
    requires !Speaks(m, composite)
    ensures Confidence(m, composite) <= 0.74 < CONFIDENCE_THRESHOLD
  {
  }

  /** So outside global shadow mode an unvalidated strategy is never emitted. */
  lemma UnvalidatedNeverEmitted(m: CalibrationMap, composite: real, live: Counters, research: Counters,
                                symbol: string, sig: Signal)
    requires !m.validated && sig.confidence == Confidence(m, composite)
    ensures !ScoreAndGate(live, research, false, symbol, sig).Emit?
  {
    hide Confidence;
    UnvalidatedStaysBelowGate(m, composite);
    if ScoreAndGate(live, research, false, symbol, sig).Emit? {
      EmittedIsEligible(live, research, symbol, sig);
    }
  }

  /** The lookup loop over the stored buckets. */
  method LookUpConfidence(m: CalibrationMap, composite: real) returns (r: real)
    ensures r == Confidence(m, composite)
  {
    hide Claim, Conservative, Answers;
    if m.validated {
      for k := 0 to |m.pools|
        invariant Lookup(m.pools, composite) >= k
      {
        if Answers(m.pools[k], composite) {
          return Claim(m.pools[k]);
        }
      }
    }
    return Min(Conservative(composite), MAX_UNVALIDATED_CONFIDENCE);
  }
}
