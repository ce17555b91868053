/** What fitting and looking up come to, in numbers of samples: when rates are pooled, and what is claimed. */
module CalibrationClaims {
  import opened Calibration
  import opened Claims
  import Rounding

  // ----- counting -----

  /** The samples whose composite lies in a range. */
  ghost function Scored(samples: seq<Sample>, lo: int, hi: int): set<int> {
    set i | 0 <= i < |samples| && lo as real <= samples[i].0 < hi as real
  }

  ghost function Won(samples: seq<Sample>, lo: int, hi: int): set<int> {
    set i | 0 <= i < |samples| && lo as real <= samples[i].0 < hi as real && samples[i].1
  }

  lemma OneMoreCounted(front: seq<Sample>, last: Sample, lo: int, hi: int)
    ensures var samples := front + [last];
      && |Scored(samples, lo, hi)| == |Scored(front, lo, hi)| + (if In(last, lo, hi) then 1 else 0)
      && |Won(samples, lo, hi)| == |Won(front, lo, hi)| + (if In(last, lo, hi) && last.1 then 1 else 0)
  {
    var samples, m := front + [last], |front|;
    assert Scored(samples, lo, hi) == Scored(front, lo, hi) + if In(last, lo, hi) then {m} else {};
    assert Won(samples, lo, hi) == Won(front, lo, hi) + if In(last, lo, hi) && last.1 then {m} else {};
  }

  lemma {:induction false} Counted(samples: seq<Sample>, lo: int, hi: int)
    ensures Number(samples, lo, hi) == |Scored(samples, lo, hi)| && Wins(samples, lo, hi) == |Won(samples, lo, hi)|
  {
    if samples == [] {
      assert Scored(samples, lo, hi) == {} == Won(samples, lo, hi);
    } else {
      hide Scored, Won, In;
      var front, last := samples[..|samples| - 1], samples[|samples| - 1];
      assert front + [last] == samples;
      Counted(front, lo, hi);
      OneMoreCounted(front, last, lo, hi);
    }
  }

  // ----- pooling -----

  /** Of two ranges the upper one wins less often, each counted with one more win and one more loss. */
  ghost predicate OutOfOrder(samples: seq<Sample>, q: Pool, r: Pool) {
    (|Won(samples, r.lo, r.hi)| + 1) * (|Scored(samples, q.lo, q.hi)| + 2)
    < (|Won(samples, q.lo, q.hi)| + 1) * (|Scored(samples, r.lo, r.hi)| + 2)
  }

  /** One bucket of five points, or two justified ranges side by side whose rates were out of order. */
  ghost predicate Justified(samples: seq<Sample>, p: Pool)
    decreases p.hi - p.lo
  {
    && p.lo < p.hi
    && (|| (p.lo % 5 == 0 && p.hi == p.lo + 5)
        || exists q: Pool, r: Pool ::
             && p.lo == q.lo < q.hi <= r.lo < r.hi == p.hi
             && Justified(samples, q) && Justified(samples, r)
             && OutOfOrder(samples, q, r))
  }

  ghost predicate AllJustified(samples: seq<Sample>, pools: seq<Pool>) {
    forall k :: 0 <= k < |pools| ==> Justified(samples, pools[k])
  }

  lemma RatesCompared(samples: seq<Sample>, q: Pool, r: Pool)
    requires Exact(samples, q) && Exact(samples, r)
    ensures Wr(r) < Wr(q) <==> OutOfOrder(samples, q, r)
  {
    Counted(samples, q.lo, q.hi);
    Counted(samples, r.lo, r.hi);
    hide Scored, Won, Number, Wins;
    QuotientsCompared(q.wins + 1, q.n + 2, r.wins + 1, r.n + 2);
  }

  lemma QuotientsCompared(a: nat, b: nat, c: nat, d: nat)
    requires b > 0 && d > 0
    ensures c as real / d as real < a as real / b as real <==> c * b < a * d
  {
    var x, y, u, v := a as real, b as real, c as real, d as real;
    CrossMultiplied(x, y, u, v);
    assert (c * b) as real == u * y && (a * d) as real == x * v;
  }

  lemma CrossMultiplied(x: real, y: real, u: real, v: real)
    requires y > 0.0 && v > 0.0
    ensures u / v < x / y <==> u * y < x * v
  {
    var s, t := u / v, x / y;
    assert s * v == u && t * y == x;
    var w := v * y;
    assert w > 0.0;
    assert u * y == s * w && x * v == t * w;
    if s < t {
      assert (t - s) * w > 0.0;
    } else {
      Rounding.ProductNonNegative(s - t, w);
    }
  }

  lemma MergedJustified(samples: seq<Sample>, q: Pool, r: Pool)
    requires Justified(samples, q) && Justified(samples, r) && q.hi <= r.lo && OutOfOrder(samples, q, r)
    ensures Justified(samples, Merged(q, r))
  {
    hide OutOfOrder;
  }

  lemma {:induction false} CollapseJustified(samples: seq<Sample>, pools: seq<Pool>)
    requires Partition(samples, pools) && AllJustified(samples, pools)
    ensures AllJustified(samples, Collapse(pools))
    decreases |pools|
  {
    hide Wr, Exact, Justified, OutOfOrder, Number;
    var k := |pools|;
    if k >= 2 && Wr(pools[k - 1]) < Wr(pools[k - 2]) {
      var q, r := pools[k - 2], pools[k - 1];
      assert Adjoin(samples, q, r);
      RatesCompared(samples, q, r);
      MergedJustified(samples, q, r);
      MergedExact(samples, q, r);
      var shorter := pools[..k - 2] + [Merged(q, r)];
      forall j | 0 <= j < |shorter| - 1 ensures Adjoin(samples, shorter[j], shorter[j + 1]) {
        assert Adjoin(samples, pools[j], pools[j + 1]);
      }
      CollapseJustified(samples, shorter);
    }
  }

  lemma {:induction false} PavJustified(samples: seq<Sample>, ordered: seq<Pool>)
    requires Partition(samples, ordered) && AllJustified(samples, ordered)
    ensures AllJustified(samples, Pav(ordered))
  {
    hide Wr, Exact, Justified, Number, Collapse;
    if ordered != [] {
      var front, last := ordered[..|ordered| - 1], ordered[|ordered| - 1];
      assert forall j :: 0 <= j < |front| - 1 ==> Adjoin(samples, ordered[j], ordered[j + 1]);
      PavJustified(samples, front);
      var joined := Pav(front) + [last];
      if front == [] {
        PavOfNothing();
        assert joined == [last];
      } else {
        PavPartitions(samples, front);
        assert Adjoin(samples, ordered[|front| - 1], ordered[|front|]);
      }
      assert Partition(samples, joined);
      CollapseJustified(samples, joined);
    }
  }

  /** Every fitted pool is a bucket, or was pooled of two ranges whose rates were out of order; none still are. */
  lemma PooledOnlyOutOfOrder(samples: seq<Sample>, ks: seq<int>)
    requires Ordered(samples, ks)
    ensures var pools := Pav(Buckets(samples, ks));
      && AllJustified(samples, pools)
      && forall k :: 0 <= k < |pools| - 1 ==> !OutOfOrder(samples, pools[k], pools[k + 1])
  {
    hide Number, Wins, Pav, Wr, Monotone, OutOfOrder;
    FittedIsSound(samples, ks);
    BucketsPartition(samples, ks);
    forall i | 0 <= i < |ks| ensures Justified(samples, Buckets(samples, ks)[i]) {
      BucketJustified(samples, ks[i]);
    }
    PavJustified(samples, Buckets(samples, ks));
    var pools := Pav(Buckets(samples, ks));
    forall k | 0 <= k < |pools| - 1 ensures !OutOfOrder(samples, pools[k], pools[k + 1]) {
      assert Exact(samples, pools[k]) && Exact(samples, pools[k + 1]);
      RatesCompared(samples, pools[k], pools[k + 1]);
      NextRises(pools, k);
    }
  }

  lemma BucketJustified(samples: seq<Sample>, k: int)
    ensures Justified(samples, BucketPool(samples, k))
  {
    assert (BUCKET * k) % 5 == 0;
  }

  lemma NextRises(pools: seq<Pool>, k: nat)
    requires Monotone(pools) && k + 1 < |pools|
    ensures Wr(pools[k]) <= Wr(pools[k + 1])
  {
    assert Rises(pools[k], pools[k + 1]);
  }

  // ----- claiming -----

  /** A figure to four decimals. */
  predicate Near(x: real, exact: real) {
    x - 0.00005 <= exact <= x + 0.00005
  }

  /** To four decimals, and no more than the cap. */
  predicate Capped(x: real, exact: real, cap: real) {
    x <= cap && (Near(x, exact) || (x == cap && exact > cap))
  }

  /** A range with at least fifteen samples that holds the composite; 100 counts for one that ends there. */
  ghost predicate Backs(samples: seq<Sample>, p: Pool, composite: real) {
    && |Scored(samples, p.lo, p.hi)| >= 15
    && ((p.lo as real <= composite < p.hi as real) || (composite == 100.0 && p.hi == 100))
  }

  /** The share of wins in a range, with one more win and one more loss, at most 95%. */
  ghost predicate ClaimsShare(samples: seq<Sample>, p: Pool, x: real) {
    exists rate: real ::
      && rate * (|Scored(samples, p.lo, p.hi)| as real + 2.0) == |Won(samples, p.lo, p.hi)| as real + 1.0
      && Capped(x, rate, 0.95)
  }

  /** Nine tenths of the composite's hundredth, at most 74%. */
  predicate ClaimsFallback(composite: real, x: real) {
    Capped(x, composite * 0.009, 0.74)
  }

  lemma RoundNear(x: real)
    ensures Near(Round4(x), x)
  {
    var n := Rounding.RoundHalfEven(x * 10000.0);
    assert Round4(x) * 10000.0 == n as real;
  }

  lemma ClaimTold(samples: seq<Sample>, p: Pool)
    requires Exact(samples, p)
    ensures ClaimsShare(samples, p, Claim(p))
  {
    Counted(samples, p.lo, p.hi);
    hide Scored, Won, Number, Wins, Round4;
    var rate := Wr(p);
    assert rate * (p.n as real + 2.0) == p.wins as real + 1.0;
    RoundNear(rate);
    hide Wr;
    assert Capped(Claim(p), rate, 0.95);
  }

  lemma FallbackTold(composite: real)
    ensures ClaimsFallback(composite, Fallback(composite))
  {
    var x := composite / 100.0 * CONSERVATIVE_FACTOR;
    assert x == composite * 0.009;
    RoundNear(x);
    RoundNear(CONSERVATIVE_FACTOR);
    hide Round4;
  }

  lemma AnswersIsBacks(samples: seq<Sample>, p: Pool, composite: real)
    requires Exact(samples, p)
    ensures Answers(p, composite) <==> Backs(samples, p, composite)
  {
    Counted(samples, p.lo, p.hi);
    hide Scored, Number, Wins;
  }

  /** The first pool that backs a composite. */
  ghost predicate FirstBack(samples: seq<Sample>, pools: seq<Pool>, composite: real, k: nat) {
    && k < |pools| && Backs(samples, pools[k], composite)
    && forall j :: 0 <= j < k ==> !Backs(samples, pools[j], composite)
  }

  /**
   * Validated evidence claims the share of wins in the first pool that holds the composite and has
   * samples enough; everything else falls back to the composite.
   */
  lemma ConfidenceTold(samples: seq<Sample>, m: CalibrationMap, composite: real)
    requires Partition(samples, m.pools)
    ensures if m.validated && exists p :: p in m.pools && Backs(samples, p, composite)
      then exists k: nat :: FirstBack(samples, m.pools, composite, k)
                            && ClaimsShare(samples, m.pools[k], Confidence(m, composite))
      else ClaimsFallback(composite, Confidence(m, composite))
  {
    hide Number, Wins, Claim, Fallback, Answers, Backs, ClaimsShare, ClaimsFallback;
    forall p | p in m.pools ensures Exact(samples, p) && (Answers(p, composite) <==> Backs(samples, p, composite)) {
      var k :| 0 <= k < |m.pools| && m.pools[k] == p;
      AnswersIsBacks(samples, p, composite);
    }
    FallbackTold(composite);
    var i := Lookup(m.pools, composite);
    if i < |m.pools| {
      ClaimTold(samples, m.pools[i]);
      assert FirstBack(samples, m.pools, composite, i);
    }
  }
}
