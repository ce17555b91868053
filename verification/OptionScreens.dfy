/** Which contract an option selection takes, in the fields of contracts, thresholds and clock. */
module OptionScreens {
  import opened Prelude
  import opened Intents
  import opened OptionChoice
  import Rounding

  // ----- spreads -----

  /** The spread is at most a fraction of the middle of the market. */
  predicate SpreadWithin(bid: nat, ask: int, fraction: real) {
    bid <= ask && (ask - bid) as real <= fraction * ((bid + ask) as real / 2.0)
  }

  lemma SpreadExactly(bid: nat, ask: Positive, fraction: real)
    ensures SpreadWithin(bid, ask, fraction) <==> 0.0 <= Spread(bid, ask) <= fraction
  {
    var mid, width := (bid + ask) as real / 2.0, (ask - bid) as real;
    var ratio := Spread(bid, ask);
    assert ratio * mid == width;
    RatioBelow(ratio, mid, fraction);
    RatioZero(ratio, mid);
  }

  lemma RatioBelow(ratio: real, mid: real, fraction: real)
    requires mid > 0.0
    ensures ratio <= fraction <==> ratio * mid <= fraction * mid
  {
    if ratio <= fraction {
      Rounding.ProductNonNegative(fraction - ratio, mid);
    } else {
      assert (ratio - fraction) * mid > 0.0;
    }
  }

  lemma RatioZero(ratio: real, mid: real)
    requires mid > 0.0
    ensures ratio >= 0.0 <==> ratio * mid >= 0.0
  {
    if ratio >= 0.0 {
      Rounding.ProductNonNegative(ratio, mid);
    } else {
      assert -ratio * mid > 0.0;
    }
  }

  lemma SpreadSign(bid: nat, ask: Positive)
    ensures Spread(bid, ask) >= 0.0 <==> bid <= ask
  {
    SpreadExactly(bid, ask, Spread(bid, ask));
  }

  // ----- the tests, one by one -----

  /** What a contract must be to pass the test that rejects for `why`. */
  predicate Passes(c: Candidate, s: Screen, why: Reason) {
    match why
    case WrongSymbol => c.symbol == s.symbol
    case WrongExpiry => c.expirationDay - s.today in s.policy.expiryDays
    case WrongDirection => c.optionType == s.wanted
    case NotTradable => c.tradable
    case SelloutWindow => c.selloutAt > s.now + 300
    case QuoteAge => -5 <= s.now - c.quoteAt <= s.policy.maxQuoteAge
    case OneSided => c.bid > 0
    case WideSpread => SpreadWithin(c.bid, c.ask, s.policy.maxSpread)
    case ThinVolume => c.volume >= s.policy.minVolume
    case ThinInterest => c.openInterest >= s.policy.minOpenInterest
    case BadDelta => (0.0 < c.delta <= 1.0) || (-1.0 <= c.delta < 0.0)
    case DeltaDirection => if c.optionType == CallOption then c.delta > 0.0 else c.delta < 0.0
    case TooDear => c.ask <= s.ceiling
  }

  /** The tests in the order in which they are made. */
  const TESTS: seq<Reason> := [
    WrongSymbol, WrongExpiry, WrongDirection, NotTradable, SelloutWindow, QuoteAge, OneSided, WideSpread,
    ThinVolume, ThinInterest, BadDelta, DeltaDirection, TooDear]

  predicate Fits(c: Candidate, s: Screen) {
    forall k :: 0 <= k < |TESTS| ==> Passes(c, s, TESTS[k])
  }

  predicate FailsFirst(c: Candidate, s: Screen, k: nat)
    requires k < |TESTS|
  {
    !Passes(c, s, TESTS[k]) && forall j :: 0 <= j < k ==> Passes(c, s, TESTS[j])
  }

  lemma RejectionExactly(c: Candidate, s: Screen)
    ensures Rejection(c, s).None? <==> Fits(c, s)
    ensures forall k :: 0 <= k < |TESTS| ==> (Rejection(c, s) == Some(TESTS[k]) <==> FailsFirst(c, s, k))
  {
    SpreadExactly(c.bid, c.ask, s.policy.maxSpread);
    hide Spread, SpreadWithin;
    assert TESTS[0] == WrongSymbol && TESTS[1] == WrongExpiry && TESTS[2] == WrongDirection && TESTS[3] == NotTradable;
    assert TESTS[4] == SelloutWindow && TESTS[5] == QuoteAge && TESTS[6] == OneSided && TESTS[7] == WideSpread;
    assert TESTS[8] == ThinVolume && TESTS[9] == ThinInterest && TESTS[10] == BadDelta && TESTS[11] == DeltaDirection;
    assert TESTS[12] == TooDear;
  }

  // ----- the order, comparison by comparison -----

  /** The strings first differ where the one ends or has the smaller character. */
  ghost predicate Earlier(a: string, b: string) {
    exists k :: SplitAt(a, b, k) && (if k == |a| then k < |b| else k < |b| && a[k] < b[k])
  }

  ghost predicate SplitAt(a: string, b: string, k: int) {
    0 <= k <= |a| && k <= |b| && a[..k] == b[..k]
  }

  lemma HeadsAgree(a: string, b: string, k: int)
    requires SplitAt(a, b, k) && k > 0
    ensures a != [] && b != [] && a[0] == b[0]
  {
    assert a[..k][0] == b[..k][0];
  }

  lemma {:induction false} BeforeIsEarlier(a: string, b: string)
    ensures Before(a, b) <==> Earlier(a, b)
  {
    if b != [] && a != [] && a[0] == b[0] {
      var x, y := a[1..], b[1..];
      BeforeIsEarlier(x, y);
      assert a == [a[0]] + x && b == [b[0]] + y;
      if Earlier(x, y) {
        var k :| SplitAt(x, y, k) && (if k == |x| then k < |y| else k < |y| && x[k] < y[k]);
        assert a[..k + 1] == [a[0]] + x[..k] && b[..k + 1] == [b[0]] + y[..k];
        assert SplitAt(a, b, k + 1);
      }
      if Earlier(a, b) {
        var k :| SplitAt(a, b, k) && (if k == |a| then k < |b| else k < |b| && a[k] < b[k]);
        assert x[..k - 1] == a[..k][1..] && y[..k - 1] == b[..k][1..];
        assert SplitAt(x, y, k - 1);
      }
    } else {
      assert SplitAt(a, b, 0);
      if Earlier(a, b) {
        var k :| SplitAt(a, b, k) && (if k == |a| then k < |b| else k < |b| && a[k] < b[k]);
        if k > 0 {
          HeadsAgree(a, b, k);
          assert false;
        }
      }
    }
  }

  function Size(x: real): real {
    if x >= 0.0 then x else 0.0 - x
  }

  /** `(ask - bid) / mid` compared without a division. */
  predicate Tighter(a: Candidate, b: Candidate) {
    (a.ask - a.bid) * (b.bid + b.ask) < (b.ask - b.bid) * (a.bid + a.ask)
  }

  predicate AsTight(a: Candidate, b: Candidate) {
    (a.ask - a.bid) * (b.bid + b.ask) == (b.ask - b.bid) * (a.bid + a.ask)
  }

  /** Larger delta; then the tighter market, more open interest, the cheaper ask and the earlier id. */
  ghost predicate Better(a: Candidate, b: Candidate) {
    || Size(a.delta) > Size(b.delta)
    || (Size(a.delta) == Size(b.delta) && Tighter(a, b))
    || (Size(a.delta) == Size(b.delta) && AsTight(a, b) && a.openInterest > b.openInterest)
    || (Size(a.delta) == Size(b.delta) && AsTight(a, b) && a.openInterest == b.openInterest && a.ask < b.ask)
    || (Size(a.delta) == Size(b.delta) && AsTight(a, b) && a.openInterest == b.openInterest && a.ask == b.ask
        && Earlier(a.optionId, b.optionId))
  }

  lemma SpreadsCompare(a: Candidate, b: Candidate)
    ensures Spread(a.bid, a.ask) < Spread(b.bid, b.ask) <==> Tighter(a, b)
    ensures Spread(a.bid, a.ask) == Spread(b.bid, b.ask) <==> AsTight(a, b)
  {
    var x, y := (a.ask - a.bid) as real, (b.ask - b.bid) as real;
    var m, n := (a.bid + a.ask) as real, (b.bid + b.ask) as real;
    FractionsCompare(x, m, y, n);
    FractionsCompare(y, n, x, m);
    assert ((a.ask - a.bid) * (b.bid + b.ask)) as real == x * n;
    assert ((b.ask - b.bid) * (a.bid + a.ask)) as real == y * m;
  }

  lemma FractionsCompare(x: real, m: real, y: real, n: real)
    requires m > 0.0 && n > 0.0
    ensures x / (m / 2.0) < y / (n / 2.0) <==> x * n < y * m
  {
    var p, q := x / (m / 2.0), y / (n / 2.0);
    assert p * m == 2.0 * x && q * n == 2.0 * y;
    assert 2.0 * (x * n) == p * m * n && 2.0 * (y * m) == q * n * m;
    Scaled(p, q, m * n);
    assert p * m * n == p * (m * n) && q * n * m == q * (m * n);
  }

  lemma Scaled(p: real, q: real, c: real)
    requires c > 0.0
    ensures p * c < q * c <==> p < q
  {
    if p < q {
      assert (q - p) * c > 0.0;
    } else {
      Rounding.ProductNonNegative(p - q, c);
    }
  }

  lemma PrecedesExactly(a: Candidate, b: Candidate)
    ensures Precedes(a, b) <==> Better(a, b)
  {
    hide Spread, Before, Earlier, Tighter, AsTight;
    SpreadsCompare(a, b);
    BeforeIsEarlier(a.optionId, b.optionId);
  }

  // ----- the selection -----

  /** The indices of the candidates that fit. */
  ghost function Fitting(cs: seq<Candidate>, s: Screen): set<int> {
    set n | 0 <= n < |cs| && Fits(cs[n], s)
  }

  ghost function FailingFirst(cs: seq<Candidate>, s: Screen, k: nat): set<int>
    requires k < |TESTS|
  {
    set n | 0 <= n < |cs| && FailsFirst(cs[n], s, k)
  }

  lemma {:induction false} EligibleCounts(cs: seq<Candidate>, s: Screen)
    ensures |Eligible(cs, s)| == |Fitting(cs, s)|
  {
    hide Rejection, Fits;
    if cs == [] {
      assert Fitting(cs, s) == {};
    } else {
      var front, last := cs[..|cs| - 1], cs[|cs| - 1];
      EligibleCounts(front, s);
      RejectionExactly(last, s);
      assert Fitting(cs, s) == Fitting(front, s) + if Fits(last, s) then {|cs| - 1} else {};
    }
  }

  /** Each counter is the number of candidates whose first failing test it stands for. */
  lemma {:induction false} CountersCount(cs: seq<Candidate>, s: Screen, k: nat)
    requires k < |TESTS|
    ensures RejectedFor(cs, s, TESTS[k]) == |FailingFirst(cs, s, k)|
  {
    hide Rejection, FailsFirst;
    if cs == [] {
      assert FailingFirst(cs, s, k) == {};
    } else {
      var front, last := cs[..|cs| - 1], cs[|cs| - 1];
      CountersCount(front, s, k);
      RejectionExactly(last, s);
      assert FailingFirst(cs, s, k) == FailingFirst(front, s, k) + if FailsFirst(last, s, k) then {|cs| - 1} else {};
    }
  }

  /** The record is of one contract, at the largest size that the ceiling holds. */
  predicate RecordOf(c: Candidate, s: Screen, sel: Selection) {
    && sel.optionId == c.optionId && sel.optionType == c.optionType && sel.expirationDay == c.expirationDay
    && sel.delta == c.delta && sel.ask == c.ask && sel.volume == c.volume && sel.openInterest == c.openInterest
    && sel.quoteAt == c.quoteAt && sel.selloutAt == c.selloutAt
    && sel.spread - 0.0000005 <= (c.ask - c.bid) as real / ((c.bid + c.ask) as real / 2.0) <= sel.spread + 0.0000005
    && sel.contractDebit == c.ask && sel.plannedDebit == sel.quantity * c.ask
    && sel.plannedDebit <= s.ceiling < sel.plannedDebit + c.ask
    && sel.ceiling == s.ceiling
  }

  /** The contract fits, and no other that fits is better. */
  ghost predicate BestFit(cs: seq<Candidate>, s: Screen, c: Candidate) {
    c in cs && Fits(c, s) && forall d :: d in cs && Fits(d, s) ==> !Better(d, c)
  }

  lemma RecordIsOf(c: Candidate, s: Screen, sel: Selection, cs: seq<Candidate>, recordedAt: int)
    requires Eligible(cs, s) != [] && c == Best(Eligible(cs, s)) && Select(cs, s, recordedAt) == Some(sel)
    ensures RecordOf(c, s, sel)
  {
    hide Eligible, Best;
    SelectionFitsCeiling(cs, s, recordedAt);
    var x := Spread(c.bid, c.ask);
    var n := Rounding.RoundHalfEven(x * 1000000.0);
    assert sel.spread * 1000000.0 == n as real;
    assert sel.quantity * c.ask + c.ask == (sel.quantity + 1) * c.ask;
  }

  /**
   * A contract is selected if and only if one of those submitted fits, and then it is the record of
   * one that fits with none better; the counts are of those that fit and of those submitted.
   */
  lemma SelectedExactly(cs: seq<Candidate>, s: Screen, recordedAt: int)
    ensures Select(cs, s, recordedAt).Some? <==> exists c :: c in cs && Fits(c, s)
    ensures Select(cs, s, recordedAt).Some? ==>
      var sel := Select(cs, s, recordedAt).value;
      && (exists c :: BestFit(cs, s, c) && RecordOf(c, s, sel))
      && sel.eligibleCount == |Fitting(cs, s)| && sel.submittedCount == |cs| && sel.recordedAt == recordedAt
  {
    hide Rejection, Fits, Precedes, Better, Spread;
    forall c ensures Rejection(c, s).None? <==> Fits(c, s) {
      RejectionExactly(c, s);
    }
    EligibleCounts(cs, s);
    var eligible := Eligible(cs, s);
    if eligible != [] {
      var c, sel := Best(eligible), Select(cs, s, recordedAt).value;
      RecordIsOf(c, s, sel, cs, recordedAt);
      forall d | d in cs && Fits(d, s) ensures !Better(d, c) {
        assert d in eligible;
        NothingPrecedesBest(eligible, d);
        PrecedesExactly(d, c);
      }
      assert BestFit(cs, s, c);
    } else {
      assert forall c :: c in cs ==> c !in eligible;
    }
  }

  /** The screening loop: keeps the eligible candidates in order and counts every rejection. */
  method ScreenCandidates(cs: seq<Candidate>, s: Screen)
    returns (eligible: seq<Candidate>, counts: map<Reason, nat>)
    ensures eligible == Eligible(cs, s)
    ensures forall why :: RejectedFor(cs, s, why) == if why in counts then counts[why] else 0
    ensures forall why :: why in counts ==> counts[why] > 0
    ensures forall c :: c in eligible <==> c in cs && Fits(c, s)
    ensures |eligible| == |Fitting(cs, s)|
    ensures forall k :: 0 <= k < |TESTS| ==>
      |FailingFirst(cs, s, k)| == if TESTS[k] in counts then counts[TESTS[k]] else 0
  {
    hide Rejection, Fits, FailsFirst;
    eligible, counts := [], map[];
    for n := 0 to |cs|
      invariant eligible == Eligible(cs[..n], s)
      invariant forall why :: RejectedFor(cs[..n], s, why) == if why in counts then counts[why] else 0
      invariant forall why :: why in counts ==> counts[why] > 0
    {
      assert cs[..n + 1][..n] == cs[..n];
      match Rejection(cs[n], s) {
        case Some(why) =>
          counts := counts[why := (if why in counts then counts[why] else 0) + 1];
        case None =>
          eligible := eligible + [cs[n]];
      }
    }
    assert cs[..|cs|] == cs;
    forall c ensures Rejection(c, s).None? <==> Fits(c, s) {
      RejectionExactly(c, s);
    }
    EligibleCounts(cs, s);
    forall k | 0 <= k < |TESTS| ensures RejectedFor(cs, s, TESTS[k]) == |FailingFirst(cs, s, k)| {
      CountersCount(cs, s, k);
    }
  }
}
