/** What a bar does to a paper trade, in the prices of the bar and the plan. */
module PaperBars {
  import opened Prelude
  import opened Market
  import opened PaperTrades
  import opened PaperReplay
  import Rounding

  // ----- prices -----

  /** The bar goes against the plan as far as the price. */
  predicate FallsTo(p: Plan, b: Bar, price: real) {
    if p.direction == Long then b.low <= price else b.high >= price
  }

  /** The bar goes the plan's way as far as the price. */
  predicate ReachesTo(p: Plan, b: Bar, price: real) {
    if p.direction == Long then b.high >= price else b.low <= price
  }

  /** The stop in force: the initial one, and the entry once a tranche is out. */
  function StopOf(t: Trade): real {
    if t.tranches == 0 then t.plan.initialStop else t.plan.entry
  }

  /** The move to a price in units of the initial risk. */
  function InRisk(p: Plan, price: real): real
    requires p.entry != p.initialStop
  {
    (if p.direction == Long then price - p.entry else p.entry - price)
    / (if p.entry > p.initialStop then p.entry - p.initialStop else p.initialStop - p.entry)
  }

  /** A third at each of the first two targets, the rest at the third or wherever the trade ends. */
  function WorthAt(p: Plan, n: nat, exitPrice: real): real
    requires p.entry != p.initialStop && n <= |p.targets| <= 3
  {
    if n == 0 then InRisk(p, exitPrice)
    else if n == 1 then 0.33 * InRisk(p, p.targets[0]) + 0.67 * InRisk(p, exitPrice)
    else if n == 2 then
      0.33 * InRisk(p, p.targets[0]) + 0.33 * InRisk(p, p.targets[1]) + 0.34 * InRisk(p, exitPrice)
    else 0.33 * InRisk(p, p.targets[0]) + 0.33 * InRisk(p, p.targets[1]) + 0.34 * InRisk(p, p.targets[2])
  }

  /** To the nearest thousandth. */
  predicate Reports(r: Option<real>, exact: real) {
    r.Some? && r.value - 0.0005 <= exact <= r.value + 0.0005
  }

  lemma RAtIs(p: Plan, price: real)
    requires Playable(p)
    ensures RAt(p, price) == InRisk(p, price)
  {
  }

  lemma ResultIs(p: Plan, n: nat, price: real)
    requires Playable(p) && n <= |p.targets|
    ensures Reports(Some(ResultAt(p, n, RAt(p, price))), WorthAt(p, n, price))
    ensures n == 3 ==> Reports(Some(Round3(Banked(p, n))), WorthAt(p, n, price))
  {
    hide RAt, InRisk, Rounding.RoundTo;
    RAtIs(p, price);
    forall k | 0 <= k < |p.targets| ensures RAt(p, p.targets[k]) == InRisk(p, p.targets[k]) {
      RAtIs(p, p.targets[k]);
    }
    BankedIs(p, n);
    var x := RAt(p, price);
    RoundedIsNear(Banked(p, n) + Remaining(n) * x);
    RoundedIsNear(Banked(p, n));
  }

  lemma BankedIs(p: Plan, n: nat)
    requires Playable(p) && n <= |p.targets|
    ensures n >= 1 ==> Banked(p, 1) == 0.33 * RAt(p, p.targets[0])
    ensures n >= 2 ==> Banked(p, 2) == 0.33 * RAt(p, p.targets[0]) + 0.33 * RAt(p, p.targets[1])
    ensures n >= 3 ==>
      Banked(p, 3) == 0.33 * RAt(p, p.targets[0]) + 0.33 * RAt(p, p.targets[1]) + 0.34 * RAt(p, p.targets[2])
    ensures Banked(p, 0) == 0.0
    ensures Remaining(0) == 1.0 && Remaining(1) == 0.67 && Remaining(2) == 0.34 && Remaining(3) == 0.0
  {
    hide RAt;
    assert n >= 1 ==> Banked(p, 1) == Banked(p, 0) + Tranche(0) * RAt(p, p.targets[0]);
    assert n >= 2 ==> Banked(p, 2) == Banked(p, 1) + Tranche(1) * RAt(p, p.targets[1]);
    assert n >= 3 ==> Banked(p, 3) == Banked(p, 2) + Tranche(2) * RAt(p, p.targets[2]);
    assert Remaining(1) == Remaining(0) - Tranche(0);
    assert Remaining(2) == Remaining(1) - Tranche(1);
    assert Remaining(3) == Remaining(2) - Tranche(2);
  }

  lemma RoundedIsNear(x: real)
    ensures Reports(Some(Round3(x)), x)
  {
    var n := Rounding.RoundHalfEven(x * 1000.0);
    assert Round3(x) * 1000.0 == n as real;
  }

  // ----- an open trade -----

  /** Not yet: a bar that closed no later than the plan was made, or than the trade was filled. */
  predicate TooEarly(t: Trade, b: Bar) {
    b.ts <= if t.outcome == Open && t.filledAt.Some? then t.filledAt.value else t.plan.key.createdAt
  }

  /** The targets from the next one on that the bar reaches without a gap. */
  predicate TakesTo(t: Trade, b: Bar, n: nat)
    requires t.tranches <= n <= |t.plan.targets|
  {
    && (forall k :: t.tranches <= k < n ==> ReachesTo(t.plan, b, t.plan.targets[k]))
    && (n < |t.plan.targets| ==> !ReachesTo(t.plan, b, t.plan.targets[n]))
  }

  /** The best and the worst that the trade has seen, this bar included. */
  predicate Excursed(t: Trade, u: Trade, b: Bar)
    requires Playable(t.plan)
  {
    var best := InRisk(t.plan, if t.plan.direction == Long then b.high else b.low);
    var worst := InRisk(t.plan, if t.plan.direction == Long then b.low else b.high);
    && u.mfeR == (if best > t.mfeR then best else t.mfeR)
    && u.maeR == (if worst < t.maeR then worst else t.maeR)
  }

  lemma {:induction false} TranchesTake(p: Plan, b: Bar, n: nat)
    requires n <= |p.targets|
    ensures var m := TranchesAfter(p, b, n);
      && (forall k :: n <= k < m ==> ReachesTo(p, b, p.targets[k]))
      && (m < |p.targets| ==> !ReachesTo(p, b, p.targets[m]))
    decreases |p.targets| - n
  {
    if n < |p.targets| && TargetHit(p, b, p.targets[n]) {
      TranchesTake(p, b, n + 1);
    }
  }

  /**
   * A later bar stops an open trade exactly when it falls to the stop in force, whatever else it
   * reaches. Otherwise it banks the targets it reaches in a row, and the trade ends in full exactly
   * with the last of them, and by the clock exactly for an unfinished 0DTE plan from 15:55.
   */
  lemma OpenTradeOnBar(t: Trade, b: Bar)
    requires Playable(t.plan) && t.tranches <= |t.plan.targets| && t.outcome == Open && !TooEarly(t, b)
    ensures var u := Advance(t, b);
      var stopped := FallsTo(t.plan, b, StopOf(t));
      var full := !stopped && t.tranches < u.tranches == |t.plan.targets|;
      var late := !stopped && !full && t.plan.key.horizon == ZeroDte && b.elapsed >= 23100;
      && u.plan == t.plan && u.filledAt == t.filledAt && Excursed(t, u, b)
      && (u.outcome == Stopped <==> stopped && t.tranches == 0)
      && (u.outcome == StoppedAfterBe <==> stopped && t.tranches > 0)
      && (u.outcome == TpFull <==> full)
      && (u.outcome == FlattenedTime <==> late)
      && (u.outcome == Open <==> !stopped && !full && !late)
      && (if stopped then u.tranches == t.tranches else t.tranches <= u.tranches && TakesTo(t, b, u.tranches))
      && u.exitTs == (if u.outcome == Open then t.exitTs else Some(b.ts))
      && (stopped ==> Reports(u.realizedR, WorthAt(t.plan, t.tranches, StopOf(t))))
      && (full && |t.plan.targets| == 3 ==> Reports(u.realizedR, WorthAt(t.plan, 3, 0.0)))
      && (late ==> Reports(u.realizedR, WorthAt(t.plan, u.tranches, b.close)))
      && (u.outcome == Open ==> u.realizedR == t.realizedR)
      && (b.symbol == t.plan.key.symbol ==> Feed(t, b) == u)
  {
    hide RAt, InRisk, ResultAt, Round3, Banked, WorthAt;
    var p := t.plan;
    TranchesTake(p, b, t.tranches);
    RAtIs(p, b.high);
    RAtIs(p, b.low);
    var n := TranchesAfter(p, b, t.tranches);
    ResultIs(p, t.tranches, StopOf(t));
    ResultIs(p, n, b.close);
    ResultIs(p, n, 0.0);
  }

  // ----- a pending plan -----

  /**
   * A later bar ends a pending plan exactly after its validity, fills it exactly when it holds the
   * entry, and then stops it at once exactly when it falls to the stop as well.
   */
  lemma PendingPlanOnBar(t: Trade, b: Bar)
    requires Playable(t.plan) && t.tranches <= |t.plan.targets| && t.outcome == Pending && !TooEarly(t, b)
    ensures var u := Advance(t, b);
      var expired := b.ts > t.plan.validUntil;
      var filled := !expired && b.low <= t.plan.entry <= b.high;
      var stopped := filled && FallsTo(t.plan, b, t.plan.initialStop);
      && u.plan == t.plan && u.tranches == t.tranches && u.mfeR == t.mfeR && u.maeR == t.maeR
      && (u.outcome == ExpiredUnfilled <==> expired)
      && (u.outcome == Open <==> filled && !stopped)
      && (u.outcome == Stopped <==> stopped)
      && (u.outcome == Pending <==> !expired && !filled)
      && u.filledAt == (if filled then Some(b.ts) else t.filledAt)
      && u.exitTs == (if expired || stopped then Some(b.ts) else t.exitTs)
      && u.realizedR == (if stopped then Some(-1.0) else t.realizedR)
      && (b.symbol == t.plan.key.symbol ==> Feed(t, b) == u)
  {
  }

  /** Bars of other symbols, bars too early and bars after the end change nothing. */
  lemma OtherBars(t: Trade, b: Bar)
    requires Playable(t.plan) && t.tranches <= |t.plan.targets|
    requires b.symbol != t.plan.key.symbol || t.outcome !in {Pending, Open} || TooEarly(t, b)
    ensures Feed(t, b) == t
  {
  }

  // ----- whole lives -----

  /** A bar of the plan's symbol from some instant on. */
  predicate Concerns(p: Plan, b: Bar, since: int) {
    b.symbol == p.key.symbol && b.ts >= since
  }

  ghost predicate EndedBy(p: Plan, bars: seq<Bar>, exitTs: Option<int>, price: real, against: bool) {
    exists k :: 0 <= k < |bars| && bars[k].symbol == p.key.symbol && exitTs == Some(bars[k].ts)
                && if against then FallsTo(p, bars[k], price) else ReachesTo(p, bars[k], price)
  }

  ghost predicate FilledBy(p: Plan, bars: seq<Bar>, ts: int) {
    exists k :: 0 <= k < |bars| && bars[k].symbol == p.key.symbol && bars[k].ts == ts > p.key.createdAt
                && bars[k].low <= p.entry <= bars[k].high
  }

  /** The bars of the plan's symbol come in the order of their closes. */
  ghost predicate InOrderFor(p: Plan, bars: seq<Bar>) {
    forall j, k :: 0 <= j < k < |bars| && bars[j].symbol == p.key.symbol == bars[k].symbol ==> bars[j].ts < bars[k].ts
  }

  /** What the outcome so far says about the bars so far. */
  ghost predicate Witnessed(t: Trade, bars: seq<Bar>)
    requires |t.plan.targets| == 3
  {
    var p := t.plan;
    && (t.outcome == Pending ==> forall k :: 0 <= k < |bars| && Concerns(p, bars[k], p.key.createdAt + 1) ==>
          bars[k].ts <= p.validUntil && !(bars[k].low <= p.entry <= bars[k].high))
    && (t.outcome == Open ==>
          && t.filledAt.Some? && FilledBy(p, bars, t.filledAt.value)
          && forall k :: 0 <= k < |bars| && Concerns(p, bars[k], t.filledAt.value) ==>
               !FallsTo(p, bars[k], p.initialStop))
    && (t.outcome == Stopped ==> EndedBy(p, bars, t.exitTs, p.initialStop, true))
    && (t.outcome == StoppedAfterBe ==> EndedBy(p, bars, t.exitTs, p.entry, true))
    && (t.outcome == TpFull ==> EndedBy(p, bars, t.exitTs, p.targets[2], false))
  }

  lemma EarlierStill(p: Plan, front: seq<Bar>, b: Bar, exitTs: Option<int>, price: real, against: bool)
    requires EndedBy(p, front, exitTs, price, against)
    ensures EndedBy(p, front + [b], exitTs, price, against)
  {
    var k :| 0 <= k < |front| && front[k].symbol == p.key.symbol && exitTs == Some(front[k].ts)
      && if against then FallsTo(p, front[k], price) else ReachesTo(p, front[k], price);
    assert (front + [b])[k] == front[k];
  }

  lemma EndedNow(p: Plan, front: seq<Bar>, b: Bar, exitTs: Option<int>, price: real, against: bool)
    requires b.symbol == p.key.symbol && exitTs == Some(b.ts)
    requires if against then FallsTo(p, b, price) else ReachesTo(p, b, price)
    ensures EndedBy(p, front + [b], exitTs, price, against)
  {
    assert (front + [b])[|front|] == b;
  }

  lemma StopsInOrder(p: Plan, b: Bar)
    requires Geometry(p)
    ensures FallsTo(p, b, p.initialStop) ==> FallsTo(p, b, p.entry)
  {
  }

  lemma FilledStill(p: Plan, front: seq<Bar>, b: Bar, ts: int)
    requires FilledBy(p, front, ts)
    ensures FilledBy(p, front + [b], ts)
  {
    var k :| 0 <= k < |front| && front[k].symbol == p.key.symbol && front[k].ts == ts > p.key.createdAt
      && front[k].low <= p.entry <= front[k].high;
    assert (front + [b])[k] == front[k];
  }

  /** A bar of another symbol, or too early, or after the end, adds nothing. */
  lemma UntouchedWitnessed(t: Trade, front: seq<Bar>, b: Bar)
    requires |t.plan.targets| == 3 && Witnessed(t, front)
    requires b.symbol != t.plan.key.symbol || t.outcome !in {Pending, Open}
             || (t.outcome == Pending && b.ts <= t.plan.key.createdAt)
    ensures Witnessed(t, front + [b])
  {
    hide FallsTo, ReachesTo, EndedBy, FilledBy;
    var p, all := t.plan, front + [b];
    assert all[|front|] == b;
    assert forall k :: 0 <= k < |front| ==> all[k] == front[k];
    if t.outcome == Open {
      FilledStill(p, front, b, t.filledAt.value);
    } else if t.outcome == Stopped {
      EarlierStill(p, front, b, t.exitTs, p.initialStop, true);
    } else if t.outcome == StoppedAfterBe {
      EarlierStill(p, front, b, t.exitTs, p.entry, true);
    } else if t.outcome == TpFull {
      EarlierStill(p, front, b, t.exitTs, p.targets[2], false);
    }
  }

  lemma PendingWitnessed(t: Trade, front: seq<Bar>, b: Bar)
    requires Geometry(t.plan) && t.tranches <= 3 && t.outcome == Pending && Witnessed(t, front)
    requires b.symbol == t.plan.key.symbol && b.ts > t.plan.key.createdAt && InOrderFor(t.plan, front + [b])
    ensures Witnessed(Feed(t, b), front + [b])
  {
    hide Feed, FallsTo, ReachesTo, EndedBy, Excursed;
    var p, all, u := t.plan, front + [b], Feed(t, b);
    assert all[|front|] == b;
    assert forall k :: 0 <= k < |front| ==> all[k] == front[k];
    PendingPlanOnBar(t, b);
    if u.outcome == Stopped {
      EndedNow(p, front, b, u.exitTs, p.initialStop, true);
    }
  }

  lemma OpenWitnessed(t: Trade, front: seq<Bar>, b: Bar)
    requires Geometry(t.plan) && t.tranches <= 3 && t.outcome == Open && Witnessed(t, front)
    requires b.symbol == t.plan.key.symbol && InOrderFor(t.plan, front + [b])
    ensures Witnessed(Feed(t, b), front + [b])
  {
    hide Feed, FallsTo, ReachesTo, EndedBy, Excursed, Reports;
    var p, all, u := t.plan, front + [b], Feed(t, b);
    assert all[|front|] == b;
    assert forall k :: 0 <= k < |front| ==> all[k] == front[k];
    FilledBefore(p, front, b, t.filledAt.value);
    FilledStill(p, front, b, t.filledAt.value);
    OpenTradeOnBar(t, b);
    StopsInOrder(p, b);
    if u.outcome == Stopped {
      EndedNow(p, front, b, u.exitTs, p.initialStop, true);
    } else if u.outcome == StoppedAfterBe {
      EndedNow(p, front, b, u.exitTs, p.entry, true);
    } else if u.outcome == TpFull {
      assert ReachesTo(p, b, p.targets[2]);
      EndedNow(p, front, b, u.exitTs, p.targets[2], false);
    }
  }

  lemma FilledBefore(p: Plan, front: seq<Bar>, b: Bar, ts: int)
    requires FilledBy(p, front, ts) && b.symbol == p.key.symbol && InOrderFor(p, front + [b])
    ensures ts < b.ts && ts > p.key.createdAt
  {
    var k :| 0 <= k < |front| && front[k].symbol == p.key.symbol && front[k].ts == ts > p.key.createdAt
      && front[k].low <= p.entry <= front[k].high;
    var all := front + [b];
    assert all[k] == front[k] && all[|front|] == b;
  }

  /**
   * Over a plan's whole life: while it is pending no bar held its entry, while it is open no bar
   * since the fill fell to the initial stop, and a stop or a full result has the bar that made it.
   */
  lemma {:induction false} LifeIsWitnessed(p: Plan, bars: seq<Bar>)
    requires Geometry(p) && AllSane(bars) && InOrderFor(p, bars)
    ensures Witnessed(FeedAll(NewTrade(p), bars), bars)
    decreases |bars|
  {
    hide Feed, Witnessed;
    if bars == [] {
      NewIsWitnessed(p);
    } else {
      var front, b := bars[..|bars| - 1], bars[|bars| - 1];
      assert bars == front + [b];
      LifeIsWitnessed(p, front);
      FeedSplit(NewTrade(p), front, [b]);
      var t := FeedAll(NewTrade(p), front);
      assert FeedAll(t, [b]) == FeedAll(Feed(t, b), [b][1..]);
      FeedAllKeepsInv(NewTrade(p), front);
      if b.symbol != p.key.symbol || t.outcome !in {Pending, Open}
        || (t.outcome == Pending && b.ts <= p.key.createdAt) {
        OtherBars(t, b);
        UntouchedWitnessed(t, front, b);
      } else if t.outcome == Pending {
        PendingWitnessed(t, front, b);
      } else {
        OpenWitnessed(t, front, b);
      }
    }
  }

  lemma NewIsWitnessed(p: Plan)
    requires Geometry(p)
    ensures Witnessed(FeedAll(NewTrade(p), []), []) && TradeInv(NewTrade(p))
  {
  }
}
