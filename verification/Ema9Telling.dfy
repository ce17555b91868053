/** Every bar carries the stories on, so every run's trades have theirs. */
module Ema9Telling {
  import opened Prelude
  import opened Market
  import opened Smoothing
  import opened Indicators
  import opened Ema9Rules
  import opened Ema9Steps
  import opened Ema9Stories
  import Rounding

  // ----- figures -----

  lemma Round6Reports(x: real)
    ensures Reports(Round6(x), x)
  {
    var n := Rounding.RoundHalfEven(x * 1000000.0);
    assert Round6(x) * 1000000.0 == n as real;
  }

  lemma RoundedCharge(gross: real, cost: real)
    ensures cost >= 0.0 ==> Round6(cost) >= 0.0 && Round6(gross - cost) <= Round6(gross)
  {
    if cost >= 0.0 {
      Rounding.RoundToMonotone(0.0, cost, 1000000.0);
      Rounding.RoundToFixed(0.0, 0, 1000000.0);
      Rounding.RoundToMonotone(gross - cost, gross, 1000000.0);
    }
  }

  lemma ChargeIs(c: Config, p: Position, price: real)
    requires p.risk > 0.0
    ensures InR(Charge(c, p, price), p.risk) == (p.entry + price) * c.costBps / 10000.0 / p.risk
  {
  }

  lemma ClosedFigures(c: Config, p: Position, exitTs: int, price: real, reason: ExitReason, gap: bool)
    requires p.risk > 0.0
    ensures Figures(c, CloseTrade(c, p, exitTs, price, reason, gap), p, price)
  {
    hide Round6, Reports;
    assert Gain(p, price) == Favour(p, price);
    var t := CloseTrade(c, p, exitTs, price, reason, gap);
    var gross, cost := Favour(p, price) / p.risk, (p.entry + price) * c.costBps / 10000.0 / p.risk;
    Round6Reports(p.entry);
    Round6Reports(price);
    Round6Reports(p.risk);
    Round6Reports(p.initialStop);
    Round6Reports(p.currentStop);
    Round6Reports(gross);
    Round6Reports(cost);
    Round6Reports(gross - cost);
    Round6Reports(p.maeR);
    Round6Reports(p.mfeR);
    ChargeIs(c, p, price);
    RoundedCharge(gross, cost);
    hide Charge, Gain, Favour;
    assert t.grossR == Round6(gross) && t.costR == Round6(cost) && t.netR == Round6(gross - cost);
  }

  // ----- within a bar -----

  /** Held into the last of the bars, which has not touched the position yet. */
  ghost predicate MidStory(c: Config, seen: seq<Bar>, p: Position, e: int)
    requires Admissible(c)
  {
    && OpenedAt(c, seen, e, p) && e < |seen|
    && (forall j :: e <= j < |seen| - 1 ==> Stays(c, seen, e, j, p))
    && Peaks(seen, e, |seen| - 1, p)
    && StopIs(c, seen, e, |seen| - 1, p)
  }

  lemma HeldGoesOn(c: Config, seen: seq<Bar>, b: Bar, p: Position, e: int)
    requires Admissible(c) && HeldStory(c, seen, p, e)
    ensures MidStory(c, seen + [b], p, e)
  {
    hide OpenedAt, Stays, Peaks, StopAfter, Tightenings;
    OpenedIndex(c, seen, e, p);
    OpenedLater(c, seen, b, e, p);
    OpenedIndex(c, seen + [b], e, p);
    forall j | e <= j < |seen| ensures Stays(c, seen + [b], e, j, p) {
      StaysLater(c, seen, b, e, j, p);
    }
    PeaksLater(seen, b, e, |seen|, p);
    StopAfterLater(c, seen, b, e, |seen|, p);
  }

  lemma FlattenStory(c: Config, seen: seq<Bar>, p: Position, e: int)
    requires Admissible(c) && MidStory(c, seen, p, e) && EndsSession(c, seen[|seen| - 1]) && p.risk > 0.0
    ensures var b := seen[|seen| - 1];
      TradeStory(c, seen, CloseTrade(c, p, OpenTs(c, b), b.open, SessionFlatten, false), p, e, |seen| - 1, b.open)
  {
    hide OpenedAt, Stays, Peaks, StopIs, EndsSession, Figures;
    OpenedIndex(c, seen, e, p);
    var b := seen[|seen| - 1];
    ClosedFigures(c, p, OpenTs(c, b), b.open, SessionFlatten, false);
    ClosedTags(c, p, OpenTs(c, b), b.open, SessionFlatten, false);
    hide CloseTrade;
  }

  lemma ClosedTags(c: Config, p: Position, exitTs: int, price: real, reason: ExitReason, gap: bool)
    requires p.risk > 0.0
    ensures var t := CloseTrade(c, p, exitTs, price, reason, gap);
      t.exitTs == exitTs && t.reason == reason && t.gapFallback == gap
  {
  }

  /** The bar's range joins the excursions. */
  lemma ExposedPeaks(seen: seq<Bar>, e: int, p: Position)
    requires 0 <= e < |seen| && Peaks(seen, e, |seen| - 1, p)
    ensures Peaks(seen, e, |seen|, Exposed(p, seen[|seen| - 1]))
  {
    var n := |seen| - 1;
    var b, q := seen[n], Exposed(p, seen[n]);
    ExposedSame(p, b);
    assert q.highest == Max(p.highest, b.high) && q.lowest == Min(p.lowest, b.low);
    if q.highest == b.high {
      assert seen[n].high == q.highest;
    }
    if q.lowest == b.low {
      assert seen[n].low == q.lowest;
    }
    ExcursionsGrow(p, b);
  }

  lemma ExcursionsGrow(p: Position, b: Bar)
    requires p.risk > 0.0
    requires p.mfeR == Favour(p, if p.side == Buy then p.highest else p.lowest) / p.risk
    requires p.maeR == Favour(p, if p.side == Buy then p.lowest else p.highest) / p.risk
    ensures var q := Exposed(p, b);
      && q.mfeR == Favour(q, if q.side == Buy then q.highest else q.lowest) / q.risk
      && q.maeR == Favour(q, if q.side == Buy then q.lowest else q.highest) / q.risk
  {
    var hi, lo := Max(p.highest, b.high), Min(p.lowest, b.low);
    var before := Favour(p, if p.side == Buy then p.highest else p.lowest);
    var after := Favour(p, if p.side == Buy then hi else lo);
    Rounding.DivMonotone(before, after, p.risk);
    var worst := Favour(p, if p.side == Buy then p.lowest else p.highest);
    var worse := Favour(p, if p.side == Buy then lo else hi);
    Rounding.DivMonotone(worse, worst, p.risk);
  }

  /** The position after the bar's range, before its close. */
  ghost predicate ExposedStory(c: Config, seen: seq<Bar>, q: Position, e: int)
    requires Admissible(c)
  {
    && OpenedAt(c, seen, e, q) && e < |seen|
    && (forall j :: e <= j < |seen| - 1 ==> Stays(c, seen, e, j, q))
    && Peaks(seen, e, |seen|, q)
    && StopIs(c, seen, e, |seen| - 1, q)
  }

  lemma SameStays(c: Config, seen: seq<Bar>, q: Position, u: Position, e: int)
    requires Admissible(c) && 0 <= e < |seen| && Warm(c, seen[..e])
    requires u.side == q.side && u.entry == q.entry && u.risk == q.risk
    ensures forall j :: e <= j < |seen| ==> Stays(c, seen, e, j, u) == Stays(c, seen, e, j, q)
  {
    hide EndsSession, Opposed, StopAfter, Tightenings;
    forall j | e <= j < |seen| ensures Stays(c, seen, e, j, u) == Stays(c, seen, e, j, q) {
      SameLevels(c, seen, e, j, q, u);
    }
  }

  lemma ExposeStory(c: Config, seen: seq<Bar>, p: Position, e: int)
    requires Admissible(c) && MidStory(c, seen, p, e) && p.risk > 0.0
    ensures ExposedStory(c, seen, Exposed(p, seen[|seen| - 1]), e)
  {
    hide MidStory, ExposedStory, Exposed;
    MidPeaks(c, seen, p, e);
    ExposedSame(p, seen[|seen| - 1]);
    ExposedCount(p, seen[|seen| - 1]);
    ExposedPeaks(seen, e, p);
    ExposedFits(c, seen, p, Exposed(p, seen[|seen| - 1]), e);
  }

  lemma MidPeaks(c: Config, seen: seq<Bar>, p: Position, e: int)
    requires Admissible(c) && MidStory(c, seen, p, e)
    ensures 0 < e < |seen| && Peaks(seen, e, |seen| - 1, p)
  {
    hide Peaks, Stays, StopIs, Confirmed, Aligned, RiskOf, Atr;
  }

  lemma ExposedFits(c: Config, seen: seq<Bar>, p: Position, q: Position, e: int)
    requires Admissible(c) && MidStory(c, seen, p, e) && 0 <= e < |seen| && Peaks(seen, e, |seen|, q)
    requires q.side == p.side && q.entry == p.entry && q.risk == p.risk && q.initialStop == p.initialStop
    requires q.signalTs == p.signalTs && q.entryTs == p.entryTs
    requires q.currentStop == p.currentStop && q.stopUpdates == p.stopUpdates
    ensures ExposedStory(c, seen, q, e)
  {
    hide Peaks, OpenedAt, Stays, StopAfter, Tightenings;
    OpenedIndex(c, seen, e, p);
    SameOpening(c, seen, e, p, q);
    SameStays(c, seen, p, q, e);
    SameLevels(c, seen, e, |seen| - 1, p, q);
  }

  lemma SameOpening(c: Config, seen: seq<Bar>, e: int, p: Position, q: Position)
    requires Admissible(c) && OpenedAt(c, seen, e, p)
    requires q.side == p.side && q.entry == p.entry && q.risk == p.risk && q.initialStop == p.initialStop
    requires q.signalTs == p.signalTs && q.entryTs == p.entryTs
    ensures OpenedAt(c, seen, e, q)
  {
    hide Confirmed, Aligned, RiskOf, Atr;
  }

  lemma ExposedCount(p: Position, b: Bar)
    requires p.risk > 0.0
    ensures Exposed(p, b).stopUpdates == p.stopUpdates
  {
  }

  lemma StopStory(c: Config, seen: seq<Bar>, q: Position, e: int)
    requires Admissible(c) && ExposedStory(c, seen, q, e) && !EndsSession(c, seen[|seen| - 1]) && q.risk > 0.0
    requires StopTriggered(q, seen[|seen| - 1])
    ensures var b := seen[|seen| - 1]; var offset := StopOffset(c, seen[..|seen| - 1]);
      var gap := Gapped(q, b, offset);
      TradeStory(c, seen, CloseTrade(c, q, b.ts, StopFill(q, b, offset), TrailStop, gap), q, e, |seen| - 1,
                 StopFill(q, b, offset))
  {
    hide OpenedAt, Stays, Peaks, EndsSession, Figures, Tightenings, StopAfter, Atr;
    OpenedIndex(c, seen, e, q);
    var b := seen[|seen| - 1];
    var offset := StopOffset(c, seen[..|seen| - 1]);
    var gap := Gapped(q, b, offset);
    assert gap <==> GappedThrough(c, seen, |seen| - 1, q);
    assert Overrun(c, seen, e, |seen| - 1, q);
    ClosedFigures(c, q, b.ts, StopFill(q, b, offset), TrailStop, gap);
    ClosedTags(c, q, b.ts, StopFill(q, b, offset), TrailStop, gap);
    hide CloseTrade;
  }

  lemma NotTriggered(c: Config, seen: seq<Bar>, q: Position, e: int)
    requires Admissible(c) && ExposedStory(c, seen, q, e) && !StopTriggered(q, seen[|seen| - 1])
    ensures 0 <= e && Warm(c, seen[..e]) && !Overrun(c, seen, e, |seen| - 1, q)
  {
    hide Peaks, Stays, StopAfter, Tightenings, Confirmed, Aligned, Atr;
  }

  lemma CrossStory(c: Config, seen: seq<Bar>, q: Position, e: int)
    requires Admissible(c) && ExposedStory(c, seen, q, e) && !EndsSession(c, seen[|seen| - 1]) && q.risk > 0.0
    requires !StopTriggered(q, seen[|seen| - 1]) && Opposed(c, seen, |seen| - 1, q.side)
    ensures var b := seen[|seen| - 1]; var reason := if q.side == Buy then CrossBelow else CrossAbove;
      TradeStory(c, seen, CloseTrade(c, q, b.ts, b.close, reason, false), q, e, |seen| - 1, b.close)
  {
    hide Peaks, Stays, EndsSession, Figures, StopIs, Opposed;
    NotTriggered(c, seen, q, e);
    hide OpenedAt, Overrun, StopTriggered;
    var b, reason := seen[|seen| - 1], if q.side == Buy then CrossBelow else CrossAbove;
    ClosedFigures(c, q, b.ts, b.close, reason, false);
    ClosedTags(c, q, b.ts, b.close, reason, false);
    hide CloseTrade;
  }

  /** Some bar went so far ahead exactly if the peak is so far ahead, or nothing is asked for. */
  lemma PeakIsReached(seen: seq<Bar>, e: int, q: Position, ahead: real)
    requires 0 <= e < |seen| && Peaks(seen, e, |seen|, q)
    ensures var peak := if q.side == Buy then q.highest else q.lowest;
      && Favour(q, peak) >= 0.0
      && (ahead > 0.0 ==>
            (Favour(q, peak) >= ahead <==>
             exists k :: e <= k <= |seen| - 1 && Favour(q, BestOf(seen[k], q.side)) >= ahead))
  {
    hide InR;
    var peak := if q.side == Buy then q.highest else q.lowest;
    if ahead > 0.0 && Favour(q, peak) >= ahead {
      assert peak != q.entry;
      var k :| e <= k < |seen| && BestOf(seen[k], q.side) == peak;
    }
  }

  lemma ActivatedIs(c: Config, seen: seq<Bar>, e: int, q: Position)
    requires Admissible(c) && 0 <= e < |seen| && Peaks(seen, e, |seen|, q)
    ensures Activated(c, seen, e, |seen| - 1, q) <==> q.mfeR >= c.trailActivationR
  {
    var peak, ahead := if q.side == Buy then q.highest else q.lowest, c.trailActivationR * q.risk;
    QuotientAtLeast(Favour(q, peak), q.risk, c.trailActivationR);
    PeakIsReached(seen, e, q, ahead);
    PositiveProduct(c.trailActivationR, q.risk);
    hide Favour, BestOf;
  }

  lemma PositiveProduct(a: real, r: real)
    requires a >= 0.0 && r > 0.0
    ensures a > 0.0 <==> a * r > 0.0
    ensures a == 0.0 ==> a * r == 0.0
  {
  }

  lemma QuotientAtLeast(x: real, r: real, a: real)
    requires r > 0.0
    ensures x / r >= a <==> x >= a * r
  {
    var y := x / r;
    assert y * r == x;
    var d := y - a;
    assert d * r == x - a * r;
    if d >= 0.0 {
      Rounding.ProductNonNegative(d, r);
    } else {
      assert d * r < 0.0;
    }
  }

  lemma RatchetStory(c: Config, seen: seq<Bar>, q: Position, e: int, r: Reading)
    requires Admissible(c) && ExposedStory(c, seen, q, e) && !EndsSession(c, seen[|seen| - 1]) && q.risk > 0.0
    requires !StopTriggered(q, seen[|seen| - 1]) && !Opposed(c, seen, |seen| - 1, q.side)
    requires Ema(Closes(seen), c.emaPeriod) == Some(r.ema) && Atr(seen, c.atrPeriod) == Some(r.atr)
    ensures HeldStory(c, seen, Ratcheted(c, q, r), e)
  {
    hide ExposedStory, HeldStory, Ratcheted, StopTriggered, Opposed, EndsSession, Locked;
    RatchetTightens(c, q, r);
    StaysThrough(c, seen, q, e);
    ActivatedIs(c, seen, e, q);
    RatchetLevel(c, seen, q, e, r);
    RatchetedFits(c, seen, q, Ratcheted(c, q, r), e);
  }

  lemma StaysThrough(c: Config, seen: seq<Bar>, q: Position, e: int)
    requires Admissible(c) && ExposedStory(c, seen, q, e)
    requires !EndsSession(c, seen[|seen| - 1]) && !StopTriggered(q, seen[|seen| - 1])
    requires !Opposed(c, seen, |seen| - 1, q.side)
    ensures OpenedAt(c, seen, e, q) && 0 < e < |seen| && Warm(c, seen[..e])
    ensures forall j :: e <= j < |seen| ==> Stays(c, seen, e, j, q)
    ensures Peaks(seen, e, |seen|, q) && StopIs(c, seen, e, |seen| - 1, q)
  {
    NotTriggered(c, seen, q, e);
    OpenedIndex(c, seen, e, q);
    hide OpenedAt, Peaks, StopIs, Overrun, Opposed, EndsSession, StopTriggered;
  }

  lemma RatchetedFits(c: Config, seen: seq<Bar>, q: Position, u: Position, e: int)
    requires Admissible(c) && OpenedAt(c, seen, e, q) && 0 < e < |seen| && Warm(c, seen[..e])
    requires forall j :: e <= j < |seen| ==> Stays(c, seen, e, j, q)
    requires Peaks(seen, e, |seen|, q) && StopIs(c, seen, e, |seen|, u)
    requires u == q.(currentStop := u.currentStop, stopUpdates := u.stopUpdates)
    ensures HeldStory(c, seen, u, e)
  {
    hide OpenedAt, Peaks, StopIs, Stays;
    SameOpening(c, seen, e, q, u);
    SameStays(c, seen, q, u, e);
    RatchetedPeaks(seen, q, u, e);
  }

  /** One more bar's level. */
  lemma NextLevel(c: Config, seen: seq<Bar>, e: int, j: int, p: Position)
    requires Admissible(c) && 0 <= e < j <= |seen| && Warm(c, seen[..e])
    ensures var before, trail := StopAfter(c, seen, e, j - 1, p), TrailAt(c, seen, e, j - 1, p);
      var tighter := if p.side == Buy then trail > before else trail < before;
      && StopAfter(c, seen, e, j, p) == (if tighter then trail else before)
      && Tightenings(c, seen, e, j, p) == Tightenings(c, seen, e, j - 1, p) + if tighter then 1 else 0
  {
    hide TrailAt;
  }

  lemma TrailIs(c: Config, seen: seq<Bar>, e: int, q: Position, r: Reading)
    requires Admissible(c) && 0 <= e < |seen| && Warm(c, seen[..e])
    requires Ema(Closes(seen), c.emaPeriod) == Some(r.ema) && Atr(seen, c.atrPeriod) == Some(r.atr)
    requires Activated(c, seen, e, |seen| - 1, q) <==> q.mfeR >= c.trailActivationR
    ensures TrailAt(c, seen, e, |seen| - 1, q) == Trail(c, q, r)
  {
    hide Ema, Atr, Closes, Activated;
    assert seen[..|seen| - 1 + 1] == seen;
  }

  lemma RatchetLevel(c: Config, seen: seq<Bar>, q: Position, e: int, r: Reading)
    requires Admissible(c) && 0 <= e < |seen| && Warm(c, seen[..e]) && StopIs(c, seen, e, |seen| - 1, q)
    requires Ema(Closes(seen), c.emaPeriod) == Some(r.ema) && Atr(seen, c.atrPeriod) == Some(r.atr)
    requires Activated(c, seen, e, |seen| - 1, q) <==> q.mfeR >= c.trailActivationR
    ensures StopIs(c, seen, e, |seen|, Ratcheted(c, q, r))
  {
    hide Ema, Atr, Closes, Activated, TrailAt, StopAfter, Tightenings, Trail, Warm;
    TrailIs(c, seen, e, q, r);
    SameLevels(c, seen, e, |seen|, q, Ratcheted(c, q, r));
    NextLevel(c, seen, e, |seen|, q);
  }

  lemma RatchetedPeaks(seen: seq<Bar>, q: Position, u: Position, e: int)
    requires 0 <= e < |seen| && Peaks(seen, e, |seen|, q)
    requires u == q.(currentStop := u.currentStop, stopUpdates := u.stopUpdates)
    ensures Peaks(seen, e, |seen|, u)
  {
  }
}
