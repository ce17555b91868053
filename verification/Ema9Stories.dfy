/** Every position and every reported trade of a run, told from the bars alone. */
module Ema9Stories {
  import opened Prelude
  import opened Market
  import opened Smoothing
  import opened Indicators
  import opened Ema9Rules
  import opened Ema9Steps

  // ----- clock -----

  /** The time of day, in seconds, of an instant so many seconds after 09:30. */
  function TimeOfDay(elapsed: int): int {
    (elapsed + 9 * 3600 + 30 * 60) % (24 * 3600)
  }

  /** The flatten time lies within the bar: after its open, no later than its close. */
  predicate EndsSession(c: Config, b: Bar) {
    && c.barSeconds < 24 * 3600
    && TimeOfDay(b.elapsed - c.barSeconds) < c.flattenClock <= TimeOfDay(b.elapsed)
  }

  lemma FlattenIsEnd(c: Config, b: Bar)
    ensures IsFlattenBar(c, b) <==> EndsSession(c, b)
  {
  }

  // ----- the way in -----

  function Other(side: Side): Side {
    if side == Buy then Sell else Buy
  }

  /** The trend filter, where it is asked for: the close beyond an EMA21 that does not turn away. */
  predicate Aligned(c: Config, seen: seq<Bar>, side: Side)
    requires seen != []
  {
    c.requireEma21 ==>
      && var now, before := Ema(Closes(seen), 21), Ema(Closes(seen[..|seen| - 1]), 21);
      && now.Some?
      && (if side == Buy then seen[|seen| - 1].close > now.value else seen[|seen| - 1].close < now.value)
      && (before.Some? ==> if side == Buy then now.value >= before.value else now.value <= before.value)
  }

  /** Opened on bar `e`, at its open, on the signal of the bar before; the stop is one risk away. */
  ghost predicate OpenedAt(c: Config, seen: seq<Bar>, e: int, p: Position)
    requires Admissible(c)
  {
    && 0 < e < |seen|
    && p.signalTs == seen[e - 1].ts && p.entryTs == seen[e].ts - c.barSeconds && p.entry == seen[e].open
    && Warm(c, seen[..e]) && Confirmed(c, seen[..e], p.side) && Aligned(c, seen[..e], p.side)
    && (p.side == Sell ==> c.allowShort)
    && RiskOf(c, p.entry, Atr(seen[..e], c.atrPeriod), p.risk)
    && p.initialStop == (if p.side == Buy then p.entry - p.risk else p.entry + p.risk)
  }

  /** So many ATRs of the signal bar, or a millionth of the price if that is more. */
  predicate RiskOf(c: Config, entry: real, atr: Option<real>, risk: real) {
    && atr.Some? && risk > 0.0
    && risk >= atr.value * c.initialStopAtr && risk >= entry * 0.000001
    && (risk == atr.value * c.initialStopAtr || risk == entry * 0.000001)
  }

  // ----- the way through -----

  /** The best and the worst price of a bar for a side. */
  function BestOf(b: Bar, side: Side): real {
    if side == Buy then b.high else b.low
  }

  function Favour(p: Position, price: real): real {
    if p.side == Buy then price - p.entry else p.entry - price
  }

  /** Highest and lowest price since the entry, over bars `e` to `n`, and the excursions they make. */
  ghost predicate Peaks(seen: seq<Bar>, e: int, n: int, p: Position)
    requires 0 <= e <= n <= |seen|
  {
    && p.lowest <= p.entry <= p.highest
    && (forall k :: e <= k < n ==> seen[k].high <= p.highest && p.lowest <= seen[k].low)
    && (p.highest == p.entry || exists k :: e <= k < n && seen[k].high == p.highest)
    && (p.lowest == p.entry || exists k :: e <= k < n && seen[k].low == p.lowest)
    && p.risk > 0.0
    && p.mfeR == Favour(p, if p.side == Buy then p.highest else p.lowest) / p.risk
    && p.maeR == Favour(p, if p.side == Buy then p.lowest else p.highest) / p.risk
  }

  /** Some bar since the entry went far enough ahead to lock the entry in. */
  ghost predicate Activated(c: Config, seen: seq<Bar>, e: int, j: int, p: Position)
    requires 0 <= e && j < |seen|
  {
    c.trailActivationR == 0.0
    || exists k :: e <= k <= j && Favour(p, BestOf(seen[k], p.side)) >= c.trailActivationR * p.risk
  }

  /** The trailing level after bar `j`: so many ATRs off the average, at the entry or better once activated. */
  ghost function TrailAt(c: Config, seen: seq<Bar>, e: int, j: int, p: Position): real
    requires Admissible(c) && 0 <= e <= j < |seen| && Warm(c, seen[..e])
  {
    var ema, atr := Ema(Closes(seen[..j + 1]), c.emaPeriod).value, Atr(seen[..j + 1], c.atrPeriod).value;
    var level := if p.side == Buy then ema - c.trailAtr * atr else ema + c.trailAtr * atr;
    if Activated(c, seen, e, j, p) && (if p.side == Buy then level < p.entry else level > p.entry) then p.entry
    else level
  }

  /** The stop after bars `e` to `j`: the tightest of the first one and of every trailing level since. */
  ghost function StopAfter(c: Config, seen: seq<Bar>, e: int, j: int, p: Position): real
    requires Admissible(c) && 0 <= e <= j <= |seen| && Warm(c, seen[..e])
    decreases j
  {
    if j == e then (if p.side == Buy then p.entry - p.risk else p.entry + p.risk)
    else
      var before, trail := StopAfter(c, seen, e, j - 1, p), TrailAt(c, seen, e, j - 1, p);
      if (if p.side == Buy then trail > before else trail < before) then trail else before
  }

  /** How often the trail has tightened the stop. */
  ghost function Tightenings(c: Config, seen: seq<Bar>, e: int, j: int, p: Position): nat
    requires Admissible(c) && 0 <= e <= j <= |seen| && Warm(c, seen[..e])
    decreases j
  {
    if j == e then 0
    else Tightenings(c, seen, e, j - 1, p)
         + if StopAfter(c, seen, e, j, p) == StopAfter(c, seen, e, j - 1, p) then 0 else 1
  }

  ghost predicate StopIs(c: Config, seen: seq<Bar>, e: int, j: int, p: Position)
    requires Admissible(c) && 0 <= e <= j <= |seen| && Warm(c, seen[..e])
  {
    p.currentStop == StopAfter(c, seen, e, j, p) && p.stopUpdates == Tightenings(c, seen, e, j, p)
  }

  // ----- the way out -----

  /** Bar `j` runs over the stop that was in force before it. */
  ghost predicate Overrun(c: Config, seen: seq<Bar>, e: int, j: int, p: Position)
    requires Admissible(c) && 0 <= e <= j < |seen| && Warm(c, seen[..e])
  {
    if p.side == Buy then seen[j].low <= StopAfter(c, seen, e, j, p) else seen[j].high >= StopAfter(c, seen, e, j, p)
  }

  /** At the close of bar `j` a cross to the other side is confirmed. */
  ghost predicate Opposed(c: Config, seen: seq<Bar>, j: int, side: Side)
    requires Admissible(c) && 0 <= j < |seen|
  {
    Confirmed(c, seen[..j + 1], Other(side))
  }

  /** Nothing on bar `j` makes the position leave. */
  ghost predicate Stays(c: Config, seen: seq<Bar>, e: int, j: int, p: Position)
    requires Admissible(c) && 0 <= e <= j < |seen| && Warm(c, seen[..e])
  {
    !EndsSession(c, seen[j]) && !Overrun(c, seen, e, j, p) && !Opposed(c, seen, j, p.side)
  }

  /** A position that is held after all of the bars: how it came, what it saw, and why it is still there. */
  ghost predicate HeldStory(c: Config, seen: seq<Bar>, p: Position, e: int)
    requires Admissible(c)
  {
    && OpenedAt(c, seen, e, p)
    && (forall j :: e <= j < |seen| ==> Stays(c, seen, e, j, p))
    && Peaks(seen, e, |seen|, p)
    && StopIs(c, seen, e, |seen|, p)
  }

  /** A figure to six decimals. */
  predicate Reports(x: real, exact: real) {
    x - 0.0000005 <= exact <= x + 0.0000005
  }

  /** The trade's figures: R multiples before and after a charge per side, and the position's own. */
  predicate Figures(c: Config, t: SimTrade, p: Position, price: real)
    requires p.risk > 0.0
  {
    var gross, cost := Favour(p, price) / p.risk, (p.entry + price) * c.costBps / 10000.0 / p.risk;
    && t.side == p.side && t.signalTs == p.signalTs && t.entryTs == p.entryTs && t.stopUpdates == p.stopUpdates
    && Reports(t.entry, p.entry) && Reports(t.exit, price) && Reports(t.risk, p.risk)
    && Reports(t.initialStop, p.initialStop) && Reports(t.finalStop, p.currentStop)
    && Reports(t.grossR, gross) && Reports(t.costR, cost) && Reports(t.netR, gross - cost)
    && (cost >= 0.0 ==> t.costR >= 0.0 && t.netR <= t.grossR)
    && Reports(t.maeR, p.maeR) && Reports(t.mfeR, p.mfeR)
  }

  /** The stop was passed by more than the limit order allows before the bar opened. */
  predicate GappedThrough(c: Config, seen: seq<Bar>, k: int, p: Position)
    requires Admissible(c) && 0 <= k < |seen|
  {
    var atr := Atr(seen[..k], c.atrPeriod);
    var room := if atr.Some? then atr.value * c.stopLimitOffsetAtr else 0.0;
    if p.side == Buy then seen[k].open < p.currentStop - room else seen[k].open > p.currentStop + room
  }

  /** Why, when and at which price the position left on bar `k`. */
  ghost predicate LeftOn(c: Config, seen: seq<Bar>, t: SimTrade, p: Position, e: int, k: int, price: real)
    requires Admissible(c) && 0 <= e <= k < |seen| && Warm(c, seen[..e])
  {
    match t.reason
    case SessionFlatten =>
      EndsSession(c, seen[k]) && t.exitTs == seen[k].ts - c.barSeconds && price == seen[k].open && !t.gapFallback
    case TrailStop =>
      && !EndsSession(c, seen[k]) && Overrun(c, seen, e, k, p)
      && t.exitTs == seen[k].ts
      && (t.gapFallback <==> GappedThrough(c, seen, k, p))
      && price == (if t.gapFallback then seen[k].open else p.currentStop)
    case DataEnd =>
      k == |seen| - 1 && Stays(c, seen, e, k, p) && t.exitTs == seen[k].ts && price == seen[k].close && !t.gapFallback
    case _ =>
      && !EndsSession(c, seen[k]) && !Overrun(c, seen, e, k, p) && Opposed(c, seen, k, p.side)
      && t.reason == (if p.side == Buy then CrossBelow else CrossAbove)
      && t.exitTs == seen[k].ts && price == seen[k].close && !t.gapFallback
  }

  /** A reported trade: opened on bar `e`, held through every bar before `k`, left on `k`, and its figures. */
  ghost predicate TradeStory(c: Config, seen: seq<Bar>, t: SimTrade, p: Position, e: int, k: int, price: real)
    requires Admissible(c)
  {
    && OpenedAt(c, seen, e, p) && e <= k < |seen|
    && (forall j :: e <= j < k ==> Stays(c, seen, e, j, p))
    && Peaks(seen, e, if t.reason == SessionFlatten then k else k + 1, p)
    && StopIs(c, seen, e, if t.reason == DataEnd then k + 1 else k, p)
    && LeftOn(c, seen, t, p, e, k, price)
    && Figures(c, t, p, price)
  }

  // ----- more bars do not change the story so far -----

  lemma FrontSame(seen: seq<Bar>, b: Bar, j: int)
    requires 0 <= j <= |seen|
    ensures (seen + [b])[..j] == seen[..j]
  {
  }

  lemma TrailLater(c: Config, seen: seq<Bar>, b: Bar, e: int, j: int, p: Position)
    requires Admissible(c) && 0 <= e <= j < |seen| && Warm(c, seen[..e])
    ensures Warm(c, (seen + [b])[..e])
    ensures TrailAt(c, seen + [b], e, j, p) == TrailAt(c, seen, e, j, p)
  {
    hide Ema, Atr, Closes;
    FrontSame(seen, b, e);
    FrontSame(seen, b, j + 1);
    assert forall k :: e <= k <= j ==> (seen + [b])[k] == seen[k];
  }

  lemma {:induction false} StopAfterLater(c: Config, seen: seq<Bar>, b: Bar, e: int, j: int, p: Position)
    requires Admissible(c) && 0 <= e <= j <= |seen| && Warm(c, seen[..e])
    ensures Warm(c, (seen + [b])[..e])
    ensures StopAfter(c, seen + [b], e, j, p) == StopAfter(c, seen, e, j, p)
    ensures Tightenings(c, seen + [b], e, j, p) == Tightenings(c, seen, e, j, p)
    decreases j
  {
    hide TrailAt;
    FrontSame(seen, b, e);
    if j > e {
      StopAfterLater(c, seen, b, e, j - 1, p);
      TrailLater(c, seen, b, e, j - 1, p);
    }
  }

  lemma OpenedLater(c: Config, seen: seq<Bar>, b: Bar, e: int, p: Position)
    requires Admissible(c) && OpenedAt(c, seen, e, p)
    ensures OpenedAt(c, seen + [b], e, p)
  {
    hide Confirmed, Aligned, RiskOf, Atr;
    FrontSame(seen, b, e);
  }

  lemma StaysLater(c: Config, seen: seq<Bar>, b: Bar, e: int, j: int, p: Position)
    requires Admissible(c) && 0 <= e <= j < |seen| && Warm(c, seen[..e])
    ensures Warm(c, (seen + [b])[..e])
    ensures Stays(c, seen + [b], e, j, p) == Stays(c, seen, e, j, p)
    ensures Overrun(c, seen + [b], e, j, p) == Overrun(c, seen, e, j, p)
    ensures Opposed(c, seen + [b], j, p.side) == Opposed(c, seen, j, p.side)
  {
    hide Confirmed, StopAfter, EndsSession;
    StopAfterLater(c, seen, b, e, j, p);
    FrontSame(seen, b, j + 1);
  }

  lemma PeaksLater(seen: seq<Bar>, b: Bar, e: int, n: int, p: Position)
    requires 0 <= e <= n <= |seen| && Peaks(seen, e, n, p)
    ensures Peaks(seen + [b], e, n, p)
  {
    var all := seen + [b];
    assert forall k :: 0 <= k < |seen| ==> all[k] == seen[k];
    if k :| e <= k < n && seen[k].high == p.highest {
      assert all[k].high == p.highest;
    }
    if k :| e <= k < n && seen[k].low == p.lowest {
      assert all[k].low == p.lowest;
    }
  }

  lemma StoryLater(c: Config, seen: seq<Bar>, b: Bar, t: SimTrade, p: Position, e: int, k: int, price: real)
    requires Admissible(c) && TradeStory(c, seen, t, p, e, k, price) && t.reason != DataEnd
    ensures TradeStory(c, seen + [b], t, p, e, k, price)
  {
    hide Figures, Stays, Overrun, Opposed, Peaks, StopAfter, Tightenings, OpenedAt, EndsSession, Atr;
    OpenedIndex(c, seen, e, p);
    OpenedLater(c, seen, b, e, p);
    FrontSame(seen, b, k);
    forall j | e <= j <= k ensures Stays(c, seen + [b], e, j, p) == Stays(c, seen, e, j, p) {
      StaysLater(c, seen, b, e, j, p);
    }
    StaysLater(c, seen, b, e, k, p);
    PeaksLater(seen, b, e, if t.reason == SessionFlatten then k else k + 1, p);
    StopAfterLater(c, seen, b, e, k, p);
    OpenedIndex(c, seen + [b], e, p);
  }

  lemma OpenedIndex(c: Config, seen: seq<Bar>, e: int, p: Position)
    requires Admissible(c) && OpenedAt(c, seen, e, p)
    ensures 0 < e < |seen| && Warm(c, seen[..e]) && p.risk > 0.0
  {
  }

  lemma SameTrail(c: Config, seen: seq<Bar>, e: int, j: int, p: Position, q: Position)
    requires Admissible(c) && 0 <= e <= j < |seen| && Warm(c, seen[..e])
    requires q.side == p.side && q.entry == p.entry && q.risk == p.risk
    ensures TrailAt(c, seen, e, j, q) == TrailAt(c, seen, e, j, p)
  {
    hide Ema, Atr, Closes;
    assert forall k :: e <= k <= j ==> Favour(q, BestOf(seen[k], q.side)) == Favour(p, BestOf(seen[k], p.side));
  }

  /** The levels speak of side, entry and risk alone. */
  lemma {:induction false} SameLevels(c: Config, seen: seq<Bar>, e: int, j: int, p: Position, q: Position)
    requires Admissible(c) && 0 <= e <= j <= |seen| && Warm(c, seen[..e])
    requires q.side == p.side && q.entry == p.entry && q.risk == p.risk
    ensures StopAfter(c, seen, e, j, q) == StopAfter(c, seen, e, j, p)
    ensures Tightenings(c, seen, e, j, q) == Tightenings(c, seen, e, j, p)
    decreases j
  {
    hide TrailAt;
    if j > e {
      SameLevels(c, seen, e, j - 1, p, q);
      SameTrail(c, seen, e, j - 1, p, q);
    }
  }
}
