/** When the simulator places an order, and how long it keeps quiet after a stop. */
module Ema9Orders {
  import opened Prelude
  import opened Market
  import opened Smoothing
  import opened Indicators
  import opened Ema9Rules
  import opened Ema9Steps
  import opened Ema9Simulator
  import opened Ema9Stories
  import opened Ema9Told

  /** Regular hours: after 09:30 and up to 16:00, if only those are asked for. */
  predicate InHours(c: Config, b: Bar) {
    c.rthOnly ==> 0 < b.elapsed <= 6 * 3600 + 30 * 60
  }

  /** The bars processed are those of regular hours, in order. */
  lemma {:induction false} ProcessedAre(c: Config, bars: seq<Bar>)
    ensures forall b :: b in Processed(c, bars) <==> b in bars && InHours(c, b)
    ensures bars != [] ==>
      Processed(c, bars) == Processed(c, bars[..|bars| - 1])
        + if InHours(c, bars[|bars| - 1]) then [bars[|bars| - 1]] else []
  {
    if bars != [] {
      ProcessedAre(c, bars[..|bars| - 1]);
    }
  }

  // ----- the counters, close by close -----

  /** The close before, on the wrong side of its average or on it. */
  predicate WasNotBeyond(c: Config, before: seq<Bar>, side: Side)
    requires Admissible(c)
  {
    && before != []
    && var ema := Ema(Closes(before), c.emaPeriod);
    && ema.Some?
    && if side == Buy then before[|before| - 1].close <= ema.value else before[|before| - 1].close >= ema.value
  }

  predicate IsBeyond(close: real, ema: real, side: Side) {
    if side == Buy then close > ema else close < ema
  }

  /** A run of closes beyond the average starts on a fresh cross, goes on, or ends. */
  function NextCount(c: Config, before: seq<Bar>, close: real, ema: real, count: nat, side: Side): nat
    requires Admissible(c)
  {
    if !IsBeyond(close, ema, side) then 0
    else if count > 0 || WasNotBeyond(c, before, side) then count + 1
    else 0
  }

  lemma CountsAre(c: Config, before: seq<Bar>, above: nat, below: nat, close: real, ema: real)
    requires Admissible(c)
    ensures Counts(above, below, Before(c, before), close, ema)
      == (NextCount(c, before, close, ema, above, Buy), NextCount(c, before, close, ema, below, Sell))
  {
    hide Ema;
  }

  // ----- orders -----

  /** The bar belongs to a pause: one that was running, or one that a stop on this bar began. */
  predicate Quiet(c: Config, s: Sim, stopped: bool) {
    s.cooldown > 0 || (stopped && c.cooldownBars > 0)
  }

  /** The stop ended a position on the bar. */
  predicate StoppedOn(s: Sim, u: Sim) {
    |u.trades| > |s.trades| && u.trades[|u.trades| - 1].reason == TrailStop
  }

  /** What is waiting and counted after the bar, given what was and whether the bar was quiet. */
  predicate OrdersAre(c: Config, s: Sim, b: Bar, u: Sim, quiet: bool)
    requires Admissible(c)
  {
    var seen := s.seen + [b];
    && u.seen == seen
    && (!Warm(c, seen) ==> u.pending == None && u.above == s.above && u.below == s.below)
    && (Warm(c, seen) ==>
          var ema := Ema(Closes(seen), c.emaPeriod).value;
          var above := NextCount(c, s.seen, b.close, ema, s.above, Buy);
          var below := NextCount(c, s.seen, b.close, ema, s.below, Sell);
          var free := u.position == None && !quiet;
          var long := free && above >= c.confirmationBars && Aligned(c, seen, Buy);
          var short := free && !long && below >= c.confirmationBars && c.allowShort && Aligned(c, seen, Sell);
          && (u.pending.Some? <==> (long || short) && !EndsSession(c, b))
          && (u.pending.Some? ==>
                && u.pending.value.side == (if long then Buy else Sell) && u.pending.value.signalTs == b.ts
                && Some(u.pending.value.atr) == Atr(seen, c.atrPeriod))
          && u.above == (if long then 0 else above) && u.below == (if short then 0 else below))
  }

  lemma AlignedIs(c: Config, before: seq<Bar>, b: Bar, ema21: real)
    requires Admissible(c) && Ema(Closes(before + [b]), 21) == Some(ema21)
    ensures LongAllowed(c, b.close, ema21, Ema(Closes(before), 21)) <==> Aligned(c, before + [b], Buy)
    ensures ShortAllowed(c, b.close, ema21, Ema(Closes(before), 21)) <==> Aligned(c, before + [b], Sell)
  {
    hide Ema, Closes;
    assert (before + [b])[..|before + [b]| - 1] == before;
  }

  lemma CloseOrders(c: Config, s: Sim, before: seq<Bar>, b: Bar, quiet: bool)
    requires Admissible(c) && Risked(s) && s.seen == before
    requires s.pending.Some? ==> IsFlattenBar(c, b) && Warm(c, before + [b])
    ensures OrdersAre(c, s, b, AtClose(c, s, before, b, quiet), quiet)
  {
    hide Ema, Atr, Closes, Before, Counts, NextCount, LongAllowed, ShortAllowed, Aligned, EndsSession, IsFlattenBar,
      CloseTrade, Ratcheted;
    FlattenIsEnd(c, b);
    var seen := before + [b];
    ReadingIs(c, seen);
    match ReadingOf(c, seen) {
      case None =>
      case Some(r) =>
        CountsAre(c, before, s.above, s.below, b.close, r.ema);
        AlignedIs(c, before, b, r.ema21);
    }
  }

  /** Leaving before the close grows the trades by at most one, and a stop by exactly its own. */
  lemma OutTrades(c: Config, s: Sim, b: Bar)
    requires Admissible(c) && Risked(s)
    ensures var ready := FlattenOut(c, s, b);
      && Risked(ready) && s.trades <= ready.trades && ready.cooldown == s.cooldown
      && (ready.trades != s.trades ==>
            ready.position.None? && ready.trades[|ready.trades| - 1].reason == SessionFlatten)
      && var u := StopOut(c, ready, b);
      && (Stopped(ready, u) ==>
            |u.trades| == |ready.trades| + 1 && u.trades[|u.trades| - 1].reason == TrailStop && u.position == None)
      && (!Stopped(ready, u) ==> u.trades == ready.trades)
      && u.cooldown == (if Stopped(ready, u) then c.cooldownBars else s.cooldown)
  {
    hide IsFlattenBar, Atr;
  }

  lemma CloseTrades(c: Config, s: Sim, before: seq<Bar>, b: Bar, quiet: bool)
    requires Admissible(c) && Risked(s)
    ensures var u := AtClose(c, s, before, b, quiet);
      && u.cooldown == s.cooldown
      && (s.position == None ==> u.trades == s.trades)
      && (u.trades != s.trades ==>
            |u.trades| == |s.trades| + 1 && u.trades[|u.trades| - 1].reason in {CrossBelow, CrossAbove})
  {
    hide ReadingOf, Counts, Before, Ratcheted, LongAllowed, ShortAllowed, IsFlattenBar, Ema;
  }

  lemma StepOrders(c: Config, s: Sim, b: Bar)
    requires Admissible(c) && SimInv(c, s) && Follows(c, s.seen, b)
    ensures Risked(s) && (s.pending.Some? ==> InitialRisk(c, b.open, s.pending.value.atr) > 0.0)
    ensures var u := StepBar(c, s, b);
      && OrdersAre(c, s, b, u, Quiet(c, s, StoppedOn(s, u)))
      && u.cooldown == (if StoppedOn(s, u) then c.cooldownBars else if s.cooldown > 0 then s.cooldown - 1 else 0)
  {
    hide SimInv, Enter, FlattenOut, StopOut, AtClose, Risked, InitialRisk, IsFlattenBar, Warm, OrdersAre, Stopped;
    OrderIsRisky(c, s, b);
    StepInPhases(c, s, b);
    var cooling := s.cooldown > 0;
    var rested := s.(cooldown := if cooling then s.cooldown - 1 else 0);
    var entered := Enter(c, rested, b, cooling);
    EnterKeepsRest(c, s, b);
    OutTrades(c, entered, b);
    OutsKeep(c, entered, b);
    var ready := FlattenOut(c, entered, b);
    OutsKeep(c, ready, b);
    var checked := StopOut(c, ready, b);
    var quiet := cooling || (Stopped(ready, checked) && c.cooldownBars > 0);
    CloseTrades(c, checked, s.seen, b, quiet);
    PendingWarm(c, s, b);
    CloseOrders(c, checked, s.seen, b, quiet);
    SameOrders(c, checked, s, b, StepBar(c, s, b), quiet);
  }

  lemma EnterKeepsRest(c: Config, s: Sim, b: Bar)
    requires Admissible(c) && SimInv(c, s)
    ensures var cooling := s.cooldown > 0; var rested := s.(cooldown := if cooling then s.cooldown - 1 else 0);
      var u := Enter(c, rested, b, cooling);
      && u.above == s.above && u.below == s.below && u.seen == s.seen && u.trades == s.trades
      && u.cooldown == rested.cooldown
      && (u.pending.Some? ==> s.pending.Some? && IsFlattenBar(c, b))
  {
    hide TradesOk, CountsFresh, IsFlattenBar;
  }

  lemma SameOrders(c: Config, s: Sim, t: Sim, b: Bar, u: Sim, quiet: bool)
    requires Admissible(c) && OrdersAre(c, s, b, u, quiet)
    requires t.seen == s.seen && t.above == s.above && t.below == s.below
    ensures OrdersAre(c, t, b, u, quiet)
  {
    hide Ema, Atr, Closes, NextCount, Aligned, EndsSession, Warm;
  }

  /**
   * After a processed bar an order is waiting exactly if nothing is held, no pause runs, the bar does
   * not end the session, and enough closes since a fresh cross are confirmed and aligned: a long one
   * if they are above the average, and else a short one if shorts are allowed. A stop begins a pause
   * of as many bars as configured.
   */
  lemma OrderPlaced(c: Config, bars: seq<Bar>, b: Bar)
    requires Admissible(c) && Feedable(c, bars + [b]) && Feedable(c, bars) && InHours(c, b)
    ensures var s, u := Run(c, bars), Run(c, bars + [b]);
      && OrdersAre(c, s, b, u, Quiet(c, s, StoppedOn(s, u)))
      && u.cooldown == (if StoppedOn(s, u) then c.cooldownBars else if s.cooldown > 0 then s.cooldown - 1 else 0)
  {
    hide Run, StepBar, Processed, InitialRisk, OrdersAre;
    assert (bars + [b])[..|bars|] == bars;
    RunKeeps(c, bars);
    RunNext(c, bars + [b]);
    NextFollows(c, bars + [b]);
    StepOrders(c, Run(c, bars), b);
  }
}
