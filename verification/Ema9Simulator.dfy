/** Whole runs of the EMA9 simulator: what is true of every trade, and the loop that produces them. */
module Ema9Simulator {
  import opened Prelude
  import opened Market
  import opened Smoothing
  import opened Indicators
  import opened Ema9Rules
  import opened Ema9Steps

  predicate Processes(c: Config, b: Bar) {
    !c.rthOnly || IsRth(b)
  }

  function Processed(c: Config, bars: seq<Bar>): seq<Bar> {
    if bars == [] then []
    else Processed(c, bars[..|bars| - 1]) + (if Processes(c, bars[|bars| - 1]) then [bars[|bars| - 1]] else [])
  }

  /** An opening price of zero or less could make the initial risk zero, and R undefined. */
  ghost predicate Priced(bars: seq<Bar>) {
    forall k :: 0 <= k < |bars| ==> bars[k].open > 0.0
  }

  /** Sane bars at positive prices, in order and at least one bar length apart. */
  ghost predicate Feedable(c: Config, bars: seq<Bar>) {
    && (forall k :: 0 <= k < |bars| ==> Sane(bars[k]) && bars[k].open > 0.0)
    && (forall j, k :: 0 <= j < k < |bars| ==> bars[j].ts <= OpenTs(c, bars[k]))
  }

  /** The loop's variables after some bars. */
  ghost function Run(c: Config, bars: seq<Bar>): (s: Sim)
    requires Admissible(c) && Priced(bars)
    ensures Risked(s) && s.seen == Processed(c, bars)
  {
    if bars == [] then START
    else
      var last := bars[|bars| - 1];
      var s := Run(c, bars[..|bars| - 1]);
      if !Processes(c, last) then s
      else
        StepTightens(c, s, last);
        StepBar(c, s, last)
  }

  /** On bars in order the invariant holds throughout. */
  lemma {:induction false} RunKeeps(c: Config, bars: seq<Bar>)
    requires Admissible(c) && Feedable(c, bars)
    ensures SimInv(c, Run(c, bars))
  {
    hide SimInv, StepBar, Processed;
    if bars == [] {
      StartKeeps(c);
    } else if Processes(c, bars[|bars| - 1]) {
      RunKeeps(c, bars[..|bars| - 1]);
      NextFollows(c, bars);
      StepKeeps(c, Run(c, bars[..|bars| - 1]), bars[|bars| - 1]);
    } else {
      RunKeeps(c, bars[..|bars| - 1]);
    }
  }

  lemma StartKeeps(c: Config)
    requires Admissible(c)
    ensures SimInv(c, START)
  {
  }

  lemma {:induction false} ProcessedFrom(c: Config, bars: seq<Bar>)
    ensures forall b :: b in Processed(c, bars) ==> b in bars
  {
    if bars != [] {
      ProcessedFrom(c, bars[..|bars| - 1]);
    }
  }

  lemma NextFollows(c: Config, bars: seq<Bar>)
    requires bars != [] && Feedable(c, bars)
    ensures Follows(c, Processed(c, bars[..|bars| - 1]), bars[|bars| - 1])
  {
    var front := bars[..|bars| - 1];
    var seen := Processed(c, front);
    ProcessedFrom(c, front);
    if seen != [] {
      assert seen[|seen| - 1] in front;
      var k :| 0 <= k < |front| && front[k] == seen[|seen| - 1];
      assert bars[k] == front[k];
    }
  }

  /** What the simulator reports: the closed trades, and an open position closed at the last close. */
  ghost function Simulate(c: Config, bars: seq<Bar>): seq<SimTrade>
    requires Admissible(c) && Priced(bars)
  {
    var s := Run(c, bars);
    s.trades + if s.position.Some? && s.seen != [] then [AtDataEnd(c, s)] else []
  }

  function AtDataEnd(c: Config, s: Sim): SimTrade
    requires s.position.Some? && Risked(s) && s.seen != []
  {
    var last := s.seen[|s.seen| - 1];
    CloseTrade(c, s.position.value, last.ts, last.close, DataEnd, false)
  }

  lemma SimulatedOk(c: Config, bars: seq<Bar>)
    requires Admissible(c) && Feedable(c, bars)
    ensures TradesOk(c, Simulate(c, bars), Processed(c, bars))
  {
    hide Run, Processed, Entered, TradesOk, TradeOk, CloseTrade, Covered, Warm;
    RunKeeps(c, bars);
    var s := Run(c, bars);
    if s.position.Some? && s.seen != [] {
      var last := s.seen[|s.seen| - 1];
      ClosedOk(c, s.position.value, s.seen, last.ts, last.close, DataEnd, false);
      TradeStamps(c, s.position.value, last.ts, last.close, DataEnd, false);
      TradesGrow(c, s.trades, AtDataEnd(c, s), s.seen);
    } else {
      assert s.trades + [] == s.trades;
    }
  }

  // ----- what is true of every run -----

  /**
   * Bounded loss: before anything is rounded, a trade loses more than its initial risk only if its
   * stop was gapped through, and is flagged so, or if the session was flattened at the open; every
   * trade leaves on a processed bar, at its stop or at that bar's open or close. The stop is never
   * wider at the end than at the start, an ungapped stop fills exactly at it, and crosses close only
   * the side they speak against; without permission for shorts every trade is a long.
   */
  lemma LossIsBounded(c: Config, bars: seq<Bar>)
    requires Admissible(c) && Feedable(c, bars)
    ensures forall t :: t in Simulate(c, bars) ==>
      && (exists p, price, k :: Exited(c, Processed(c, bars), t, p, price, k))
      && (t.grossR < -1.0 ==> t.gapFallback || t.reason.SessionFlatten?)
      && (t.gapFallback ==> t.reason.TrailStop?)
      && (t.reason.TrailStop? && !t.gapFallback ==> t.exit == t.finalStop)
      && (t.reason.CrossBelow? ==> t.side.Buy?) && (t.reason.CrossAbove? ==> t.side.Sell?)
      && (!c.allowShort ==> t.side.Buy?)
      && (if t.side.Buy? then t.finalStop >= t.initialStop else t.finalStop <= t.initialStop)
  {
    hide Simulate, Processed, Exited;
    SimulatedOk(c, bars);
  }

  /**
   * The stop never widens while a position is held: if two prefixes of the bars end with the same
   * position, its stop after the longer one is at least as tight, and all else about it is the same.
   */
  lemma {:induction false} StopNeverWidens(c: Config, bars: seq<Bar>, n: nat)
    requires Admissible(c) && Feedable(c, bars) && n <= |bars|
    ensures Priced(bars[..n])
    ensures var early, late := Run(c, bars[..n]).position, Run(c, bars).position;
      early.Some? && late.Some? && early.value.entryTs == late.value.entryTs ==> Tighter(early.value, late.value)
    decreases |bars|
  {
    hide Run, StepBar, Processed, InitialRisk;
    if n == |bars| {
      assert bars[..n] == bars;
    } else {
      var front, last := bars[..|bars| - 1], bars[|bars| - 1];
      assert front[..n] == bars[..n];
      StopNeverWidens(c, front, n);
      RunNext(c, bars);
      if Processes(c, last) {
        StepTightens(c, Run(c, front), last);
        EntriesBefore(c, bars, n);
      }
    }
  }

  lemma RunNext(c: Config, bars: seq<Bar>)
    requires Admissible(c) && Priced(bars) && bars != []
    ensures var s, b := Run(c, bars[..|bars| - 1]), bars[|bars| - 1];
      if !Processes(c, b) then Run(c, bars) == s
      else (s.pending.Some? ==> InitialRisk(c, b.open, s.pending.value.atr) > 0.0) && Run(c, bars) == StepBar(c, s, b)
  {
    hide StepBar, Processed;
  }

  /** What is held after a prefix was entered before the last bar opened. */
  lemma EntriesBefore(c: Config, bars: seq<Bar>, n: nat)
    requires Admissible(c) && Feedable(c, bars) && n < |bars|
    ensures Priced(bars[..n])
    ensures var p := Run(c, bars[..n]).position; p.Some? ==> p.value.entryTs < OpenTs(c, bars[|bars| - 1])
  {
    hide Run, Processed, TradesOk, Entered, StopSound, Sane;
    var front := bars[..n];
    RunKeeps(c, front);
    var seen := Run(c, front).seen;
    ProcessedFrom(c, front);
    if seen != [] {
      assert seen[|seen| - 1] in front;
      var k :| 0 <= k < |front| && front[k] == seen[|seen| - 1];
      assert bars[k] == front[k];
    }
  }

  /**
   * The trade was signalled by one processed bar, which confirmed a fresh cross to its side, and
   * entered at the open of the next.
   */
  ghost predicate EnteredNext(c: Config, seen: seq<Bar>, t: SimTrade, i: nat)
    requires Admissible(c)
  {
    && i < |seen| - 1
    && t.signalTs == seen[i].ts
    && t.entryTs == OpenTs(c, seen[i + 1])
    && t.entry == Round6(seen[i + 1].open)
    && Confirmed(c, seen[..i + 1], t.side)
  }

  /** No lookahead: a trade enters at the open of the processed bar right after its signal bar. */
  lemma EntryFollowsSignal(c: Config, bars: seq<Bar>)
    requires Admissible(c) && Feedable(c, bars)
    ensures forall t :: t in Simulate(c, bars) ==> exists i: nat :: EnteredNext(c, Processed(c, bars), t, i)
  {
    hide Simulate, Processed, Exited;
    SimulatedOk(c, bars);
    var seen := Processed(c, bars);
    forall t | t in Simulate(c, bars) ensures exists i: nat :: EnteredNext(c, seen, t, i) {
      var p, price, k :| Exited(c, seen, t, p, price, k);
      var i := ExitedWasEntered(c, seen, t, p, price, k);
    }
  }

  lemma ExitedWasEntered(c: Config, seen: seq<Bar>, t: SimTrade, p: Position, price: real, k: int) returns (i: nat)
    requires Admissible(c) && Exited(c, seen, t, p, price, k)
    ensures EnteredNext(c, seen, t, i)
  {
    hide Confirmed, StopSound, LeavesOn, Round6, InR;
    i :| 0 <= i < |seen| - 1 && FillsAt(c, seen, i, p.signalTs, p.entryTs, p.entry)
      && Confirmed(c, seen[..i + 1], p.side);
  }

  ghost predicate OneAtATime(ts: seq<SimTrade>) {
    forall j, k :: 0 <= j < k < |ts| ==> InTurn(ts[j], ts[k])
  }

  predicate InTurn(t: SimTrade, u: SimTrade) {
    t.entryTs <= t.exitTs <= u.entryTs <= u.exitTs
  }

  /** One position at a time: each trade is over when the next one is entered. */
  lemma TradesDoNotOverlap(c: Config, bars: seq<Bar>)
    requires Admissible(c) && Feedable(c, bars)
    ensures OneAtATime(Simulate(c, bars))
  {
    hide Simulate, Processed, TradesOk;
    SimulatedOk(c, bars);
    var ts := Simulate(c, bars);
    forall j, k | 0 <= j < k < |ts| ensures InTurn(ts[j], ts[k]) {
      ChainedTrades(c, ts, Processed(c, bars), j, k);
    }
  }

  lemma {:induction false} ChainedTrades(c: Config, ts: seq<SimTrade>, seen: seq<Bar>, j: nat, k: nat)
    requires Admissible(c) && TradesOk(c, ts, seen) && j < k < |ts|
    ensures InTurn(ts[j], ts[k])
    decreases k
  {
    hide Exited;
    if j < k - 1 {
      ChainedTrades(c, ts, seen, j, k - 1);
    }
  }

  /** An order never waits beside a position or a cooldown, and always stems from the last processed bar. */
  lemma PendingStandsAlone(c: Config, bars: seq<Bar>)
    requires Admissible(c) && Feedable(c, bars)
    ensures var s := Run(c, bars);
      s.pending.Some? ==>
        && s.position.None? && s.cooldown == 0 && s.seen != []
        && s.pending.value.signalTs == s.seen[|s.seen| - 1].ts
  {
    hide Run, TradesOk;
    RunKeeps(c, bars);
  }

  /** A position that has been far enough ahead cannot be stopped below its entry any more. */
  lemma GainsAreLocked(c: Config, bars: seq<Bar>)
    requires Admissible(c) && Feedable(c, bars)
    ensures Run(c, bars).position.Some? ==>
      var p := Run(c, bars).position.value;
      p.mfeR >= c.trailActivationR ==> if p.side.Buy? then p.currentStop >= p.entry else p.currentStop <= p.entry
  {
    hide Run, TradesOk;
    RunKeeps(c, bars);
  }

  /** A pending order is filled at the very next processed bar's open, or dropped there. */
  lemma PendingFillsOrDies(c: Config, bars: seq<Bar>, b: Bar)
    requires Admissible(c) && Feedable(c, bars + [b]) && Feedable(c, bars)
    ensures var s := Run(c, bars); var entered := Enter(c, s, b, false);
      s.pending.Some? && Processes(c, b) ==>
        if IsFlattenBar(c, b) then entered == s && Run(c, bars + [b]).pending.None?
        else entered.pending.None? && entered.position.Some? && entered.position.value.entry == b.open
             && s.seen != [] && entered.position.value.signalTs == s.seen[|s.seen| - 1].ts
  {
    hide Run, StepBar, Processed, TradesOk, CountsFresh, InitialRisk;
    assert (bars + [b])[..|bars|] == bars;
    RunKeeps(c, bars);
    RunNext(c, bars + [b]);
    if IsFlattenBar(c, b) && Processes(c, b) && Run(c, bars).pending.Some? {
      FlattenDropsOrder(c, Run(c, bars), b);
    }
  }

  lemma FlattenDropsOrder(c: Config, s: Sim, b: Bar)
    requires Admissible(c) && SimInv(c, s) && Risked(s) && s.pending.Some? && IsFlattenBar(c, b)
    requires InitialRisk(c, b.open, s.pending.value.atr) > 0.0
    ensures StepBar(c, s, b).pending.None?
  {
    hide TradesOk, Counts, Before, CrossOut, Ratchet, Arm, Ema;
  }

  /** The closed trades of a prefix are a prefix of the closed trades of the whole. */
  lemma {:induction false} PrefixStable(c: Config, bars: seq<Bar>, n: nat)
    requires Admissible(c) && Priced(bars) && n <= |bars|
    ensures Priced(bars[..n])
    ensures Run(c, bars[..n]).trades <= Run(c, bars).trades
    decreases |bars|
  {
    hide Run, StepBar, InitialRisk;
    if n == |bars| {
      assert bars[..n] == bars;
    } else {
      var front, last := bars[..|bars| - 1], bars[|bars| - 1];
      assert front[..n] == bars[..n];
      PrefixStable(c, front, n);
      RunNext(c, bars);
      if Processes(c, last) {
        StepOnlyAppends(c, Run(c, front), last);
      }
    }
  }

  lemma StepOnlyAppends(c: Config, s: Sim, b: Bar)
    requires Admissible(c) && Risked(s)
    requires s.pending.Some? ==> InitialRisk(c, b.open, s.pending.value.atr) > 0.0
    ensures s.trades <= StepBar(c, s, b).trades
  {
    hide ReadingOf, Counts, Before, Ratcheted, LongAllowed, ShortAllowed, IsFlattenBar, Ema, CloseTrade, Exposed,
      OpenPosition, StopTriggered, StopFill, Gapped, StopOffset;
    var cooling := s.cooldown > 0;
    var rested := s.(cooldown := if cooling then s.cooldown - 1 else 0);
    var entered := Enter(c, rested, b, cooling);
    EntryRisked(c, rested, b, cooling);
    var ready := FlattenOut(c, entered, b);
    var checked := StopOut(c, ready, b);
    StopRisked(c, ready, b);
    assert s.trades <= checked.trades;
    var quiet := cooling || (Stopped(ready, checked) && c.cooldownBars > 0);
    AtCloseOnlyAppends(c, checked, s.seen, b, quiet);
  }

  lemma EntryRisked(c: Config, s: Sim, b: Bar, cooling: bool)
    requires Risked(s) && (s.pending.Some? ==> InitialRisk(c, b.open, s.pending.value.atr) > 0.0)
    ensures Risked(Enter(c, s, b, cooling))
  {
  }

  lemma StopRisked(c: Config, s: Sim, b: Bar)
    requires Admissible(c) && Risked(s)
    ensures Risked(StopOut(c, s, b))
  {
  }

  lemma AtCloseOnlyAppends(c: Config, s: Sim, before: seq<Bar>, b: Bar, quiet: bool)
    requires Admissible(c) && Risked(s)
    ensures s.trades <= AtClose(c, s, before, b, quiet).trades
  {
    hide ReadingOf, Counts, Before, Ratcheted, LongAllowed, ShortAllowed, IsFlattenBar, Ema, CloseTrade;
  }

  /** So what was reported for a prefix stays reported, except a position closed for want of data. */
  lemma NoLookahead(c: Config, bars: seq<Bar>, n: nat)
    requires Admissible(c) && Priced(bars) && n <= |bars|
    ensures Priced(bars[..n])
    ensures var early, full := Simulate(c, bars[..n]), Simulate(c, bars);
      forall k :: 0 <= k < |early| ==> early[k].reason.DataEnd? || (k < |full| && full[k] == early[k])
  {
    hide Run;
    PrefixStable(c, bars, n);
  }

  // ----- the loop -----

  /** Fills a waiting order, or not. */
  method EnterPhase(c: Config, ghost s: Sim, b: Bar, position: Option<Position>, pending: Option<Order>, cooling: bool)
    returns (position': Option<Position>, pending': Option<Order>)
    requires s.position == position && s.pending == pending
    ensures Enter(c, s, b, cooling) == s.(position := position', pending := pending')
  {
    position', pending' := position, pending;
    if pending.Some? && position.None? && !IsFlattenBar(c, b) && !cooling {
      position', pending' := Some(OpenPosition(c, pending.value, b)), None;
    }
  }

  /** The session's end, then the stop: what a bar does to an open position before it closes. */
  method ExitPhase(c: Config, ghost s: Sim, b: Bar, atr: Option<real>, position: Option<Position>, cooldown: nat,
                   trades: seq<SimTrade>)
    returns (position': Option<Position>, cooldown': nat, trades': seq<SimTrade>, justStopped: bool)
    requires Admissible(c) && Risked(s) && s.position == position && s.cooldown == cooldown && s.trades == trades
    requires atr == Atr(s.seen, c.atrPeriod)
    ensures var ready := FlattenOut(c, s, b);
      && StopOut(c, ready, b) == s.(position := position', cooldown := cooldown', trades := trades')
      && justStopped == (Stopped(ready, StopOut(c, ready, b)) && c.cooldownBars > 0)
  {
    hide Atr, CloseTrade, Exposed, StopTriggered, StopFill, Gapped, IsFlattenBar;
    position', cooldown', trades', justStopped := position, cooldown, trades, false;
    if position.Some? && IsFlattenBar(c, b) {
      trades' := trades' + [CloseTrade(c, position.value, OpenTs(c, b), b.open, SessionFlatten, false)];
      position' := None;
    }
    if position'.Some? {
      var p := Exposed(position'.value, b);
      position' := Some(p);
      if StopTriggered(p, b) {
        ExposedSame(position.value, b);
        var offset := if atr.Some? then atr.value * c.stopLimitOffsetAtr else 0.0;
        var gap := Gapped(p, b, offset);
        trades' := trades' + [CloseTrade(c, p, b.ts, StopFill(p, b, offset), TrailStop, gap)];
        position', cooldown', justStopped := None, c.cooldownBars, c.cooldownBars > 0;
        assert FlattenOut(c, s, b) == s;
        assert offset == StopOffset(c, s.seen);
        assert StopOut(c, s, b).trades == trades';
        assert StopOut(c, s, b) == s.(position := position', cooldown := cooldown', trades := trades');
      } else {
        assert StopOut(c, s, b) == s.(position := position', cooldown := cooldown', trades := trades');
      }
    } else {
      assert StopOut(c, FlattenOut(c, s, b), b) == s.(position := position', cooldown := cooldown', trades := trades');
    }
  }

  /** Counts closes since a fresh cross. */
  method CountPhase(above: nat, below: nat, prevClose: Option<real>, prevEma: Option<real>, close: real, ema: real)
    returns (above': nat, below': nat)
    ensures (above', below') == Counts(above, below,
      if prevClose.Some? && prevEma.Some? then Some((prevClose.value, prevEma.value)) else None, close, ema)
  {
    var known := prevClose.Some? && prevEma.Some?;
    var upCross := known && prevClose.value <= prevEma.value && close > ema;
    var downCross := known && prevClose.value >= prevEma.value && close < ema;
    above', below' := above, below;
    if upCross {
      above', below' := above' + 1, 0;
    } else if close > ema {
      above' := if above' > 0 then above' + 1 else 0;
      below' := 0;
    } else if downCross {
      below' := below' + 1;
      above' := 0;
    } else if close < ema {
      below' := if below' > 0 then below' + 1 else 0;
      above' := 0;
    } else {
      above', below' := 0, 0;
    }
  }

  /** The reverse cross, the ratchet and the next order. */
  method ClosePhase(c: Config, ghost s: Sim, b: Bar, r: Reading, prev21: Option<real>, quiet: bool,
                    position: Option<Position>, pending: Option<Order>, above: nat, below: nat, trades: seq<SimTrade>)
    returns (position': Option<Position>, pending': Option<Order>, above': nat, below': nat, trades': seq<SimTrade>)
    requires Risked(s) && s.position == position && s.pending == pending && s.above == above && s.below == below
      && s.trades == trades
    ensures var held := Ratchet(c, CrossOut(c, s, b), r);
      var armed := if held.position.None? && !quiet then Arm(c, held, b, r, prev21) else held;
      armed.(pending := if IsFlattenBar(c, b) then None else armed.pending)
      == s.(position := position', pending := pending', above := above', below := below', trades := trades')
  {
    hide CloseTrade, Trail, LongAllowed, ShortAllowed, IsFlattenBar;
    position', pending', above', below', trades' := position, pending, above, below, trades;
    if position'.Some? {
      if position'.value.side.Buy? && below' >= c.confirmationBars {
        trades' := trades' + [CloseTrade(c, position'.value, b.ts, b.close, CrossBelow, false)];
        position' := None;
      } else if position'.value.side.Sell? && above' >= c.confirmationBars {
        trades' := trades' + [CloseTrade(c, position'.value, b.ts, b.close, CrossAbove, false)];
        position' := None;
      }
    }
    if position'.Some? {
      var p := position'.value;
      var candidate := Trail(c, p, r);
      if (if p.side.Buy? then candidate > p.currentStop else candidate < p.currentStop) {
        position' := Some(p.(currentStop := candidate, stopUpdates := p.stopUpdates + 1));
      }
    }
    if position'.None? && !quiet {
      if above' >= c.confirmationBars && LongAllowed(c, b.close, r.ema21, prev21) {
        pending', above' := Some(Order(Buy, b.ts, r.atr)), 0;
      } else if below' >= c.confirmationBars && c.allowShort && ShortAllowed(c, b.close, r.ema21, prev21) {
        pending', below' := Some(Order(Sell, b.ts, r.atr)), 0;
      } else if below' >= c.confirmationBars {
        pending' := None;
      }
    }
    if IsFlattenBar(c, b) {
      pending' := None;
    }
  }

  /** The indicators have seen exactly the processed bars. */
  ghost predicate Tracking(c: Config, seen: seq<Bar>, ema: EMA, ema21: EMA, atr: ATR)
    reads ema, ema.seed, ema21, ema21.seed, atr, atr.smoother
  {
    && ema.Valid() && ema.n == c.emaPeriod && ema.samples == Closes(seen)
    && ema21.Valid() && ema21.n == 21 && ema21.samples == Closes(seen)
    && atr.Valid() && atr.n == c.atrPeriod && atr.bars == seen
  }

  lemma TrackedValues(c: Config, seen: seq<Bar>, ema: EMA, ema21: EMA, atr: ATR)
    requires Admissible(c) && Tracking(c, seen, ema, ema21, atr)
    ensures ema.value == Ema(Closes(seen), c.emaPeriod) && ema21.value == Ema(Closes(seen), 21)
    ensures atr.value == Atr(seen, c.atrPeriod)
  {
  }

  method TrackBar(c: Config, ghost seen: seq<Bar>, b: Bar, ema: EMA, ema21: EMA, atr: ATR)
    requires Tracking(c, seen, ema, ema21, atr) && ema != ema21 && ema.seed != ema21.seed
    modifies ema, ema.seed, ema21, ema21.seed, atr, atr.smoother
    ensures Tracking(c, seen + [b], ema, ema21, atr)
  {
    hide EMA.Valid, ATR.Valid;
    assert Closes(seen + [b]) == Closes(seen) + [b.close];
    ema.Update(b.close);
    ema21.Update(b.close);
    atr.Update(b);
  }

  /** What one step makes of the loop's variables, phase by phase. */
  lemma StepInPhases(c: Config, s: Sim, b: Bar)
    requires Admissible(c) && Risked(s)
    requires s.pending.Some? ==> InitialRisk(c, b.open, s.pending.value.atr) > 0.0
    ensures var cooling := s.cooldown > 0; var rested := s.(cooldown := if cooling then s.cooldown - 1 else 0);
      var entered := Enter(c, rested, b, cooling);
      && Risked(entered)
      && var ready := FlattenOut(c, entered, b); var checked := StopOut(c, ready, b);
         var quiet := cooling || (Stopped(ready, checked) && c.cooldownBars > 0);
         && Risked(checked)
         && StepBar(c, s, b) == AtClose(c, checked, s.seen, b, quiet)
  {
    hide AtClose, StopOut, FlattenOut, Enter;
    var cooling := s.cooldown > 0;
    var rested := s.(cooldown := if cooling then s.cooldown - 1 else 0);
    EntryRisked(c, rested, b, cooling);
    var entered := Enter(c, rested, b, cooling);
    FlattenRisked(c, entered, b);
    StopRisked(c, FlattenOut(c, entered, b), b);
  }

  lemma FlattenRisked(c: Config, s: Sim, b: Bar)
    requires Risked(s)
    ensures Risked(FlattenOut(c, s, b))
  {
  }

  /** The end of a processed bar, once its averages are known. */
  lemma ClosedBar(c: Config, s: Sim, before: seq<Bar>, b: Bar, quiet: bool)
    requires Admissible(c) && Risked(s)
    ensures var seen := before + [b];
      var ema, ema21, atr := Ema(Closes(seen), c.emaPeriod), Ema(Closes(seen), 21), Atr(seen, c.atrPeriod);
      if ema.None? || ema21.None? || atr.None? then AtClose(c, s, before, b, quiet) == s.(seen := seen)
      else
        var r := Reading(ema.value, ema21.value, atr.value);
        var counts := Counts(s.above, s.below, Before(c, before), b.close, r.ema);
        var counted := s.(above := counts.0, below := counts.1);
        Risked(counted) &&
        var held := Ratchet(c, CrossOut(c, counted, b), r);
        var armed := if held.position.None? && !quiet then Arm(c, held, b, r, Ema(Closes(before), 21)) else held;
        AtClose(c, s, before, b, quiet)
          == armed.(pending := if IsFlattenBar(c, b) then None else armed.pending).(seen := seen)
  {
    hide Ema, Atr, Closes, Counts, Before, CrossOut, Ratchet, Arm, IsFlattenBar;
  }

  /** A bar up to its close. */
  method OpenPhases(c: Config, ghost s: Sim, b: Bar, atr: Option<real>,
                    position: Option<Position>, pending: Option<Order>, cooldown: nat, trades: seq<SimTrade>)
    returns (position': Option<Position>, pending': Option<Order>, cooldown': nat, trades': seq<SimTrade>, quiet: bool)
    requires Admissible(c) && Risked(s) && (s.pending.Some? ==> InitialRisk(c, b.open, s.pending.value.atr) > 0.0)
    requires s.position == position && s.pending == pending && s.cooldown == cooldown && s.trades == trades
    requires atr == Atr(s.seen, c.atrPeriod)
    ensures var checked := s.(position := position', pending := pending', cooldown := cooldown', trades := trades');
      Risked(checked) && StepBar(c, s, b) == AtClose(c, checked, s.seen, b, quiet)
  {
    hide Enter, FlattenOut, StopOut, AtClose, StepBar, Atr, Risked, InitialRisk, Admissible;
    StepInPhases(c, s, b);
    cooldown' := cooldown;
    var cooling := cooldown' > 0;
    if cooling {
      cooldown' := cooldown' - 1;
    }
    ghost var rested := s.(cooldown := cooldown');
    position', pending' := EnterPhase(c, rested, b, position, pending, cooling);
    ghost var entered := rested.(position := position', pending := pending');
    var justStopped;
    position', cooldown', trades', justStopped := ExitPhase(c, entered, b, atr, position', cooldown', trades);
    quiet := cooling || justStopped;
  }

  /** A bar from its close on. */
  method ClosingPhases(c: Config, ghost s: Sim, ghost before: seq<Bar>, b: Bar, quiet: bool,
                       ema: Option<real>, ema21: Option<real>, atr: Option<real>,
                       prevClose: Option<real>, prevEma: Option<real>, prevEma21: Option<real>,
                       position: Option<Position>, pending: Option<Order>, above: nat, below: nat,
                       trades: seq<SimTrade>)
    returns (position': Option<Position>, pending': Option<Order>, above': nat, below': nat, trades': seq<SimTrade>)
    requires Admissible(c) && Risked(s) && Remembers(c, before, prevClose, prevEma, prevEma21)
    requires s.position == position && s.pending == pending && s.above == above && s.below == below
      && s.trades == trades
    requires ema == Ema(Closes(before + [b]), c.emaPeriod) && ema21 == Ema(Closes(before + [b]), 21)
    requires atr == Atr(before + [b], c.atrPeriod)
    ensures AtClose(c, s, before, b, quiet) == s.(
      position := position', pending := pending', above := above', below := below', trades := trades',
      seen := before + [b])
  {
    hide AtClose, Ema, Atr, Closes, Risked, Admissible, Counts, Before, CrossOut, Ratchet, Arm, IsFlattenBar, Remembers;
    position', pending', above', below', trades' := position, pending, above, below, trades;
    ClosedBar(c, s, before, b, quiet);
    if ema.Some? && ema21.Some? && atr.Some? {
      RememberedCross(c, before, prevClose, prevEma, prevEma21);
      above', below' := CountPhase(above, below, prevClose, prevEma, b.close, ema.value);
      position', pending', above', below', trades' := ClosePhase(
        c, s.(above := above', below := below'), b, Reading(ema.value, ema21.value, atr.value), prevEma21, quiet,
        position, pending, above', below', trades);
    }
  }

  method NewIndicators(c: Config) returns (ema: EMA, ema21: EMA, atr: ATR)
    requires Admissible(c)
    ensures Tracking(c, [], ema, ema21, atr) && ema != ema21 && ema.seed != ema21.seed
    ensures fresh(ema) && fresh(ema.seed) && fresh(ema21) && fresh(ema21.seed) && fresh(atr) && fresh(atr.smoother)
  {
    hide EMA.Valid, ATR.Valid;
    ema := new EMA(c.emaPeriod);
    ema21 := new EMA(21);
    atr := new ATR(c.atrPeriod);
  }

  /** One symbol's bars, sorted by their close and then run through the loop. */
  method SimulateSymbol(c: Config, bars: seq<Bar>) returns (trades: seq<SimTrade>)
    requires Admissible(c) && Priced(bars)
    ensures Priced(ByTime(bars)) && trades == Simulate(c, ByTime(bars))
  {
    PricedByTime(bars);
    trades := SimulateOrdered(c, ByTime(bars));
  }

  method SimulateOrdered(c: Config, ordered: seq<Bar>) returns (trades: seq<SimTrade>)
    requires Admissible(c) && Priced(ordered)
    ensures trades == Simulate(c, ordered)
  {
    hide *;
    var ema, ema21, atr := NewIndicators(c);
    trades := [];
    var position: Option<Position>, pending: Option<Order> := None, None;
    var cooldown, above, below := 0, 0, 0;
    var prevClose: Option<real>, prevEma: Option<real>, prevEma21: Option<real> := None, None, None;
    var last: Option<Bar> := None;
    ghost var s := START;
    Begins(c, ordered);
    for k := 0 to |ordered|
      invariant Priced(ordered[..k]) && s == Run(c, ordered[..k])
      invariant s == Sim(s.seen, position, pending, cooldown, above, below, trades)
      invariant fresh(ema) && fresh(ema.seed) && fresh(ema21) && fresh(ema21.seed) && fresh(atr) && fresh(atr.smoother)
      invariant Tracking(c, s.seen, ema, ema21, atr)
      invariant Remembers(c, s.seen, prevClose, prevEma, prevEma21)
      invariant last == Previous(s.seen)
    {
      var b := ordered[k];
      RunStep(c, ordered, k);
      if Processes(c, b) {
        last := Some(b);
        TrackedValues(c, s.seen, ema, ema21, atr);
        var quiet;
        position, pending, cooldown, trades, quiet := OpenPhases(
          c, s, b, atr.value, position, pending, cooldown, trades);
        ghost var checked := s.(position := position, pending := pending, cooldown := cooldown, trades := trades);
        TrackBar(c, s.seen, b, ema, ema21, atr);
        TrackedValues(c, s.seen + [b], ema, ema21, atr);
        position, pending, above, below, trades := ClosingPhases(
          c, checked, s.seen, b, quiet, ema.value, ema21.value, atr.value, prevClose, prevEma, prevEma21,
          position, pending, above, below, trades);
        prevClose, prevEma, prevEma21 := Some(b.close), ema.value, ema21.value;
        Remembered(c, s.seen, b, prevClose, prevEma, prevEma21);
        s := StepBar(c, s, b);
      }
    }
    assert ordered[..|ordered|] == ordered;
    Ends(c, ordered);
    if position.Some? && last.Some? {
      trades := trades + [CloseTrade(c, position.value, last.value.ts, last.value.close, DataEnd, false)];
    }
  }

  /** The previous close and averages, as the loop carries them along. */
  ghost predicate Remembers(c: Config, seen: seq<Bar>, prevClose: Option<real>, prevEma: Option<real>,
                            prevEma21: Option<real>)
    requires Admissible(c)
  {
    && prevClose == (if seen == [] then None else Some(seen[|seen| - 1].close))
    && prevEma == Ema(Closes(seen), c.emaPeriod)
    && prevEma21 == Ema(Closes(seen), 21)
  }

  lemma RememberedCross(c: Config, seen: seq<Bar>, prevClose: Option<real>, prevEma: Option<real>,
                        prevEma21: Option<real>)
    requires Admissible(c) && Remembers(c, seen, prevClose, prevEma, prevEma21)
    ensures Before(c, seen) == if prevClose.Some? && prevEma.Some? then Some((prevClose.value, prevEma.value)) else None
    ensures prevEma21 == Ema(Closes(seen), 21)
  {
    hide Ema;
  }

  lemma Remembered(c: Config, before: seq<Bar>, b: Bar, prevClose: Option<real>, prevEma: Option<real>,
                   prevEma21: Option<real>)
    requires Admissible(c) && prevClose == Some(b.close)
    requires prevEma == Ema(Closes(before + [b]), c.emaPeriod) && prevEma21 == Ema(Closes(before + [b]), 21)
    ensures Remembers(c, before + [b], prevClose, prevEma, prevEma21)
    ensures Previous(before + [b]) == Some(b)
  {
    hide Ema, Closes;
  }

  lemma PricedByTime(bars: seq<Bar>)
    requires Priced(bars)
    ensures Priced(ByTime(bars))
  {
    var ordered := ByTime(bars);
    ByTimePermutes(bars);
    forall k | 0 <= k < |ordered| ensures ordered[k].open > 0.0 {
      assert ordered[k] in multiset(ordered);
      assert ordered[k] in bars;
    }
  }

  lemma Begins(c: Config, bars: seq<Bar>)
    requires Admissible(c)
    ensures Priced(bars[..0]) && Run(c, bars[..0]) == START && START.seen == [] && Closes([]) == []
    ensures Remembers(c, [], None, None, None) && Previous([]) == None
    ensures START == Sim([], None, None, 0, 0, 0, [])
  {
    assert bars[..0] == [];
  }

  lemma RunStep(c: Config, bars: seq<Bar>, k: nat)
    requires Admissible(c) && Priced(bars) && k < |bars|
    ensures Priced(bars[..k]) && Priced(bars[..k + 1])
    ensures var s := Run(c, bars[..k]); var b := bars[k];
      if !Processes(c, b) then Run(c, bars[..k + 1]) == s
      else
        && Risked(s) && (s.pending.Some? ==> InitialRisk(c, b.open, s.pending.value.atr) > 0.0)
        && Run(c, bars[..k + 1]) == StepBar(c, s, b)
  {
    hide Run, StepBar, InitialRisk, Processed;
    assert bars[..k + 1][..k] == bars[..k];
    RunNext(c, bars[..k + 1]);
  }

  lemma Ends(c: Config, bars: seq<Bar>)
    requires Admissible(c) && Priced(bars)
    ensures var s := Run(c, bars); var last := Previous(s.seen);
      && (s.position.Some? ==> s.position.value.risk > 0.0)
      && Simulate(c, bars) == s.trades
        + (if s.position.Some? && last.Some?
           then [CloseTrade(c, s.position.value, last.value.ts, last.value.close, DataEnd, false)]
           else [])
  {
    hide Run, TradesOk;
  }
}
