/** What every bar keeps in the EMA9 simulator, phase by phase. */
module Ema9Steps {
  import opened Prelude
  import opened Market
  import opened Smoothing
  import opened Indicators
  import opened Ema9Rules
  import Rounding

  predicate Warm(c: Config, seen: seq<Bar>) {
    |seen| >= c.emaPeriod && |seen| >= 21 && |seen| >= c.atrPeriod
  }

  /** A completed close on the side's own side of its average. */
  predicate Beyond(c: Config, seen: seq<Bar>, side: Side, m: nat)
    requires Admissible(c) && m < |seen|
  {
    var ema := Ema(Closes(seen[..m + 1]), c.emaPeriod);
    ema.Some? && if side.Buy? then seen[m].close > ema.value else seen[m].close < ema.value
  }

  predicate NotBeyond(c: Config, seen: seq<Bar>, side: Side, m: nat)
    requires Admissible(c) && m < |seen|
  {
    var ema := Ema(Closes(seen[..m + 1]), c.emaPeriod);
    ema.Some? && if side.Buy? then seen[m].close <= ema.value else seen[m].close >= ema.value
  }

  /** A fresh cross `n` bars ago, and every close since beyond the average. */
  ghost predicate Crossed(c: Config, seen: seq<Bar>, side: Side, n: nat)
    requires Admissible(c)
  {
    && 0 < n < |seen|
    && (forall m :: |seen| - n <= m < |seen| ==> Beyond(c, seen, side, m))
    && NotBeyond(c, seen, side, |seen| - n - 1)
  }

  /** Enough closes since a fresh cross. */
  ghost predicate Confirmed(c: Config, seen: seq<Bar>, side: Side)
    requires Admissible(c)
  {
    exists n: nat :: n >= c.confirmationBars && Crossed(c, seen, side, n)
  }

  /** Entered at the open of the bar right after a signal bar that confirmed a fresh cross. */
  ghost predicate Entered(c: Config, seen: seq<Bar>, side: Side, signalTs: int, entryTs: int, entry: real)
    requires Admissible(c)
  {
    exists i :: 0 <= i < |seen| - 1 && FillsAt(c, seen, i, signalTs, entryTs, entry)
      && Confirmed(c, seen[..i + 1], side)
  }

  predicate FillsAt(c: Config, seen: seq<Bar>, i: nat, signalTs: int, entryTs: int, entry: real)
    requires i < |seen| - 1
  {
    signalTs == seen[i].ts && entryTs == OpenTs(c, seen[i + 1]) && entry == seen[i + 1].open
  }

  /** The stop starts one risk away and has only ever moved in the position's favour. */
  predicate StopSound(p: Position) {
    && p.risk > 0.0
    && if p.side.Buy? then p.initialStop == p.entry - p.risk && p.currentStop >= p.initialStop
       else p.initialStop == p.entry + p.risk && p.currentStop <= p.initialStop
  }

  /** Shorts only where the configuration asks for them. */
  predicate Permitted(c: Config, side: Side) {
    side.Sell? ==> c.allowShort
  }

  /** Once the best excursion reaches the activation level, the stop is at the entry or better. */
  predicate Locked(c: Config, p: Position) {
    p.mfeR >= c.trailActivationR ==> if p.side.Buy? then p.currentStop >= p.entry else p.currentStop <= p.entry
  }

  /** A cross exits only the side it speaks against. */
  predicate ReasonFits(reason: ExitReason, side: Side) {
    (reason.CrossBelow? ==> side.Buy?) && (reason.CrossAbove? ==> side.Sell?)
  }

  ghost predicate PositionOk(c: Config, p: Position, seen: seq<Bar>)
    requires Admissible(c)
  {
    && StopSound(p)
    && Permitted(c, p.side)
    && Entered(c, seen, p.side, p.signalTs, p.entryTs, p.entry)
    && seen != [] && p.entryTs <= OpenTs(c, seen[|seen| - 1])
  }

  /** Where and when a position leaves on a bar: at its stop, or at the bar's open or close. */
  predicate LeavesOn(c: Config, b: Bar, p: Position, exitTs: int, price: real, reason: ExitReason, gap: bool) {
    match reason
    case SessionFlatten => exitTs == OpenTs(c, b) && price == b.open && !gap
    case TrailStop => exitTs == b.ts && price == if gap then b.open else p.currentStop
    case _ => exitTs == b.ts && price == b.close && !gap
  }

  /**
   * The trade is what closing a position on one of the bars gives; before anything is rounded, it
   * lost more than its initial risk only if its stop was gapped through or the session flattened.
   */
  ghost predicate Exited(c: Config, seen: seq<Bar>, t: SimTrade, p: Position, price: real, k: int)
    requires Admissible(c)
  {
    && 0 <= k < |seen| && StopSound(p)
    && Entered(c, seen, p.side, p.signalTs, p.entryTs, p.entry)
    && LeavesOn(c, seen[k], p, t.exitTs, price, t.reason, t.gapFallback)
    && t == CloseTrade(c, p, t.exitTs, price, t.reason, t.gapFallback)
    && (InR(Gain(p, price), p.risk) < -1.0 ==> t.gapFallback || t.reason.SessionFlatten?)
  }

  ghost predicate TradeOk(c: Config, t: SimTrade, seen: seq<Bar>)
    requires Admissible(c)
  {
    && (t.grossR < -1.0 ==> t.gapFallback || t.reason.SessionFlatten?)
    && (t.gapFallback ==> t.reason.TrailStop?)
    && (t.reason.TrailStop? && !t.gapFallback ==> t.exit == t.finalStop)
    && Permitted(c, t.side) && ReasonFits(t.reason, t.side)
    && (if t.side.Buy? then t.finalStop >= t.initialStop else t.finalStop <= t.initialStop)
    && t.entryTs <= t.exitTs
    && exists p, price, k :: Exited(c, seen, t, p, price, k)
  }

  ghost predicate TradesOk(c: Config, ts: seq<SimTrade>, seen: seq<Bar>)
    requires Admissible(c)
  {
    && (forall k :: 0 <= k < |ts| ==> TradeOk(c, ts[k], seen))
    && (forall k :: 0 <= k < |ts| - 1 ==> ts[k].exitTs <= ts[k + 1].entryTs)
  }

  /** The last trade is over by some instant. */
  predicate OverBy(ts: seq<SimTrade>, when: int) {
    ts != [] ==> ts[|ts| - 1].exitTs <= when
  }

  /** A position that survived the bar closes no worse than its initial risk. */
  predicate Covered(p: Position, close: real) {
    Gain(p, close) >= -p.risk
  }

  ghost predicate SimInv(c: Config, s: Sim)
    requires Admissible(c)
  {
    && CountsFresh(c, s.seen, s.above, s.below)
    && (s.position.Some? ==>
          && PositionOk(c, s.position.value, s.seen) && Warm(c, s.seen) && Locked(c, s.position.value)
          && Covered(s.position.value, s.seen[|s.seen| - 1].close)
          && OverBy(s.trades, s.position.value.entryTs))
    && (s.pending.Some? ==>
          && s.position.None? && s.cooldown == 0 && Warm(c, s.seen) && s.seen != []
          && Permitted(c, s.pending.value.side) && Confirmed(c, s.seen, s.pending.value.side)
          && s.pending.value.signalTs == s.seen[|s.seen| - 1].ts)
    && TradesOk(c, s.trades, s.seen)
    && (s.seen == [] ==> s.trades == [])
    && (s.seen != [] ==> OverBy(s.trades, s.seen[|s.seen| - 1].ts))
  }

  /** The counters stand for fresh crosses, and start only once the averages are warm. */
  ghost predicate CountsFresh(c: Config, seen: seq<Bar>, above: nat, below: nat)
    requires Admissible(c)
  {
    && (above > 0 ==> Warm(c, seen) && Crossed(c, seen, Buy, above))
    && (below > 0 ==> Warm(c, seen) && Crossed(c, seen, Sell, below))
  }

  /** A bar that may follow those already processed. */
  predicate Follows(c: Config, seen: seq<Bar>, b: Bar) {
    Sane(b) && b.open > 0.0 && (seen != [] ==> seen[|seen| - 1].ts <= OpenTs(c, b))
  }

  // ----- closing a trade -----

  lemma EnteredLater(c: Config, seen: seq<Bar>, b: Bar, side: Side, signalTs: int, entryTs: int, entry: real)
    requires Admissible(c) && Entered(c, seen, side, signalTs, entryTs, entry)
    ensures Entered(c, seen + [b], side, signalTs, entryTs, entry)
  {
    hide Confirmed;
    var i :| 0 <= i < |seen| - 1 && FillsAt(c, seen, i, signalTs, entryTs, entry) && Confirmed(c, seen[..i + 1], side);
    assert FillsAt(c, seen + [b], i, signalTs, entryTs, entry);
    assert (seen + [b])[..i + 1] == seen[..i + 1];
  }

  lemma ExitedLater(c: Config, seen: seq<Bar>, b: Bar, t: SimTrade, p: Position, price: real, k: int)
    requires Admissible(c) && Exited(c, seen, t, p, price, k)
    ensures Exited(c, seen + [b], t, p, price, k)
  {
    hide Entered, CloseTrade, LeavesOn;
    EnteredLater(c, seen, b, p.side, p.signalTs, p.entryTs, p.entry);
  }

  lemma TradesLater(c: Config, ts: seq<SimTrade>, seen: seq<Bar>, b: Bar)
    requires Admissible(c) && TradesOk(c, ts, seen)
    ensures TradesOk(c, ts, seen + [b])
  {
    hide Exited;
    forall k | 0 <= k < |ts| ensures TradeOk(c, ts[k], seen + [b]) {
      assert TradeOk(c, ts[k], seen);
      var p, price, i :| Exited(c, seen, ts[k], p, price, i);
      ExitedLater(c, seen, b, ts[k], p, price, i);
    }
  }

  lemma Round6MinusOne()
    ensures Round6(-1.0) == -1.0
  {
    Rounding.RoundToFixed(-1.0, -1000000, 1000000.0);
  }

  /** Leaving no further below the entry than the risk is never worse than -1 R. */
  lemma CoveredResult(p: Position, price: real)
    requires p.risk > 0.0 && Gain(p, price) >= -p.risk
    ensures InR(Gain(p, price), p.risk) >= -1.0 && Round6(InR(Gain(p, price), p.risk)) >= -1.0
  {
    Rounding.DivMonotone(-p.risk, Gain(p, price), p.risk);
    var r := p.risk;
    assert (-r) / r == -1.0;
    Rounding.RoundToMonotone(-1.0, InR(Gain(p, price), p.risk), 1000000.0);
    Round6MinusOne();
  }

  lemma ClosedOk(c: Config, p: Position, seen: seq<Bar>, exitTs: int, price: real, reason: ExitReason, gap: bool)
    requires Admissible(c) && PositionOk(c, p, seen) && p.entryTs <= exitTs
    requires LeavesOn(c, seen[|seen| - 1], p, exitTs, price, reason, gap)
    requires gap || reason.SessionFlatten? || Covered(p, price)
    requires ReasonFits(reason, p.side)
    ensures TradeOk(c, CloseTrade(c, p, exitTs, price, reason, gap), seen)
  {
    hide Entered, Round6, InR;
    if Covered(p, price) {
      CoveredResult(p, price);
    }
    StopsRounded(p);
    assert Exited(c, seen, CloseTrade(c, p, exitTs, price, reason, gap), p, price, |seen| - 1);
  }

  lemma StopsRounded(p: Position)
    requires StopSound(p)
    ensures if p.side.Buy? then Round6(p.currentStop) >= Round6(p.initialStop)
            else Round6(p.currentStop) <= Round6(p.initialStop)
  {
    if p.side.Buy? {
      Rounding.RoundToMonotone(p.initialStop, p.currentStop, 1000000.0);
    } else {
      Rounding.RoundToMonotone(p.currentStop, p.initialStop, 1000000.0);
    }
  }

  lemma TradesGrow(c: Config, ts: seq<SimTrade>, t: SimTrade, seen: seq<Bar>)
    requires Admissible(c) && TradesOk(c, ts, seen) && TradeOk(c, t, seen) && OverBy(ts, t.entryTs)
    ensures TradesOk(c, ts + [t], seen)
  {
    hide TradeOk;
  }

  // ----- before the close -----

  /** Between the phases of a bar: `seen` already includes it. */
  ghost predicate Mid(c: Config, s: Sim, seen: seq<Bar>, b: Bar)
    requires Admissible(c)
  {
    && (s.position.Some? ==>
          && PositionOk(c, s.position.value, seen) && Warm(c, seen)
          && OverBy(s.trades, s.position.value.entryTs))
    && (s.pending.Some? ==> s.position.None? && IsFlattenBar(c, b) && Warm(c, seen))
    && TradesOk(c, s.trades, seen)
    && OverBy(s.trades, b.ts)
  }

  lemma EntryIsSound(c: Config, o: Order, b: Bar)
    requires b.open > 0.0
    ensures StopSound(OpenPosition(c, o, b)) && OpenPosition(c, o, b).side == o.side
  {
  }

  lemma EntryOk(c: Config, s: Sim, b: Bar)
    requires Admissible(c) && SimInv(c, s) && Follows(c, s.seen, b) && s.pending.Some?
    ensures PositionOk(c, OpenPosition(c, s.pending.value, b), s.seen + [b])
  {
    EntryIsSound(c, s.pending.value, b);
    var i := |s.seen| - 1;
    var p := OpenPosition(c, s.pending.value, b);
    assert FillsAt(c, s.seen + [b], i, p.signalTs, p.entryTs, p.entry);
    assert (s.seen + [b])[..i + 1] == s.seen;
  }

  lemma EnterKeeps(c: Config, s: Sim, b: Bar)
    requires Admissible(c) && SimInv(c, s) && Follows(c, s.seen, b)
    ensures var cooling := s.cooldown > 0; var rested := s.(cooldown := if cooling then s.cooldown - 1 else 0);
      Mid(c, Enter(c, rested, b, cooling), s.seen + [b], b)
  {
    hide StopSound, Entered, TradesOk, IsFlattenBar, OpenPosition, Sane;
    TradesLater(c, s.trades, s.seen, b);
    if s.position.Some? {
      var p := s.position.value;
      EnteredLater(c, s.seen, b, p.side, p.signalTs, p.entryTs, p.entry);
    } else if s.pending.Some? {
      EntryOk(c, s, b);
      OpenPositionTs(c, s.pending.value, b);
    }
  }

  lemma OpenPositionTs(c: Config, o: Order, b: Bar)
    ensures OpenPosition(c, o, b).entryTs == OpenTs(c, b)
  {
  }

  lemma FlattenKeeps(c: Config, s: Sim, seen: seq<Bar>, b: Bar)
    requires Admissible(c) && seen != [] && seen[|seen| - 1] == b && Mid(c, s, seen, b)
    ensures Mid(c, FlattenOut(c, s, b), seen, b)
  {
    hide Entered, TradesOk, TradeOk, IsFlattenBar, CloseTrade, StopSound;
    assert Risked(s) by {
      MidRisked(c, s, seen, b);
    }
    if s.position.Some? && IsFlattenBar(c, b) {
      var p := s.position.value;
      var t := CloseTrade(c, p, OpenTs(c, b), b.open, SessionFlatten, false);
      ClosedOk(c, p, seen, OpenTs(c, b), b.open, SessionFlatten, false);
      TradeStamps(c, p, OpenTs(c, b), b.open, SessionFlatten, false);
      TradesGrow(c, s.trades, t, seen);
    }
  }

  lemma MidRisked(c: Config, s: Sim, seen: seq<Bar>, b: Bar)
    requires Admissible(c) && Mid(c, s, seen, b)
    ensures Risked(s)
  {
  }

  lemma TradeStamps(c: Config, p: Position, exitTs: int, price: real, reason: ExitReason, gap: bool)
    requires p.risk > 0.0
    ensures var t := CloseTrade(c, p, exitTs, price, reason, gap); t.entryTs == p.entryTs && t.exitTs == exitTs
  {
  }

  /** Not stopped, or filled at the stop itself: no further away than the risk. */
  lemma StopCovers(p: Position, b: Bar, offset: real)
    requires StopSound(p) && Sane(b)
    ensures !StopTriggered(p, b) ==> Covered(p, b.close)
    ensures StopFill(p, b, offset) == if Gapped(p, b, offset) then b.open else p.currentStop
    ensures StopTriggered(p, b) && !Gapped(p, b, offset) ==> Covered(p, StopFill(p, b, offset))
  {
  }

  lemma ExposedSame(p: Position, b: Bar)
    requires p.risk > 0.0
    ensures var q := Exposed(p, b);
      q.side == p.side && q.risk == p.risk && q.entry == p.entry && q.initialStop == p.initialStop
      && q.currentStop == p.currentStop && q.signalTs == p.signalTs && q.entryTs == p.entryTs
  {
  }

  lemma StopKeeps(c: Config, s: Sim, seen: seq<Bar>, b: Bar)
    requires Admissible(c) && seen != [] && seen[|seen| - 1] == b && Mid(c, s, seen, b) && Sane(b) && Risked(s)
    ensures var u := StopOut(c, s, b);
      Mid(c, u, seen, b) && (u.position.Some? ==> Covered(u.position.value, b.close))
  {
    hide Entered, TradesOk, TradeOk, IsFlattenBar, CloseTrade, Exposed, StopTriggered, Gapped, StopFill, StopOffset,
      Sane, Covered, Warm;
    if s.position.Some? {
      var p := Exposed(s.position.value, b);
      ExposedSame(s.position.value, b);
      assert PositionOk(c, p, seen);
      var offset := StopOffset(c, s.seen);
      StopCovers(p, b, offset);
      if StopTriggered(p, b) {
        var gap := Gapped(p, b, offset);
        var t := CloseTrade(c, p, b.ts, StopFill(p, b, offset), TrailStop, gap);
        ClosedOk(c, p, seen, b.ts, StopFill(p, b, offset), TrailStop, gap);
        TradeStamps(c, p, b.ts, StopFill(p, b, offset), TrailStop, gap);
        TradesGrow(c, s.trades, t, seen);
      }
    }
  }

  // ----- at the close -----

  lemma CrossKeeps(c: Config, s: Sim, seen: seq<Bar>, b: Bar)
    requires Admissible(c) && seen != [] && seen[|seen| - 1] == b && Mid(c, s, seen, b) && Risked(s)
    requires s.position.Some? ==> Covered(s.position.value, b.close)
    ensures var u := CrossOut(c, s, b);
      Mid(c, u, seen, b) && (u.position.Some? ==> Covered(u.position.value, b.close)) && u.pending == s.pending
  {
    hide Entered, TradesOk, TradeOk, IsFlattenBar, CloseTrade, Covered, Warm, StopSound;
    if s.position.Some? {
      var p := s.position.value;
      var reason := if p.side.Buy? then CrossBelow else CrossAbove;
      ClosedOk(c, p, seen, b.ts, b.close, reason, false);
      TradeStamps(c, p, b.ts, b.close, reason, false);
      TradesGrow(c, s.trades, CloseTrade(c, p, b.ts, b.close, reason, false), seen);
    }
  }

  /** The trail never widens the stop. */
  lemma RatchetTightens(c: Config, p: Position, r: Reading)
    ensures var q := Ratcheted(c, p, r);
      && (if p.side.Buy? then q.currentStop >= p.currentStop else q.currentStop <= p.currentStop)
      && q.(currentStop := p.currentStop, stopUpdates := p.stopUpdates) == p && q.stopUpdates >= p.stopUpdates
      && Locked(c, q)
  {
  }

  /** The same position, with a stop at least as tight. */
  predicate Tighter(p: Position, q: Position) {
    && q.side == p.side && q.signalTs == p.signalTs && q.entryTs == p.entryTs
    && q.entry == p.entry && q.initialStop == p.initialStop && q.risk == p.risk
    && q.stopUpdates >= p.stopUpdates
    && if p.side.Buy? then q.currentStop >= p.currentStop else q.currentStop <= p.currentStop
  }

  lemma AtCloseTightens(c: Config, s: Sim, before: seq<Bar>, b: Bar, quiet: bool)
    requires Admissible(c) && Risked(s)
    ensures var u := AtClose(c, s, before, b, quiet);
      u.position.Some? ==> s.position.Some? && Tighter(s.position.value, u.position.value)
  {
    hide ReadingOf, Counts, Before, Ratcheted, LongAllowed, ShortAllowed, IsFlattenBar, Ema, CloseTrade;
    match ReadingOf(c, before + [b]) {
      case None =>
      case Some(r) =>
        if s.position.Some? {
          RatchetTightens(c, s.position.value, r);
        }
    }
  }

  lemma StopOutTightens(c: Config, s: Sim, b: Bar)
    requires Admissible(c) && Risked(s)
    ensures Risked(StopOut(c, s, b))
    ensures var u := StopOut(c, s, b);
      u.position.Some? ==> s.position.Some? && Tighter(s.position.value, u.position.value)
  {
  }

  /** A position that is held after a bar was held before it, with no tighter stop, or opened with it. */
  lemma StepTightens(c: Config, s: Sim, b: Bar)
    requires Admissible(c) && Risked(s)
    requires s.pending.Some? ==> InitialRisk(c, b.open, s.pending.value.atr) > 0.0
    ensures var u := StepBar(c, s, b);
      && Risked(u)
      && (u.position.Some? ==>
            if s.position.Some? then Tighter(s.position.value, u.position.value)
            else u.position.value.entryTs == OpenTs(c, b))
  {
    hide AtClose, StopOut, InitialRisk, IsFlattenBar, CloseTrade;
    var cooling := s.cooldown > 0;
    var rested := s.(cooldown := if cooling then s.cooldown - 1 else 0);
    var ready := FlattenOut(c, Enter(c, rested, b, cooling), b);
    StopOutTightens(c, ready, b);
    var checked := StopOut(c, ready, b);
    AtCloseTightens(c, checked, s.seen, b, cooling || (Stopped(ready, checked) && c.cooldownBars > 0));
  }

  lemma RatchetKeeps(c: Config, s: Sim, seen: seq<Bar>, b: Bar, r: Reading)
    requires Admissible(c) && Mid(c, s, seen, b) && (s.position.Some? ==> Covered(s.position.value, b.close))
    ensures var u := Ratchet(c, s, r);
      && Mid(c, u, seen, b) && (u.position.Some? ==> Covered(u.position.value, b.close))
      && u.pending == s.pending && (u.position.None? <==> s.position.None?)
      && (u.position.Some? ==> Locked(c, u.position.value))
  {
    hide Entered, TradesOk, IsFlattenBar, Ratcheted, Warm;
    if s.position.Some? {
      RatchetTightens(c, s.position.value, r);
    }
  }

  lemma ArmKeeps(c: Config, s: Sim, b: Bar, r: Reading, prev21: Option<real>)
    ensures var u := Arm(c, s, b, r, prev21);
      && u.position == s.position && u.trades == s.trades && u.cooldown == s.cooldown && u.seen == s.seen
      && (u.pending == s.pending || u.pending.None?
          || (u.pending.value.signalTs == b.ts && Permitted(c, u.pending.value.side)
              && (if u.pending.value.side.Buy? then s.above else s.below) >= c.confirmationBars))
      && (u.above == s.above || u.above == 0) && (u.below == s.below || u.below == 0)
  {
  }

  lemma BeyondLater(c: Config, seen: seq<Bar>, b: Bar, side: Side, m: nat)
    requires Admissible(c) && m < |seen|
    ensures Beyond(c, seen + [b], side, m) == Beyond(c, seen, side, m)
    ensures NotBeyond(c, seen + [b], side, m) == NotBeyond(c, seen, side, m)
  {
    hide Ema;
    assert (seen + [b])[..m + 1] == seen[..m + 1];
  }

  /** One more close beyond the average. */
  lemma CrossGoesOn(c: Config, seen: seq<Bar>, b: Bar, side: Side, n: nat)
    requires Admissible(c) && Crossed(c, seen, side, n) && Beyond(c, seen + [b], side, |seen|)
    ensures Crossed(c, seen + [b], side, n + 1)
  {
    hide Beyond, NotBeyond;
    var all := seen + [b];
    forall m | |all| - (n + 1) <= m < |all| ensures Beyond(c, all, side, m) {
      if m < |seen| {
        BeyondLater(c, seen, b, side, m);
      }
    }
    BeyondLater(c, seen, b, side, |seen| - n - 1);
  }

  /** A first close beyond the average after one that was not. */
  lemma CrossStarts(c: Config, seen: seq<Bar>, b: Bar, side: Side)
    requires Admissible(c) && seen != [] && NotBeyond(c, seen, side, |seen| - 1) && Beyond(c, seen + [b], side, |seen|)
    ensures Crossed(c, seen + [b], side, 1)
  {
    hide Beyond, NotBeyond;
    BeyondLater(c, seen, b, side, |seen| - 1);
  }

  lemma CountsStayFresh(c: Config, before: seq<Bar>, b: Bar, above: nat, below: nat, ema: real)
    requires Admissible(c) && CountsFresh(c, before, above, below) && Warm(c, before + [b])
    requires Ema(Closes(before + [b]), c.emaPeriod) == Some(ema)
    ensures var counts := Counts(above, below, Before(c, before), b.close, ema);
      CountsFresh(c, before + [b], counts.0, counts.1)
  {
    hide Ema, Crossed;
    var all := before + [b];
    assert all[..|before| + 1] == all && all[|before|] == b;
    var prev := Before(c, before);
    if before != [] {
      assert before[..|before| - 1 + 1] == before;
    }
    if UpCross(prev, b.close, ema) {
      CrossStarts(c, before, b, Buy);
      NoCountAtTurn(c, before, Buy, above);
    } else if b.close > ema {
      if above > 0 {
        CrossGoesOn(c, before, b, Buy, above);
      }
    } else if DownCross(prev, b.close, ema) {
      CrossStarts(c, before, b, Sell);
      NoCountAtTurn(c, before, Sell, below);
    } else if b.close < ema {
      if below > 0 {
        CrossGoesOn(c, before, b, Sell, below);
      }
    }
  }

  /** Where the last close was not beyond the average, nothing is being counted. */
  lemma NoCountAtTurn(c: Config, seen: seq<Bar>, side: Side, n: nat)
    requires Admissible(c) && seen != [] && NotBeyond(c, seen, side, |seen| - 1)
    requires n > 0 ==> Crossed(c, seen, side, n)
    ensures n == 0
  {
    hide Ema;
    assert n > 0 ==> Beyond(c, seen, side, |seen| - 1);
  }

  lemma AtCloseKeeps(c: Config, s: Sim, before: seq<Bar>, b: Bar, quiet: bool)
    requires Admissible(c) && Risked(s) && Mid(c, s, before + [b], b)
    requires s.position.Some? ==> Covered(s.position.value, b.close)
    requires !quiet ==> s.cooldown == 0
    requires CountsFresh(c, before, s.above, s.below)
    ensures SimInv(c, AtClose(c, s, before, b, quiet))
  {
    hide PositionOk, TradesOk, Covered, IsFlattenBar, Counts, Before, CrossOut, Ratchet, Arm, Ema, Crossed;
    var seen := before + [b];
    assert seen[|seen| - 1] == b;
    match ReadingOf(c, seen) {
      case None =>
      case Some(r) =>
        var counts := Counts(s.above, s.below, Before(c, before), b.close, r.ema);
        var counted := s.(above := counts.0, below := counts.1);
        CrossKeeps(c, counted, seen, b);
        RatchetKeeps(c, CrossOut(c, counted, b), seen, b, r);
        var held := Ratchet(c, CrossOut(c, counted, b), r);
        HeldCooldown(c, counted, b, r);
        CountsStayFresh(c, before, b, s.above, s.below, r.ema);
        ArmKeeps(c, held, b, r, Ema(Closes(before), 21));
    }
  }

  lemma HeldCooldown(c: Config, s: Sim, b: Bar, r: Reading)
    requires Risked(s)
    ensures var u := Ratchet(c, CrossOut(c, s, b), r);
      u.cooldown == s.cooldown && u.above == s.above && u.below == s.below
  {
  }

  lemma InvCounts(c: Config, s: Sim)
    requires Admissible(c) && SimInv(c, s)
    ensures CountsFresh(c, s.seen, s.above, s.below)
  {
  }

  lemma OrderIsRisky(c: Config, s: Sim, b: Bar)
    requires Admissible(c) && SimInv(c, s) && b.open > 0.0
    ensures Risked(s) && (s.pending.Some? ==> InitialRisk(c, b.open, s.pending.value.atr) > 0.0)
  {
  }

  lemma QuietCooldown(c: Config, s: Sim, b: Bar)
    requires Admissible(c) && Risked(s)
    ensures var u := StopOut(c, s, b);
      && u.cooldown == (if Stopped(s, u) then c.cooldownBars else s.cooldown)
      && u.above == s.above && u.below == s.below
  {
  }

  lemma EntryCooldown(c: Config, s: Sim, b: Bar, cooling: bool)
    ensures Enter(c, s, b, cooling).cooldown == s.cooldown
    ensures Risked(Enter(c, s, b, cooling)) ==>
      var u := FlattenOut(c, Enter(c, s, b, cooling), b);
      u.cooldown == s.cooldown && u.above == s.above && u.below == s.below
  {
  }

  /** Every processed bar keeps the invariant. */
  lemma StepKeeps(c: Config, s: Sim, b: Bar)
    requires Admissible(c) && SimInv(c, s) && Follows(c, s.seen, b)
    ensures Risked(s) && (s.pending.Some? ==> InitialRisk(c, b.open, s.pending.value.atr) > 0.0)
    ensures SimInv(c, StepBar(c, s, b)) && StepBar(c, s, b).seen == s.seen + [b]
  {
    hide SimInv, Mid, Enter, FlattenOut, StopOut, Risked, Covered, Sane, InitialRisk, ReadingOf, Counts, Before,
      CrossOut, Ratchet, Arm, Ema, IsFlattenBar;
    OrderIsRisky(c, s, b);
    InvCounts(c, s);
    var seen := s.seen + [b];
    var cooling := s.cooldown > 0;
    var rested := s.(cooldown := if cooling then s.cooldown - 1 else 0);
    var entered := Enter(c, rested, b, cooling);
    EnterKeeps(c, s, b);
    MidRisked(c, entered, seen, b);
    FlattenKeeps(c, entered, seen, b);
    var ready := FlattenOut(c, entered, b);
    MidRisked(c, ready, seen, b);
    StopKeeps(c, ready, seen, b);
    EntryCooldown(c, rested, b, cooling);
    QuietCooldown(c, ready, b);
    var checked := StopOut(c, ready, b);
    MidRisked(c, checked, seen, b);
    AtCloseKeeps(c, checked, s.seen, b, cooling || (Stopped(ready, checked) && c.cooldownBars > 0));
  }
}
