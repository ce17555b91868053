/** When the fill of a stop is a price at which its bar traded, and a run on which it is not. */
module Ema9Fills {
  import opened Prelude
  import opened Market
  import opened Smoothing
  import opened Indicators
  import opened Ema9Rules
  import opened Ema9Steps
  import opened Ema9Simulator
  import Rounding

  /** The fill is a price at which the bar traded exactly if it gapped or reached back to the stop. */
  lemma FillIsTradable(p: Position, b: Bar, offset: real)
    requires Sane(b) && StopTriggered(p, b)
    ensures b.low <= StopFill(p, b, offset) <= b.high
      <==> Gapped(p, b, offset) || (if p.side.Buy? then p.currentStop <= b.high else p.currentStop >= b.low)
  {
  }

  // ----- a run that is filled above its bar's high -----

  const CONFIG := Config(300, 2, 2, 2.0, 100.0, 1.0, 1, false, 0, false, true, 57300, 2.0, 0.1)

  /** The five-minute bar that closes `n + 1` bars after the session's open. */
  function BarAt(n: nat, open: real, high: real, low: real, close: real): Bar {
    Bar("SPY", 300 * (n + 1), 1, 300 * (n + 1), open, high, low, close, 1.0)
  }

  function Flat(n: nat): (r: seq<Bar>)
    ensures |r| == n && forall k :: 0 <= k < n ==> r[k] == BarAt(k, 100.0, 100.0, 100.0, 100.0)
  {
    if n == 0 then [] else Flat(n - 1) + [BarAt(n - 1, 100.0, 100.0, 100.0, 100.0)]
  }

  /** Closes above the average. */
  const CROSS := BarAt(21, 100.0, 101.0, 100.0, 101.0)
  /** Opens the position at 101, with its stop at 100. */
  const HELD := BarAt(22, 101.0, 101.0, 101.0, 101.0)
  /** Opens a cent below the stop and never trades back to it. */
  const DIP := BarAt(23, 99.99, 99.995, 99.9, 99.95)

  function Session(): seq<Bar> {
    ((Flat(21) + [CROSS]) + [HELD]) + [DIP]
  }

  lemma SessionFeedable()
    ensures Feedable(CONFIG, Session())
  {
    var bars := Session();
    forall k | 0 <= k < |bars| ensures Sane(bars[k]) && bars[k].open > 0.0 && bars[k].ts == 300 * (k + 1) {
      if k < 21 {
        assert bars[k] == Flat(21)[k];
      }
    }
  }

  lemma {:induction false} FlatRanges(n: nat)
    ensures forall k :: 0 <= k < n ==> TrueRanges(Flat(n))[k] == 0.0
  {
    if n > 0 {
      FlatRanges(n - 1);
      assert Flat(n)[..n - 1] == Flat(n - 1);
    }
  }

  lemma FlatAverages(n: nat)
    requires n >= 2
    ensures Ema(Closes(Flat(n)), 2) == Some(100.0) && Atr(Flat(n), 2) == Some(0.0)
  {
    EmaBounds(Closes(Flat(n)), 2, 100.0, 100.0);
    FlatRanges(n);
    WilderBounds(TrueRanges(Flat(n)), 2, 0.0, 0.0);
  }

  lemma EmaOfTwo(prev: real, x: real)
    ensures EmaStep(prev, x, 2) == prev + (x - prev) * 2.0 / 3.0
  {
  }

  /** The averages of two periods after one more bar. */
  lemma NextAverages(seen: seq<Bar>, b: Bar, ema: real, atr: real)
    requires |seen| >= 21 && Ema(Closes(seen), 2) == Some(ema) && Atr(seen, 2) == Some(atr)
    ensures Ema(Closes(seen + [b]), 2) == Some(ema + (b.close - ema) * 2.0 / 3.0)
    ensures Atr(seen + [b], 2) == Some((atr + TrueRange(Some(seen[|seen| - 1]), b)) / 2.0)
    ensures Before(CONFIG, seen) == Some((seen[|seen| - 1].close, ema))
  {
    assert Closes(seen + [b]) == Closes(seen) + [b.close];
    OneMore(Closes(seen), b.close, 2);
    EmaOfTwo(ema, b.close);
    assert (seen + [b])[..|seen|] == seen;
    assert TrueRanges(seen + [b]) == TrueRanges(seen) + [TrueRange(Some(seen[|seen| - 1]), b)];
    OneMore(TrueRanges(seen), TrueRange(Some(seen[|seen| - 1]), b), 2);
  }

  lemma FlatStep(n: nat)
    requires n < 21
    ensures StepBar(CONFIG, START.(seen := Flat(n)), BarAt(n, 100.0, 100.0, 100.0, 100.0))
      == START.(seen := Flat(n + 1))
  {
    hide Ema, Atr, Before;
    if n == 20 {
      FlatAverages(21);
    }
  }

  lemma {:induction false} FlatRun(n: nat)
    requires n <= 21
    ensures Priced(Flat(n)) && Run(CONFIG, Flat(n)) == START.(seen := Flat(n))
  {
    hide StepBar, Processed;
    if n > 0 {
      FlatRun(n - 1);
      FlatStep(n - 1);
      assert Flat(n)[..n - 1] == Flat(n - 1);
    }
  }

  lemma CrossStep()
    ensures StepBar(CONFIG, START.(seen := Flat(21)), CROSS)
      == START.(seen := Flat(21) + [CROSS], pending := Some(Order(Buy, CROSS.ts, 0.5)))
  {
    hide Ema, Atr, Before;
    FlatAverages(21);
    NextAverages(Flat(21), CROSS, 100.0, 0.0);
  }

  const BOUGHT := Position(Buy, 6600, 6600, 101.0, 100.0, 100.0, 1.0, 101.0, 101.0, 0, 0.0, 0.0)

  lemma HeldStep(seen: seq<Bar>)
    requires |seen| >= 21 && seen[|seen| - 1] == CROSS
    requires Ema(Closes(seen), 2) == Some(302.0 / 3.0) && Atr(seen, 2) == Some(0.5)
    ensures StepBar(CONFIG, START.(seen := seen, pending := Some(Order(Buy, 6600, 0.5))), HELD)
      == START.(seen := seen + [HELD], position := Some(BOUGHT))
  {
    hide Ema, Atr, Before;
    NextAverages(seen, HELD, 302.0 / 3.0, 0.5);
  }

  /** The stop is run over and filled at 100, whatever the averages make of the close. */
  lemma DipStep(seen: seq<Bar>)
    requires |seen| >= 21 && Atr(seen, 2) == Some(0.25)
    ensures var u := StepBar(CONFIG, START.(seen := seen, position := Some(BOUGHT)), DIP);
      u.position.None?
      && u.trades == [CloseTrade(CONFIG, Exposed(BOUGHT, DIP), DIP.ts, 100.0, TrailStop, false)]
  {
    hide AtClose, CloseTrade, Exposed, Atr;
    ExposedSame(BOUGHT, DIP);
    assert StopTriggered(BOUGHT, DIP) && StopOffset(CONFIG, seen) == 0.025;
    var s := START.(seen := seen, position := Some(BOUGHT));
    var checked := StopOut(CONFIG, s, DIP);
    assert checked.position.None?;
    DipClose(checked, seen);
  }

  lemma DipClose(s: Sim, before: seq<Bar>)
    requires s.position.None?
    ensures var u := AtClose(CONFIG, s, before, DIP, false); u.position.None? && u.trades == s.trades
  {
    hide ReadingOf, Counts, Before, Ema;
  }

  lemma DipTrade()
    ensures var t := CloseTrade(CONFIG, Exposed(BOUGHT, DIP), DIP.ts, 100.0, TrailStop, false);
      t.reason.TrailStop? && !t.gapFallback && t.exitTs == DIP.ts && t.exit == 100.0
  {
    Rounding.RoundToFixed(100.0, 100000000, 1000000.0);
  }

  /** The run of the session, bar by bar after the flat part. */
  lemma SessionRun()
    ensures Priced(Flat(21)) && Priced(Flat(21) + [CROSS]) && Priced((Flat(21) + [CROSS]) + [HELD]) && Priced(Session())
    ensures Run(CONFIG, Flat(21)) == START.(seen := Flat(21))
    ensures NextRun(Flat(21), CROSS) && NextRun(Flat(21) + [CROSS], HELD) && NextRun((Flat(21) + [CROSS]) + [HELD], DIP)
  {
    hide StepBar;
    FlatRun(21);
    RunOneMore(Flat(21), CROSS);
    RunOneMore(Flat(21) + [CROSS], HELD);
    RunOneMore((Flat(21) + [CROSS]) + [HELD], DIP);
  }

  ghost predicate NextRun(bars: seq<Bar>, b: Bar) {
    && Priced(bars) && Priced(bars + [b])
    && var s := Run(CONFIG, bars);
       (s.pending.Some? ==> InitialRisk(CONFIG, b.open, s.pending.value.atr) > 0.0)
       && Run(CONFIG, bars + [b]) == StepBar(CONFIG, s, b)
  }

  lemma RunOneMore(bars: seq<Bar>, b: Bar)
    requires Priced(bars) && b.open > 0.0 && Processes(CONFIG, b)
    ensures NextRun(bars, b)
  {
    hide StepBar, InitialRisk;
    assert (bars + [b])[..|bars|] == bars;
    RunNext(CONFIG, bars + [b]);
  }

  lemma SessionAverages()
    ensures var crossed := Flat(21) + [CROSS];
      && Ema(Closes(crossed), 2) == Some(302.0 / 3.0) && Atr(crossed, 2) == Some(0.5)
      && Atr(crossed + [HELD], 2) == Some(0.25)
  {
    hide Ema, Atr;
    FlatAverages(21);
    NextAverages(Flat(21), CROSS, 100.0, 0.0);
    NextAverages(Flat(21) + [CROSS], HELD, 302.0 / 3.0, 0.5);
  }

  lemma SessionEnds()
    ensures Priced(Session()) && var u := Run(CONFIG, Session());
      u.position.None?
      && u.trades == [CloseTrade(CONFIG, Exposed(BOUGHT, DIP), DIP.ts, 100.0, TrailStop, false)]
  {
    hide Run, StepBar, Priced, CloseTrade, Exposed, Ema, Atr, Closes, Flat, InitialRisk;
    SessionRun();
    SessionAverages();
    CrossStep();
    HeldStep(Flat(21) + [CROSS]);
    DipStep((Flat(21) + [CROSS]) + [HELD]);
  }

  /**
   * On this session the position is stopped out, without a gap, on a bar that opened below its stop
   * and never traded as high: the trade is reported at 100 while the bar's high is 99.995.
   */
  lemma FillCanBeOutsideTheBar()
    ensures Feedable(CONFIG, Session()) && Admissible(CONFIG)
    ensures var trades := Simulate(CONFIG, Session());
      && |trades| == 1 && trades[0].reason.TrailStop? && !trades[0].gapFallback
      && trades[0].exitTs == DIP.ts && Session()[|Session()| - 1] == DIP
      && trades[0].exit == 100.0 > DIP.high
  {
    hide Run, Feedable, CloseTrade, Exposed;
    SessionFeedable();
    SessionEnds();
    DipTrade();
  }
}
