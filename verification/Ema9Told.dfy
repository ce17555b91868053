/** In every run of the simulator, every position and every reported trade has its story. */
module Ema9Told {
  import opened Prelude
  import opened Market
  import opened Smoothing
  import opened Indicators
  import opened Ema9Rules
  import opened Ema9Steps
  import opened Ema9Simulator
  import opened Ema9Stories
  import opened Ema9Telling
  import Rounding

  ghost predicate HasStory(c: Config, seen: seq<Bar>, t: SimTrade)
    requires Admissible(c)
  {
    exists p, e, k, price :: TradeStory(c, seen, t, p, e, k, price)
  }

  ghost predicate AllTold(c: Config, seen: seq<Bar>, ts: seq<SimTrade>)
    requires Admissible(c)
  {
    forall t :: t in ts ==> t.reason != DataEnd && HasStory(c, seen, t)
  }

  /** The order's signal bar is the last one, and the trend filter spoke for it. */
  ghost predicate OrderStory(c: Config, seen: seq<Bar>, o: Order)
    requires Admissible(c)
  {
    seen != [] && Aligned(c, seen, o.side) && Atr(seen, c.atrPeriod) == Some(o.atr)
  }

  /** The counter of the side against a position is the exact length of any fresh cross to it. */
  ghost predicate CountedExactly(c: Config, seen: seq<Bar>, side: Side, above: nat, below: nat)
    requires Admissible(c)
  {
    forall n: nat :: Crossed(c, seen, Other(side), n) ==> n == if side == Buy then below else above
  }

  ghost predicate Told(c: Config, s: Sim)
    requires Admissible(c)
  {
    && (s.position.Some? ==>
          && (exists e :: HeldStory(c, s.seen, s.position.value, e))
          && CountedExactly(c, s.seen, s.position.value.side, s.above, s.below))
    && (s.pending.Some? ==> OrderStory(c, s.seen, s.pending.value))
    && AllTold(c, s.seen, s.trades)
  }

  lemma AllToldLater(c: Config, seen: seq<Bar>, b: Bar, ts: seq<SimTrade>)
    requires Admissible(c) && AllTold(c, seen, ts)
    ensures AllTold(c, seen + [b], ts)
  {
    hide TradeStory;
    forall t | t in ts ensures HasStory(c, seen + [b], t) {
      var p, e, k, price :| TradeStory(c, seen, t, p, e, k, price);
      StoryLater(c, seen, b, t, p, e, k, price);
    }
  }

  // ----- up to the close -----

  /** The trades are told, and a position is held into the last bar. */
  ghost predicate MidTold(c: Config, s: Sim, seen: seq<Bar>)
    requires Admissible(c)
  {
    && (s.position.Some? ==> exists e :: MidStory(c, seen, s.position.value, e))
    && AllTold(c, seen, s.trades)
  }

  lemma EntryStory(c: Config, s: Sim, b: Bar)
    requires Admissible(c) && SimInv(c, s) && Follows(c, s.seen, b) && s.pending.Some?
    requires OrderStory(c, s.seen, s.pending.value)
    ensures MidStory(c, s.seen + [b], OpenPosition(c, s.pending.value, b), |s.seen|)
  {
    hide TradesOk, CountsFresh, Confirmed, Aligned, Atr;
    var seen, e, p := s.seen + [b], |s.seen|, OpenPosition(c, s.pending.value, b);
    FrontSame(s.seen, b, e);
    assert s.seen[..e] == s.seen;
    assert seen[e - 1] == s.seen[e - 1] && seen[e] == b;
    assert OpenedAt(c, seen, e, p);
    FreshPeaks(seen, e, p);
  }

  lemma FreshPeaks(seen: seq<Bar>, e: int, p: Position)
    requires 0 <= e <= |seen| && p.highest == p.entry == p.lowest && p.risk > 0.0 && p.mfeR == 0.0 == p.maeR
    ensures Peaks(seen, e, e, p)
  {
    var r := p.risk;
    assert 0.0 / r == 0.0;
  }

  lemma EnterTold(c: Config, s: Sim, b: Bar)
    requires Admissible(c) && SimInv(c, s) && Follows(c, s.seen, b) && Told(c, s)
    ensures var cooling := s.cooldown > 0; var rested := s.(cooldown := if cooling then s.cooldown - 1 else 0);
      MidTold(c, Enter(c, rested, b, cooling), s.seen + [b])
  {
    hide SimInv, HeldStory, MidStory, AllTold, OpenPosition, CountedExactly, OrderStory;
    AllToldLater(c, s.seen, b, s.trades);
    if s.position.Some? {
      var e :| HeldStory(c, s.seen, s.position.value, e);
      HeldGoesOn(c, s.seen, b, s.position.value, e);
    } else if s.pending.Some? {
      EntryStory(c, s, b);
    }
  }

  lemma OneMoreTold(c: Config, seen: seq<Bar>, ts: seq<SimTrade>, t: SimTrade, p: Position, e: int, k: int, price: real)
    requires Admissible(c) && AllTold(c, seen, ts) && TradeStory(c, seen, t, p, e, k, price) && t.reason != DataEnd
    ensures AllTold(c, seen, ts + [t])
  {
    hide TradeStory;
    assert HasStory(c, seen, t);
    hide HasStory;
  }

  lemma MidHasRisk(c: Config, seen: seq<Bar>, p: Position, e: int)
    requires Admissible(c) && MidStory(c, seen, p, e)
    ensures seen != [] && p.risk > 0.0
  {
  }

  lemma FlattenTold(c: Config, s: Sim, seen: seq<Bar>)
    requires Admissible(c) && seen != [] && MidTold(c, s, seen) && Risked(s)
    ensures MidTold(c, FlattenOut(c, s, seen[|seen| - 1]), seen)
    ensures FlattenOut(c, s, seen[|seen| - 1]).position.Some? ==> !EndsSession(c, seen[|seen| - 1])
  {
    hide MidStory, AllTold, CloseTrade, EndsSession, IsFlattenBar, TradeStory;
    var b := seen[|seen| - 1];
    FlattenIsEnd(c, b);
    if s.position.Some? && IsFlattenBar(c, b) {
      var p := s.position.value;
      var e :| MidStory(c, seen, p, e);
      FlattenStory(c, seen, p, e);
      ClosedTags(c, p, OpenTs(c, b), b.open, SessionFlatten, false);
      OneMoreTold(c, seen, s.trades, CloseTrade(c, p, OpenTs(c, b), b.open, SessionFlatten, false), p, e, |seen| - 1,
        b.open);
    }
  }

  /** The bar's range has passed without a stop. */
  ghost predicate ExposedTold(c: Config, s: Sim, seen: seq<Bar>)
    requires Admissible(c) && seen != []
  {
    && (s.position.Some? ==>
          && !EndsSession(c, seen[|seen| - 1]) && !StopTriggered(s.position.value, seen[|seen| - 1])
          && exists e :: ExposedStory(c, seen, s.position.value, e))
    && AllTold(c, seen, s.trades)
  }

  lemma StopTold(c: Config, s: Sim, seen: seq<Bar>)
    requires Admissible(c) && seen != [] && MidTold(c, s, seen) && Risked(s) && s.seen == seen[..|seen| - 1]
    requires s.position.Some? ==> !EndsSession(c, seen[|seen| - 1])
    ensures ExposedTold(c, StopOut(c, s, seen[|seen| - 1]), seen)
  {
    hide MidStory, ExposedStory, AllTold, CloseTrade, EndsSession, TradeStory, Exposed, StopTriggered, StopFill,
      Gapped, StopOffset;
    var b := seen[|seen| - 1];
    if s.position.Some? {
      var e :| MidStory(c, seen, s.position.value, e);
      ExposeStory(c, seen, s.position.value, e);
      var q := Exposed(s.position.value, b);
      ExposedSame(s.position.value, b);
      if StopTriggered(q, b) {
        StopStory(c, seen, q, e);
        var offset := StopOffset(c, s.seen);
        var fill, gap := StopFill(q, b, offset), Gapped(q, b, offset);
        ClosedTags(c, q, b.ts, fill, TrailStop, gap);
        OneMoreTold(c, seen, s.trades, CloseTrade(c, q, b.ts, fill, TrailStop, gap), q, e, |seen| - 1, fill);
      }
    }
  }

  // ----- the counters -----

  /** A close beyond the average on one side ends any cross to the other. */
  lemma OneSideAtATime(c: Config, seen: seq<Bar>, side: Side, n: nat, m: nat)
    requires Admissible(c) && Crossed(c, seen, side, n)
    ensures !Crossed(c, seen, Other(side), m)
  {
    hide Ema;
    assert Beyond(c, seen, side, |seen| - 1);
    assert !Beyond(c, seen, Other(side), |seen| - 1);
  }

  /** One bar more: a cross to the side goes on, starts or is over. */
  lemma CrossedNext(c: Config, before: seq<Bar>, b: Bar, side: Side, n: nat)
    requires Admissible(c) && Crossed(c, before + [b], side, n)
    ensures n == 1 || (n > 1 && Crossed(c, before, side, n - 1))
  {
    hide Beyond, NotBeyond;
    if n > 1 {
      var all := before + [b];
      forall m | |before| - (n - 1) <= m < |before| ensures Beyond(c, before, side, m) {
        BeyondLater(c, before, b, side, m);
      }
      BeyondLater(c, before, b, side, |before| - (n - 1) - 1);
    }
  }

  lemma CountsExactly(c: Config, before: seq<Bar>, b: Bar, side: Side, above: nat, below: nat, ema: real)
    requires Admissible(c) && CountsFresh(c, before, above, below) && CountedExactly(c, before, side, above, below)
    requires Ema(Closes(before + [b]), c.emaPeriod) == Some(ema)
    ensures var counts := Counts(above, below, Before(c, before), b.close, ema);
      CountedExactly(c, before + [b], side, counts.0, counts.1)
  {
    hide CountsFresh, Crossed, Counts;
    var counts := Counts(above, below, Before(c, before), b.close, ema);
    forall n: nat | Crossed(c, before + [b], Other(side), n)
      ensures n == if side == Buy then counts.1 else counts.0
    {
      CountExactly(c, before, b, side, above, below, ema, n);
    }
  }

  lemma CountExactly(c: Config, before: seq<Bar>, b: Bar, side: Side, above: nat, below: nat, ema: real, n: nat)
    requires Admissible(c) && CountsFresh(c, before, above, below) && CountedExactly(c, before, side, above, below)
    requires Ema(Closes(before + [b]), c.emaPeriod) == Some(ema) && Crossed(c, before + [b], Other(side), n)
    ensures var counts := Counts(above, below, Before(c, before), b.close, ema);
      n == if side == Buy then counts.1 else counts.0
  {
    hide Ema;
    var all, against := before + [b], Other(side);
    assert all[..|before| + 1] == all && all[|before|] == b;
    assert Beyond(c, all, against, |before|);
    CrossedNext(c, before, b, against, n);
    if n == 1 {
      assert NotBeyond(c, all, against, |before| - 1);
      BeyondLater(c, before, b, against, |before| - 1);
      assert before[..|before| - 1 + 1] == before;
      NoCountAtTurn(c, before, against, if side == Buy then below else above);
    } else {
      assert Beyond(c, before, against, |before| - 1);
      assert before[..|before| - 1 + 1] == before;
    }
  }

  lemma OpposedIsCounted(c: Config, seen: seq<Bar>, side: Side, above: nat, below: nat)
    requires Admissible(c) && seen != [] && CountsFresh(c, seen, above, below)
    requires CountedExactly(c, seen, side, above, below)
    ensures Opposed(c, seen, |seen| - 1, side) <==> (if side == Buy then below else above) >= c.confirmationBars
  {
    hide Crossed;
    assert seen[..|seen| - 1 + 1] == seen;
  }

  // ----- at the close -----

  lemma CrossTold(c: Config, s: Sim, seen: seq<Bar>)
    requires Admissible(c) && seen != [] && ExposedTold(c, s, seen) && Risked(s)
    requires CountsFresh(c, seen, s.above, s.below)
    requires s.position.Some? ==> CountedExactly(c, seen, s.position.value.side, s.above, s.below)
    ensures ExposedTold(c, CrossOut(c, s, seen[|seen| - 1]), seen)
    ensures var u := CrossOut(c, s, seen[|seen| - 1]);
      u.position.Some? ==> u.position == s.position && !Opposed(c, seen, |seen| - 1, u.position.value.side)
  {
    hide ExposedStory, AllTold, CloseTrade, EndsSession, TradeStory, StopTriggered, CountsFresh, CountedExactly,
      Opposed;
    var b := seen[|seen| - 1];
    if s.position.Some? {
      var q := s.position.value;
      var e :| ExposedStory(c, seen, q, e);
      OpposedIsCounted(c, seen, q.side, s.above, s.below);
      if Opposed(c, seen, |seen| - 1, q.side) {
        CrossStory(c, seen, q, e);
        var reason := if q.side == Buy then CrossBelow else CrossAbove;
        ClosedTags(c, q, b.ts, b.close, reason, false);
        OneMoreTold(c, seen, s.trades, CloseTrade(c, q, b.ts, b.close, reason, false), q, e, |seen| - 1, b.close);
      }
    }
  }

  lemma RatchetTold(c: Config, s: Sim, seen: seq<Bar>, r: Reading)
    requires Admissible(c) && seen != [] && ExposedTold(c, s, seen) && Risked(s)
    requires s.position.Some? ==> !Opposed(c, seen, |seen| - 1, s.position.value.side)
    requires Ema(Closes(seen), c.emaPeriod) == Some(r.ema) && Atr(seen, c.atrPeriod) == Some(r.atr)
    ensures var u := Ratchet(c, s, r);
      && (u.position.Some? ==>
            && (exists e :: HeldStory(c, seen, u.position.value, e))
            && s.position.Some? && u.position.value.side == s.position.value.side)
      && AllTold(c, seen, u.trades)
  {
    hide ExposedStory, HeldStory, AllTold, EndsSession, StopTriggered, Opposed, Ratcheted;
    if s.position.Some? {
      var e :| ExposedStory(c, seen, s.position.value, e);
      RatchetStory(c, seen, s.position.value, e, r);
      RatchetTightens(c, s.position.value, r);
    }
  }

  /** A new order has its story, and arming touches neither positions nor trades. */
  lemma ArmTold(c: Config, s: Sim, b: Bar, before: seq<Bar>, r: Reading)
    requires Admissible(c) && s.pending.None?
    requires Ema(Closes(before + [b]), 21) == Some(r.ema21) && Atr(before + [b], c.atrPeriod) == Some(r.atr)
    ensures var u := Arm(c, s, b, r, Ema(Closes(before), 21));
      && u.position == s.position && u.trades == s.trades
      && (u.pending.Some? ==> OrderStory(c, before + [b], u.pending.value))
  {
    hide Ema, Atr, Closes;
    FrontSame(before, b, |before|);
    assert before[..|before|] == before;
    assert (before + [b])[|before|] == b;
  }

  lemma HeldIsWarm(c: Config, seen: seq<Bar>, q: Position, e: int)
    requires Admissible(c) && ExposedStory(c, seen, q, e)
    ensures Warm(c, seen)
  {
  }

  lemma ReadingIs(c: Config, seen: seq<Bar>)
    requires Admissible(c)
    ensures ReadingOf(c, seen).Some? ==>
      var r := ReadingOf(c, seen).value;
      && Ema(Closes(seen), c.emaPeriod) == Some(r.ema) && Ema(Closes(seen), 21) == Some(r.ema21)
      && Atr(seen, c.atrPeriod) == Some(r.atr)
  {
  }

  lemma AtCloseTold(c: Config, s: Sim, before: seq<Bar>, b: Bar, quiet: bool)
    requires Admissible(c) && Risked(s) && ExposedTold(c, s, before + [b])
    requires CountsFresh(c, before, s.above, s.below)
    requires s.position.Some? ==> CountedExactly(c, before, s.position.value.side, s.above, s.below)
    requires s.pending.Some? ==> IsFlattenBar(c, b) && Warm(c, before + [b])
    ensures Told(c, AtClose(c, s, before, b, quiet))
  {
    hide ExposedTold, HeldStory, AllTold, CountsFresh, CountedExactly, OrderStory, Opposed, IsFlattenBar, Counts,
      Before, CrossOut, Ratchet, Arm, Ema, Atr, Closes, ReadingOf;
    var seen := before + [b];
    assert seen[|seen| - 1] == b;
    ReadingIs(c, seen);
    ColdStandsStill(c, s, seen);
    match ReadingOf(c, seen) {
      case None =>
      case Some(r) =>
        var counts := Counts(s.above, s.below, Before(c, before), b.close, r.ema);
        var counted := s.(above := counts.0, below := counts.1);
        CountsStayFresh(c, before, b, s.above, s.below, r.ema);
        if s.position.Some? {
          CountsExactly(c, before, b, s.position.value.side, s.above, s.below, r.ema);
        }
        SameTold(c, s, counted, seen);
        CrossTold(c, counted, seen);
        var crossed := CrossOut(c, counted, b);
        CrossRisked(c, counted, b);
        RatchetTold(c, crossed, seen, r);
        HeldCooldown(c, counted, b, r);
        HeldPending(c, counted, b, r);
        var held := Ratchet(c, crossed, r);
        Armed(c, held, before, b, r, quiet, s.pending);
    }
  }

  lemma SameTold(c: Config, s: Sim, u: Sim, seen: seq<Bar>)
    requires Admissible(c) && seen != [] && ExposedTold(c, s, seen) && u.position == s.position && u.trades == s.trades
    ensures ExposedTold(c, u, seen)
  {
  }

  lemma CrossRisked(c: Config, s: Sim, b: Bar)
    requires Risked(s)
    ensures Risked(CrossOut(c, s, b))
  {
    hide CloseTrade;
  }

  lemma HeldPending(c: Config, s: Sim, b: Bar, r: Reading)
    requires Risked(s)
    ensures Ratchet(c, CrossOut(c, s, b), r).pending == s.pending
  {
    hide CloseTrade;
  }

  /** While the averages are cold there is no position and no order. */
  lemma ColdStandsStill(c: Config, s: Sim, seen: seq<Bar>)
    requires Admissible(c) && seen != [] && ExposedTold(c, s, seen)
    requires s.pending.Some? ==> Warm(c, seen)
    ensures AllTold(c, seen, s.trades)
    ensures ReadingOf(c, seen).None? ==> s.position.None? && s.pending.None?
  {
    hide ExposedStory, AllTold, EndsSession, StopTriggered, ReadingOf;
    if s.position.Some? {
      var e :| ExposedStory(c, seen, s.position.value, e);
      HeldIsWarm(c, seen, s.position.value, e);
    }
  }

  lemma Armed(c: Config, held: Sim, before: seq<Bar>, b: Bar, r: Reading, quiet: bool, pending: Option<Order>)
    requires Admissible(c) && held.pending == pending && (pending.Some? ==> IsFlattenBar(c, b))
    requires Ema(Closes(before + [b]), 21) == Some(r.ema21) && Atr(before + [b], c.atrPeriod) == Some(r.atr)
    ensures var armed := if held.position.None? && !quiet then Arm(c, held, b, r, Ema(Closes(before), 21)) else held;
      var u := armed.(pending := if IsFlattenBar(c, b) then None else armed.pending, seen := before + [b]);
      && u.position == held.position && u.trades == held.trades
      && (held.position.Some? ==> u.above == held.above && u.below == held.below)
      && (u.pending.Some? ==> OrderStory(c, before + [b], u.pending.value))
  {
    hide Ema, Atr, Closes, OrderStory, IsFlattenBar;
    if pending.None? {
      ArmTold(c, held, b, before, r);
    }
    ArmKeeps(c, held, b, r, Ema(Closes(before), 21));
  }

  // ----- every bar, every run -----

  /** A position held into a bar has its opposing counter right, whether it is old or just entered. */
  lemma EnteredCounted(c: Config, s: Sim, b: Bar)
    requires Admissible(c) && SimInv(c, s) && Told(c, s)
    ensures var cooling := s.cooldown > 0; var rested := s.(cooldown := if cooling then s.cooldown - 1 else 0);
      var u := Enter(c, rested, b, cooling);
      && u.above == s.above && u.below == s.below && u.seen == s.seen
      && (u.position.Some? ==> CountedExactly(c, s.seen, u.position.value.side, s.above, s.below))
      && (u.pending.Some? ==> s.pending.Some? && IsFlattenBar(c, b))
  {
    hide HeldStory, AllTold, TradesOk, CountsFresh, Crossed, IsFlattenBar, OrderStory;
    if s.position.None? && s.pending.Some? {
      var side := s.pending.value.side;
      var m: nat :| m >= c.confirmationBars && Crossed(c, s.seen, side, m);
      forall n: nat | Crossed(c, s.seen, Other(side), n) ensures false {
        OneSideAtATime(c, s.seen, side, m, n);
      }
    }
  }

  /** Leaving on a bar keeps counters, bars seen and order; what remains is on the same side. */
  lemma OutsKeep(c: Config, s: Sim, b: Bar)
    requires Admissible(c) && Risked(s)
    ensures var ready := FlattenOut(c, s, b);
      && ready.above == s.above && ready.below == s.below && ready.seen == s.seen && ready.pending == s.pending
      && (ready.position.Some? ==> ready.position == s.position)
    ensures var u := StopOut(c, s, b);
      && u.above == s.above && u.below == s.below && u.seen == s.seen && u.pending == s.pending
      && (u.position.Some? ==> s.position.Some? && u.position.value.side == s.position.value.side)
  {
    hide CloseTrade, IsFlattenBar, Atr;
  }

  lemma StepTold(c: Config, s: Sim, b: Bar)
    requires Admissible(c) && SimInv(c, s) && Follows(c, s.seen, b) && Told(c, s)
    ensures Risked(s) && (s.pending.Some? ==> InitialRisk(c, b.open, s.pending.value.atr) > 0.0)
    ensures Told(c, StepBar(c, s, b))
  {
    hide SimInv, Told, MidTold, ExposedTold, Enter, FlattenOut, StopOut, AtClose, Risked, InitialRisk, IsFlattenBar,
      Warm, CountsFresh, CountedExactly;
    OrderIsRisky(c, s, b);
    InvCounts(c, s);
    var seen := s.seen + [b];
    assert seen[|seen| - 1] == b && seen[..|seen| - 1] == s.seen;
    var cooling := s.cooldown > 0;
    var rested := s.(cooldown := if cooling then s.cooldown - 1 else 0);
    var entered := Enter(c, rested, b, cooling);
    StepInPhases(c, s, b);
    EnterTold(c, s, b);
    EnteredCounted(c, s, b);
    OutsKeep(c, entered, b);
    FlattenRisked(c, entered, b);
    FlattenTold(c, entered, seen);
    var ready := FlattenOut(c, entered, b);
    OutsKeep(c, ready, b);
    FlattenIsEnd(c, b);
    StopTold(c, ready, seen);
    var checked := StopOut(c, ready, b);
    PendingWarm(c, s, b);
    AtCloseTold(c, checked, s.seen, b, cooling || (Stopped(ready, checked) && c.cooldownBars > 0));
  }

  lemma PendingWarm(c: Config, s: Sim, b: Bar)
    requires Admissible(c) && SimInv(c, s)
    ensures s.pending.Some? ==> Warm(c, s.seen + [b]) && s.position.None?
  {
    hide TradesOk, CountsFresh;
  }

  lemma {:induction false} RunTold(c: Config, bars: seq<Bar>)
    requires Admissible(c) && Feedable(c, bars)
    ensures Told(c, Run(c, bars))
  {
    hide SimInv, StepBar, Processed, InitialRisk, Told;
    if bars == [] {
      NothingToTell(c);
    } else {
      var front, last := bars[..|bars| - 1], bars[|bars| - 1];
      RunTold(c, front);
      RunNext(c, bars);
      if Processes(c, last) {
        RunKeeps(c, front);
        NextFollows(c, bars);
        StepTold(c, Run(c, front), last);
      }
    }
  }

  lemma NothingToTell(c: Config)
    requires Admissible(c)
    ensures Told(c, START)
  {
  }

  lemma EndStory(c: Config, seen: seq<Bar>, p: Position, e: int)
    requires Admissible(c) && HeldStory(c, seen, p, e)
    ensures seen != [] && p.risk > 0.0
    ensures var b := seen[|seen| - 1];
      TradeStory(c, seen, CloseTrade(c, p, b.ts, b.close, DataEnd, false), p, e, |seen| - 1, b.close)
  {
    hide Peaks, Stays, StopIs, Figures;
    OpenedIndex(c, seen, e, p);
    hide OpenedAt;
    var b := seen[|seen| - 1];
    ClosedFigures(c, p, b.ts, b.close, DataEnd, false);
    ClosedTags(c, p, b.ts, b.close, DataEnd, false);
    hide CloseTrade;
  }

  /**
   * Every reported trade, and every position that is still held, is what the bars make of it: opened
   * at the open after a confirmed and aligned cross, with its risk from that bar's ATR; held through
   * bars that neither end the session, nor run over the tightest level so far, nor confirm a cross
   * against it; left on the first bar that does, for that reason and at that price; and reported to
   * six decimals, with the charge on both sides taken off the net result.
   */
  lemma EveryTradeHasItsStory(c: Config, bars: seq<Bar>)
    requires Admissible(c) && Feedable(c, bars)
    ensures forall t :: t in Simulate(c, bars) ==> HasStory(c, Processed(c, bars), t)
    ensures Run(c, bars).position.Some? ==> exists e :: HeldStory(c, Processed(c, bars), Run(c, bars).position.value, e)
  {
    hide Run, Processed, HeldStory, CloseTrade, TradeStory;
    RunTold(c, bars);
    var s := Run(c, bars);
    if s.position.Some? {
      var e :| HeldStory(c, s.seen, s.position.value, e);
      EndStory(c, s.seen, s.position.value, e);
      assert HasStory(c, s.seen, AtDataEnd(c, s));
    }
  }

  // ----- the charge -----

  ghost predicate NoNegativePrice(seen: seq<Bar>) {
    forall k :: 0 <= k < |seen| ==> seen[k].low >= 0.0 && Sane(seen[k])
  }

  lemma TrailNotNegative(c: Config, seen: seq<Bar>, e: int, j: int, p: Position)
    requires Admissible(c) && 0 <= e <= j < |seen| && Warm(c, seen[..e]) && NoNegativePrice(seen)
    requires p.side == Sell && p.entry >= 0.0
    ensures TrailAt(c, seen, e, j, p) >= 0.0
  {
    hide Ema, Activated;
    var front := seen[..j + 1];
    EmaBounds(Closes(front), c.emaPeriod, 0.0, Max(0.0, Largest(Closes(front))));
    AtrNonNegative(front, c.atrPeriod);
    Rounding.ProductNonNegative(c.trailAtr, Atr(front, c.atrPeriod).value);
  }

  lemma {:induction false} StopNotNegative(c: Config, seen: seq<Bar>, e: int, j: int, p: Position)
    requires Admissible(c) && 0 <= e <= j <= |seen| && Warm(c, seen[..e]) && NoNegativePrice(seen)
    requires p.side == Sell && p.entry >= 0.0 && p.risk > 0.0
    ensures StopAfter(c, seen, e, j, p) >= 0.0
    decreases j
  {
    hide TrailAt;
    if j > e {
      StopNotNegative(c, seen, e, j - 1, p);
      TrailNotNegative(c, seen, e, j - 1, p);
    }
  }

  /** No trade leaves below zero, so its charge is not negative. */
  lemma ChargeNotNegative(c: Config, seen: seq<Bar>, t: SimTrade, p: Position, e: int, k: int, price: real)
    requires Admissible(c) && TradeStory(c, seen, t, p, e, k, price) && NoNegativePrice(seen)
    ensures t.costR >= 0.0 && t.netR <= t.grossR
  {
    hide Reports, Peaks, Confirmed, Aligned, RiskOf, Atr, EndsSession, Opposed, Tightenings, StopAfter, Stays;
    OpenedIndex(c, seen, e, p);
    assert p.entry >= 0.0;
    if t.reason == TrailStop && p.side == Sell {
      StopNotNegative(c, seen, e, k, p);
    }
    assert price >= 0.0;
    CostNotNegative(p.entry + price, c.costBps, p.risk);
  }

  lemma CostNotNegative(prices: real, bps: real, risk: real)
    requires prices >= 0.0 && bps >= 0.0 && risk > 0.0
    ensures prices * bps / 10000.0 / risk >= 0.0
  {
    Rounding.ProductNonNegative(prices, bps);
    Rounding.DivMonotone(0.0, prices * bps / 10000.0, risk);
  }

  /** The net result is the gross one less a charge that is never negative. */
  lemma NetIsGrossLessCost(c: Config, bars: seq<Bar>)
    requires Admissible(c) && Feedable(c, bars) && forall k :: 0 <= k < |bars| ==> bars[k].low >= 0.0
    ensures forall t :: t in Simulate(c, bars) ==> t.costR >= 0.0 && t.netR <= t.grossR
  {
    hide Simulate, Processed, TradeStory, Sane;
    EveryTradeHasItsStory(c, bars);
    ProcessedFrom(c, bars);
    var seen := Processed(c, bars);
    forall k | 0 <= k < |seen| ensures seen[k].low >= 0.0 && Sane(seen[k]) {
      assert seen[k] in bars;
    }
    forall t | t in Simulate(c, bars) ensures t.costR >= 0.0 && t.netR <= t.grossR {
      var p, e, k, price :| TradeStory(c, seen, t, p, e, k, price);
      ChargeNotNegative(c, seen, t, p, e, k, price);
    }
  }
}
