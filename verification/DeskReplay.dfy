/** Crash and replay for the whole desk. */
module DeskReplay {
  import opened Market
  import opened PaperTrades
  import opened PaperReplay
  import opened Controls
  import opened DeskSpec
  import opened DeskSteps
  import opened DeskRuns

  ghost predicate AllWellFormed(steps: seq<Step>) {
    forall k :: 0 <= k < |steps| ==> WellFormed(steps[k])
  }

  ghost function RunFrom(d: Desk, steps: seq<Step>): (e: Desk)
    requires DeskInv(d) && AllWellFormed(steps)
    ensures DeskInv(e)
  {
    if steps == [] then d
    else
      var before := RunFrom(d, steps[..|steps| - 1]);
      StepKeepsInv(before, steps[|steps| - 1]);
      DeskStep(before, steps[|steps| - 1])
  }

  /** The bars that a run really consumes: a bar already seen is skipped. */
  ghost function NewBars(d: Desk, steps: seq<Step>): seq<Bar>
    requires DeskInv(d) && AllWellFormed(steps)
  {
    if steps == [] then []
    else
      var front, last := steps[..|steps| - 1], steps[|steps| - 1];
      NewBars(d, front) + (if Consumed(RunFrom(d, front), last.bar) then [] else [last.bar])
  }

  /** Bars of one symbol come in the order of their closes. */
  ghost predicate Chronological(bars: seq<Bar>) {
    forall j, k :: 0 <= j < k < |bars| && bars[j].symbol == bars[k].symbol ==> bars[j].ts < bars[k].ts
  }

  /** The trade is where its own plan and the given bars put it, starting from a known row or afresh. */
  ghost predicate Explained(t: Trade, base: seq<Trade>, bars: seq<Bar>) {
    && Sound(t)
    && (t == FeedAll(NewTrade(t.plan), bars)
        || exists row :: row in base && Sound(row) && row.plan == t.plan && t == FeedAll(row, bars))
  }

  ghost predicate AllExplained(ts: seq<Trade>, base: seq<Trade>, bars: seq<Bar>) {
    forall t :: t in ts ==> Explained(t, base, bars)
  }

  lemma FeedOneMore(t: Trade, bars: seq<Bar>, b: Bar)
    requires Sound(t)
    ensures FeedAll(t, bars + [b]) == Feed(FeedAll(t, bars), b)
  {
    hide Feed;
    FeedSplit(t, bars, [b]);
    var u := FeedAll(t, bars);
    assert FeedAll(u, [b]) == FeedAll(Feed(u, b), [b][1..]);
  }

  lemma ExplainedOneMore(t: Trade, base: seq<Trade>, bars: seq<Bar>, b: Bar)
    requires Explained(t, base, bars)
    ensures Explained(Feed(t, b), base, bars + [b])
  {
    hide Feed, FeedAll;
    FeedPlan(t, b);
    FeedOneMore(NewTrade(t.plan), bars, b);
    if t != FeedAll(NewTrade(t.plan), bars) {
      var row :| row in base && Sound(row) && row.plan == t.plan && t == FeedAll(row, bars);
      FeedOneMore(row, bars, b);
    }
  }

  /** Nothing that happened up to a plan's own bar concerns the plan. */
  lemma {:induction false} NothingRelevant(bars: seq<Bar>, p: Plan)
    requires forall k :: 0 <= k < |bars| && bars[k].symbol == p.key.symbol ==> bars[k].ts <= p.key.createdAt
    ensures Relevant(bars, p) == []
  {
    if bars != [] {
      NothingRelevant(bars[1..], p);
    }
  }

  lemma NewTradeExplained(base: seq<Trade>, bars: seq<Bar>, b: Bar, p: Plan)
    requires Chronological(bars + [b]) && Playable(p) && p.key.symbol == b.symbol && p.key.createdAt == b.ts
    ensures Explained(NewTrade(p), base, bars + [b])
  {
    var all := bars + [b];
    assert all[|bars|] == b;
    NothingRelevant(all, p);
    FeedRelevant(NewTrade(p), all);
  }

  lemma {:induction false} RecordAllExplained(d: Desk, plans: seq<Plan>, base: seq<Trade>, bars: seq<Bar>, b: Bar)
    requires Chronological(bars + [b]) && AllExplained(d.trades, base, bars + [b])
    requires forall p :: p in plans ==> Playable(p) && p.key.symbol == b.symbol && p.key.createdAt == b.ts
    ensures AllExplained(RecordAll(d, plans).trades, base, bars + [b])
  {
    hide Explained, Known, Upsert, Playable, RegisterOpen, Chronological;
    if plans != [] {
      RecordAllExplained(d, plans[..|plans| - 1], base, bars, b);
      NewTradeExplained(base, bars, b, plans[|plans| - 1]);
    }
  }

  lemma PlansOfBar(d: Desk, s: Step)
    requires WellFormed(s)
    ensures forall p :: p in PlansOf(d, s) ==>
      Playable(p) && p.key.symbol == s.bar.symbol && p.key.createdAt == s.bar.ts
  {
    hide PlansOf, PlanOf, Playable;
    PlansPlayable(d, s);
    forall p | p in PlansOf(d, s) ensures p.key.symbol == s.bar.symbol && p.key.createdAt == s.bar.ts {
      var sig := PlanFrom(d, s, p);
      PlanPlane(s.bar, sig, p.researchOnly);
    }
  }

  lemma StepExplained(d: Desk, s: Step, base: seq<Trade>, bars: seq<Bar>)
    requires DeskInv(d) && WellFormed(s) && AllExplained(d.trades, base, bars)
    requires !Consumed(d, s.bar) && Chronological(bars + [s.bar])
    ensures AllExplained(DeskStep(d, s).trades, base, bars + [s.bar])
  {
    hide Explained, Feed, PlansOf, WellFormed, Mirrors, Recorded, Separate, RecordAll, Chronological, Playable;
    var e := SettleBar(d, s.bar);
    forall t | t in e.trades ensures Explained(t, base, bars + [s.bar]) {
      var k :| 0 <= k < |e.trades| && e.trades[k] == t;
      ExplainedOneMore(d.trades[k], base, bars, s.bar);
    }
    PlansOfBar(e, s);
    RecordAllExplained(e, PlansOf(e, s), base, bars, s.bar);
  }

  lemma {:induction false} RunExplained(d: Desk, steps: seq<Step>)
    requires DeskInv(d) && AllWellFormed(steps) && Chronological(NewBars(d, steps))
    ensures AllExplained(RunFrom(d, steps).trades, d.trades, NewBars(d, steps))
  {
    hide DeskInv, WellFormed, DeskStep, Consumed, Explained;
    if steps == [] {
      StartExplained(d);
    } else {
      var front, last := steps[..|steps| - 1], steps[|steps| - 1];
      var bars := NewBars(d, front);
      assert Chronological(bars) by {
        assert forall k :: 0 <= k < |bars| ==> NewBars(d, steps)[k] == bars[k];
      }
      RunExplained(d, front);
      var before := RunFrom(d, front);
      if Consumed(before, last.bar) {
        InvSound(before);
        SkippedBar(before, last);
        assert NewBars(d, steps) == bars;
      } else {
        StepExplained(before, last, d.trades, bars);
      }
    }
  }

  lemma SkippedBar(d: Desk, s: Step)
    requires AllSound(d.trades) && Consumed(d, s.bar)
    ensures DeskStep(d, s) == d
  {
  }

  lemma StartExplained(d: Desk)
    requires DeskInv(d)
    ensures AllExplained(d.trades, d.trades, [])
  {
    forall t | t in d.trades ensures Explained(t, d.trades, []) {
      assert FeedAll(t, []) == t;
    }
  }

  // ----- no plan is forgotten -----

  ghost function Plans(ts: seq<Trade>): set<Plan> {
    set t | t in ts :: t.plan
  }

  lemma {:induction false} RecordAllKeepsPlans(d: Desk, plans: seq<Plan>)
    ensures Plans(d.trades) <= Plans(RecordAll(d, plans).trades)
  {
    hide Known, Upsert, RegisterOpen;
    if plans != [] {
      RecordAllKeepsPlans(d, plans[..|plans| - 1]);
    }
  }

  lemma StepKeepsPlans(d: Desk, s: Step)
    requires DeskInv(d)
    ensures Plans(d.trades) <= Plans(DeskStep(d, s).trades)
  {
    hide Feed, PlansOf, RecordAll, Mirrors, Recorded, Separate;
    var e := SettleBar(d, s.bar);
    forall t | t in d.trades ensures t.plan in Plans(e.trades) {
      var k :| 0 <= k < |d.trades| && d.trades[k] == t;
      FeedPlan(t, s.bar);
      assert e.trades[k] in e.trades && e.trades[k].plan == t.plan;
    }
    RecordAllKeepsPlans(e, PlansOf(e, s));
  }

  lemma {:induction false} RunKeepsPlans(d: Desk, steps: seq<Step>)
    requires DeskInv(d) && AllWellFormed(steps)
    ensures Plans(d.trades) <= Plans(RunFrom(d, steps).trades)
  {
    hide DeskInv, WellFormed, DeskStep;
    if steps != [] {
      RunKeepsPlans(d, steps[..|steps| - 1]);
      StepKeepsPlans(RunFrom(d, steps[..|steps| - 1]), steps[|steps| - 1]);
    }
  }

  /** The plan was settled on the desk. */
  ghost predicate SettledIn(ts: seq<Trade>, p: Plan) {
    exists t :: t in ts && t.plan == p && !Active(t)
  }

  lemma {:induction false} RecordAllKeepsTrades(d: Desk, plans: seq<Plan>)
    ensures forall t :: t in d.trades ==> t in RecordAll(d, plans).trades
  {
    hide Known, Upsert, RegisterOpen;
    if plans != [] {
      RecordAllKeepsTrades(d, plans[..|plans| - 1]);
    }
  }

  lemma StepKeepsSettled(d: Desk, s: Step, t: Trade)
    requires AllSound(d.trades) && t in d.trades && !Active(t)
    ensures t in DeskStep(d, s).trades
  {
    hide Feed, PlansOf, RecordAll, Sound;
    var k :| 0 <= k < |d.trades| && d.trades[k] == t;
    var e := SettleBar(d, s.bar);
    FeedPlan(t, s.bar);
    assert e.trades[k] in e.trades;
    RecordAllKeepsTrades(e, PlansOf(e, s));
  }

  /** A settled trade stays as it is, whatever the desk consumes. */
  lemma {:induction false} RunKeepsSettled(d: Desk, steps: seq<Step>, t: Trade)
    requires DeskInv(d) && AllWellFormed(steps) && t in d.trades && !Active(t)
    ensures t in RunFrom(d, steps).trades
  {
    hide DeskInv, WellFormed, DeskStep;
    if steps != [] {
      var front := steps[..|steps| - 1];
      RunKeepsSettled(d, front, t);
      InvSound(RunFrom(d, front));
      StepKeepsSettled(RunFrom(d, front), steps[|steps| - 1], t);
    }
  }

  lemma TradeOfRow(ts: seq<Trade>, ledger: seq<Trade>, r: Trade) returns (t: Trade)
    requires Recorded(ts, ledger) && r in ledger
    ensures t in ts && LedgerRow(t) == r && t.plan == r.plan
  {
    hide Separate;
    t :| t in ts && LedgerRow(t) == r;
  }

  lemma RowOfTrade(ts: seq<Trade>, ledger: seq<Trade>, t: Trade) returns (r: Trade)
    requires Recorded(ts, ledger) && t in ts
    ensures r in ledger && r.plan == t.plan
  {
    hide Separate;
    r := LedgerRow(t);
  }

  lemma RowsKeepPlans(ts: seq<Trade>, ledger: seq<Trade>)
    requires Recorded(ts, ledger)
    ensures Plans(ledger) == Plans(ts)
  {
    hide Recorded, LedgerRow;
    forall t | t in ts ensures t.plan in Plans(ledger) {
      var r := RowOfTrade(ts, ledger, t);
    }
    forall r | r in ledger ensures r.plan in Plans(ts) {
      var t := TradeOfRow(ts, ledger, r);
    }
  }

  /** A restart, which keeps the desk consistent. */
  ghost function Restarted(d: Desk): (e: Desk)
    requires DeskInv(d)
    ensures DeskInv(e) && e.trades == d.ledger && Plans(e.trades) == Plans(d.trades)
  {
    RestartKeepsInv(d);
    RowsKeepPlans(d.trades, d.ledger);
    Restart(d)
  }

  // ----- the theorem -----

  /** Every trade is exactly where an uninterrupted run over the history would have put its plan. */
  ghost predicate Faithful(d: Desk, history: seq<Bar>) {
    forall t :: t in d.trades ==> Sound(t) && t == FeedAll(NewTrade(t.plan), history)
  }

  lemma UncrashedIsFaithful(steps: seq<Step>)
    requires AllWellFormed(steps) && Chronological(NewBars(EMPTY_DESK, steps))
    ensures Faithful(RunFrom(EMPTY_DESK, steps), NewBars(EMPTY_DESK, steps))
  {
    hide RunFrom, NewBars;
    RunExplained(EMPTY_DESK, steps);
  }

  /** The window holds all that concerns the plan, or the plan was settled before the crash. */
  ghost predicate Covered(d: Desk, window: seq<Bar>, whole: seq<Bar>, p: Plan) {
    Relevant(window, p) == Relevant(whole, p) || SettledIn(d.trades, p)
  }

  /**
   * Crash and replay. The desk knew `history`; the new process reads the ledger and consumes a
   * window, in order. A plan ends in the state of the uninterrupted run over `history` and then
   * `later` if it was settled before the crash, or if the window holds exactly the bars of its symbol
   * after its creation that this run would have consumed, whether it was known then or not.
   */
  lemma CrashReplay(d: Desk, history: seq<Bar>, later: seq<Bar>, steps: seq<Step>)
    requires DeskInv(d) && Faithful(d, history) && AllWellFormed(steps)
    requires Chronological(NewBars(Restarted(d), steps))
    ensures var window := NewBars(Restarted(d), steps); var e := RunFrom(Restarted(d), steps);
      && Plans(d.trades) <= Plans(e.trades)
      && (forall t :: t in e.trades && Covered(d, window, history + later, t.plan) ==>
            Sound(t) && t == FeedAll(NewTrade(t.plan), history + later))
  {
    hide RunFrom, NewBars, Relevant, FeedAll, DeskInv, Restarted, Explained, SettledIn;
    var window := NewBars(Restarted(d), steps);
    var e := RunFrom(Restarted(d), steps);
    RunExplained(Restarted(d), steps);
    RunKeepsPlans(Restarted(d), steps);
    forall t | t in e.trades && Covered(d, window, history + later, t.plan)
      ensures Sound(t) && t == FeedAll(NewTrade(t.plan), history + later)
    {
      if SettledIn(d.trades, t.plan) {
        SettledTrade(d, history, later, steps, t);
      } else {
        ReplayedTrade(d, history, later, window, t);
      }
    }
  }

  lemma SettledTrade(d: Desk, history: seq<Bar>, later: seq<Bar>, steps: seq<Step>, t: Trade)
    requires DeskInv(d) && Faithful(d, history) && AllWellFormed(steps)
    requires t in RunFrom(Restarted(d), steps).trades && SettledIn(d.trades, t.plan)
    ensures Sound(t) && t == FeedAll(NewTrade(t.plan), history + later)
  {
    hide RunFrom, FeedAll, DeskInv, Restarted, SettledIn, Separate;
    var was := StoredSettled(d, history, t.plan);
    var e := RunFrom(Restarted(d), steps);
    RunKeepsSettled(Restarted(d), steps, was);
    InvSound(e);
    SeparateSame(e.trades, was, t);
    FeedSplit(NewTrade(t.plan), history, later);
    FeedSettled(was, later);
  }

  lemma StoredSettled(d: Desk, history: seq<Bar>, p: Plan) returns (was: Trade)
    requires DeskInv(d) && Faithful(d, history) && SettledIn(d.trades, p)
    ensures was in Restarted(d).trades && was.plan == p && !Active(was)
    ensures Sound(was) && was == FeedAll(NewTrade(p), history)
  {
    hide FeedAll, Mirrors, Separate, Sound;
    was :| was in d.trades && was.plan == p && !Active(was);
    assert LedgerRow(was) in d.ledger;
  }

  lemma ReplayedTrade(d: Desk, history: seq<Bar>, later: seq<Bar>, window: seq<Bar>, t: Trade)
    requires DeskInv(d) && Faithful(d, history)
    requires Explained(t, Restarted(d).trades, window)
    requires Relevant(window, t.plan) == Relevant(history + later, t.plan)
    ensures Sound(t) && t == FeedAll(NewTrade(t.plan), history + later)
  {
    hide FeedAll, Relevant, Restarted, Separate, Mirrors;
    if t == FeedAll(NewTrade(t.plan), window) {
      FeedRelevant(NewTrade(t.plan), window);
      FeedRelevant(NewTrade(t.plan), history + later);
    } else {
      var row :| row in d.ledger && Sound(row) && row.plan == t.plan && t == FeedAll(row, window);
      var was :| was in d.trades && LedgerRow(was) == row;
      ReplayIsUninterruptedRun(t.plan, history, later, window);
    }
  }

  /**
   * When the window covers every unsettled plan, the replayed desk is faithful again, so the same holds across
   * any number of crashes.
   */
  lemma CrashReplayIsFaithful(d: Desk, history: seq<Bar>, later: seq<Bar>, steps: seq<Step>)
    requires DeskInv(d) && Faithful(d, history) && AllWellFormed(steps)
    requires Chronological(NewBars(Restarted(d), steps))
    requires forall t :: t in RunFrom(Restarted(d), steps).trades ==>
      Covered(d, NewBars(Restarted(d), steps), history + later, t.plan)
    ensures Faithful(RunFrom(Restarted(d), steps), history + later)
  {
    hide RunFrom, NewBars, Covered, FeedAll, DeskInv, Restarted, Sound;
    CrashReplay(d, history, later, steps);
  }
}
