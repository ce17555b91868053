/**
 * Whole runs of the desk: counters mirror the book, slots stay within their caps plus the slack of
 * one bar, and a crash followed by a replay changes nothing.
 */
module DeskRuns {
  import opened Market
  import opened PaperTrades
  import opened PaperReplay
  import opened Controls
  import opened DeskSpec
  import opened DeskSteps

  // ----- one bar keeps the desk consistent -----

  lemma FeedKeepsSeparate(ts: seq<Trade>, b: Bar)
    requires AllSound(ts) && Separate(ts)
    ensures Separate(FeedEach(ts, b))
  {
    hide Feed;
    forall k | 0 <= k < |ts| ensures FeedEach(ts, b)[k].plan == ts[k].plan {
      FeedPlan(ts[k], b);
    }
  }

  /** A bar leaves the row of a trade alone unless it settles the trade. */
  lemma FedRow(t: Trade, b: Bar)
    requires Sound(t)
    ensures LedgerRow(Feed(t, b)) == if Active(t) && !Active(Feed(t, b)) then Feed(t, b) else LedgerRow(t)
  {
    hide Feed;
    FeedPlan(t, b);
  }

  lemma RecordedAgrees(ts: seq<Trade>, ledger: seq<Trade>, b: Bar)
    requires AllSound(ts) && Separate(ts) && Recorded(ts, ledger)
    ensures Agree(ledger, SettledBy(ts, b))
  {
    hide Feed, SettledBy;
    forall x, y | x in ledger && y in SettledBy(ts, b)
      ensures x.plan.alertId == y.plan.alertId <==> x.plan.key == y.plan.key
    {
      var k := SettledComesFrom(ts, b, y);
      var t :| t in ts && LedgerRow(t) == x;
      SeparateSame(ts, t, ts[k]);
    }
  }

  lemma SettleRecorded(ts: seq<Trade>, ledger: seq<Trade>, b: Bar)
    requires AllSound(ts) && Separate(ts) && Recorded(ts, ledger)
    ensures Recorded(FeedEach(ts, b), UpsertAll(ledger, SettledBy(ts, b)))
  {
    hide Feed, SettledBy, UpsertAll, LedgerRow, Agree;
    var fed, gone := FeedEach(ts, b), SettledBy(ts, b);
    var after := UpsertAll(ledger, gone);
    SettledSeparate(ts, b);
    RecordedAgrees(ts, ledger, b);
    UpsertAllHolds(ledger, gone);
    forall t | t in fed ensures LedgerRow(t) in after {
      var k :| 0 <= k < |fed| && fed[k] == t;
      RowIsWritten(ts, ledger, b, k);
    }
    forall r | r in after ensures exists t :: t in fed && LedgerRow(t) == r {
      var k := RowHasTrade(ts, ledger, b, r);
      assert fed[k] in fed;
    }
  }

  lemma RowIsWritten(ts: seq<Trade>, ledger: seq<Trade>, b: Bar, k: nat)
    requires AllSound(ts) && Separate(ts) && Recorded(ts, ledger) && k < |ts|
    requires Agree(ledger, SettledBy(ts, b)) && Separate(SettledBy(ts, b))
    ensures LedgerRow(Feed(ts[k], b)) in UpsertAll(ledger, SettledBy(ts, b))
  {
    hide Feed, SettledBy, UpsertAll, Agree;
    UpsertAllHolds(ledger, SettledBy(ts, b));
    FedRow(ts[k], b);
    if Active(ts[k]) && !Active(Feed(ts[k], b)) {
      SettledContains(ts, b, k);
    } else {
      var row := LedgerRow(ts[k]);
      assert ts[k] in ts && row in ledger;
      forall y | y in SettledBy(ts, b) ensures row.plan.alertId != y.plan.alertId {
        var j := SettledComesFrom(ts, b, y);
        if row.plan.alertId == y.plan.alertId {
          SeparateSame(ts, ts[j], ts[k]);
          assert false;
        }
      }
    }
  }

  lemma RowHasTrade(ts: seq<Trade>, ledger: seq<Trade>, b: Bar, r: Trade) returns (k: nat)
    requires AllSound(ts) && Separate(ts) && Recorded(ts, ledger)
    requires Agree(ledger, SettledBy(ts, b)) && Separate(SettledBy(ts, b))
    requires r in UpsertAll(ledger, SettledBy(ts, b))
    ensures k < |ts| && LedgerRow(Feed(ts[k], b)) == r
  {
    hide Feed, SettledBy, UpsertAll, Agree;
    UpsertAllHolds(ledger, SettledBy(ts, b));
    if r in SettledBy(ts, b) {
      k := SettledComesFrom(ts, b, r);
      FedRow(ts[k], b);
    } else {
      var t :| t in ts && LedgerRow(t) == r;
      k :| 0 <= k < |ts| && ts[k] == t;
      FedRow(t, b);
      if Active(t) && !Active(Feed(t, b)) {
        SettledContains(ts, b, k);
        FeedPlan(t, b);
        assert false;
      }
    }
  }

  lemma SettleKeepsInv(d: Desk, b: Bar)
    requires DeskInv(d)
    ensures DeskInv(SettleBar(d, b))
  {
    hide Mirrors, Recorded, SettledBy, UpsertAll, CloseAll, Feed;
    FeedKeepsSeparate(d.trades, b);
    SettleRecorded(d.trades, d.ledger, b);
    SettleMirrors(d.live, d.trades, b, false);
    SettleMirrors(d.research, d.trades, b, true);
  }

  lemma OpenMirrors(c: Counters, ts: seq<Trade>, t: Trade, research: bool)
    requires Mirrors(c, ts, research) && Active(t)
    ensures Mirrors(if t.plan.researchOnly == research then RegisterOpen(c, t.plan.key) else c, ts + [t], research)
  {
    hide Count, InSlot, RegisterOpen, Tally, Active;
    var key := t.plan.key;
    forall slot ensures Count(if t.plan.researchOnly == research then RegisterOpen(c, key) else c, slot)
      == Tally(ts + [t], research, slot)
    {
      OpenCounts(c, key, slot);
      TallyAppend(ts, t, research, slot);
    }
  }

  lemma RecordRecorded(ts: seq<Trade>, ledger: seq<Trade>, p: Plan)
    requires Separate(ts) && Recorded(ts, ledger) && !Known(ts, p)
    ensures Separate(ts + [NewTrade(p)])
    ensures Recorded(ts + [NewTrade(p)], Upsert(ledger, NewTrade(p)))
  {
    hide Upsert;
    forall r | r in ledger ensures r.plan.alertId != p.alertId && r.plan.key != p.key {
      var t :| t in ts && LedgerRow(t) == r;
      var k :| 0 <= k < |ts| && ts[k] == t;
    }
    UpsertHolds(ledger, NewTrade(p));
    forall r | r in Upsert(ledger, NewTrade(p)) ensures exists t :: t in ts + [NewTrade(p)] && LedgerRow(t) == r {
      if r == NewTrade(p) {
        assert (ts + [NewTrade(p)])[|ts|] == r && LedgerRow(r) == r;
      } else {
        var t :| t in ts && LedgerRow(t) == r;
        assert t in ts + [NewTrade(p)];
      }
    }
  }

  lemma RecordKeepsInv(d: Desk, p: Plan)
    requires DeskInv(d) && Playable(p)
    ensures DeskInv(Record(d, p))
  {
    hide Mirrors, Recorded, Upsert, Playable, RegisterOpen, Separate;
    if !Known(d.trades, p) {
      RecordRecorded(d.trades, d.ledger, p);
      OpenMirrors(d.live, d.trades, NewTrade(p), false);
      OpenMirrors(d.research, d.trades, NewTrade(p), true);
    }
  }

  lemma {:induction false} RecordAllKeepsInv(d: Desk, plans: seq<Plan>)
    requires DeskInv(d) && forall p :: p in plans ==> Playable(p)
    ensures DeskInv(RecordAll(d, plans))
  {
    hide DeskInv, Record, Playable;
    if plans != [] {
      RecordAllKeepsInv(d, plans[..|plans| - 1]);
      RecordKeepsInv(RecordAll(d, plans[..|plans| - 1]), plans[|plans| - 1]);
    }
  }

  /** Composed plans carry the bar's own key and a real draft. */
  lemma {:induction false} ComposedFrom(b: Bar, setups: seq<Signal>, research: bool, p: Plan) returns (sig: Signal)
    requires p in Composed(b, setups, research)
    ensures sig in setups && sig.draft.Some? && p == PlanOf(b, sig, research)
  {
    var last := setups[|setups| - 1];
    if p in Composed(b, setups[..|setups| - 1], research) {
      sig := ComposedFrom(b, setups[..|setups| - 1], research, p);
    } else {
      sig := last;
    }
  }

  /** Every plan of a bar comes from one of its signals, gated on its own plane. */
  lemma PlanFrom(d: Desk, s: Step, p: Plan) returns (sig: Signal)
    requires p in PlansOf(d, s)
    ensures sig in s.signals && sig.draft.Some? && p == PlanOf(s.bar, sig, p.researchOnly)
    ensures RunGates(Plane(d, p.researchOnly), s.bar.symbol, sig, if p.researchOnly then 1.0 else sig.confidence).None?
    ensures !p.researchOnly ==> sig.liveEligible
  {
    hide RunGates, PlanOf;
    EmittedSound(d.live, d.research, false, s.bar.symbol, s.signals);
    var emitted := Emitted(d.live, d.research, false, s.bar.symbol, s.signals);
    if p in Composed(s.bar, emitted, false) {
      sig := ComposedFrom(s.bar, emitted, false, p);
      PlanPlane(s.bar, sig, false);
      EmittedIsEligible(d.live, d.research, s.bar.symbol, sig);
    } else {
      sig := ComposedFrom(s.bar, Monitored(d.live, d.research, false, s.bar.symbol, s.signals), true, p);
      PlanPlane(s.bar, sig, true);
    }
  }

  lemma PlanPlane(b: Bar, sig: Signal, research: bool)
    requires sig.draft.Some?
    ensures var p := PlanOf(b, sig, research);
      p.researchOnly == research && p.key == KeyOf(b, sig) && p.entry == sig.draft.value.entry
      && p.initialStop == sig.draft.value.stop && p.targets == sig.draft.value.targets
  {
  }

  lemma PlansPlayable(d: Desk, s: Step)
    requires WellFormed(s)
    ensures forall p :: p in PlansOf(d, s) ==> Playable(p)
  {
    hide PlansOf, PlanOf;
    forall p | p in PlansOf(d, s) ensures Playable(p) {
      var sig := PlanFrom(d, s, p);
      PlanPlane(s.bar, sig, p.researchOnly);
    }
  }

  lemma StepKeepsInv(d: Desk, s: Step)
    requires DeskInv(d) && WellFormed(s)
    ensures DeskInv(DeskStep(d, s))
  {
    hide DeskInv, SettleBar, RecordAll, PlansOf, WellFormed, Playable;
    assert AllSound(d.trades) by {
      InvSound(d);
    }
    if !Consumed(d, s.bar) {
      SettleKeepsInv(d, s.bar);
      var e := SettleBar(d, s.bar);
      PlansPlayable(e, s);
      RecordAllKeepsInv(e, PlansOf(e, s));
    }
  }

  lemma InvSound(d: Desk)
    requires DeskInv(d)
    ensures AllSound(d.trades) && Separate(d.trades)
  {
  }

  // ----- restart -----

  lemma {:induction false} DedupeSeparate(rows: seq<Trade>)
    requires Separate(rows)
    ensures Dedupe(rows) == rows
  {
    if rows != [] {
      var front, last := rows[..|rows| - 1], rows[|rows| - 1];
      DedupeSeparate(front);
      forall k | 0 <= k < |front| ensures front[k].plan.key != last.plan.key {
        assert rows[k] == front[k];
      }
      assert rows == front + [last];
    }
  }

  lemma {:induction false} OpenAllMirrors(ts: seq<Trade>, research: bool)
    ensures Mirrors(OpenAll(NO_COUNTS, ts, research), ts, research)
  {
    hide InSlot, RegisterOpen;
    if ts != [] {
      var front, last := ts[..|ts| - 1], ts[|ts| - 1];
      OpenAllMirrors(front, research);
      forall slot ensures Count(OpenAll(NO_COUNTS, ts, research), slot) == Tally(ts, research, slot) {
        OpenCounts(OpenAll(NO_COUNTS, front, research), last.plan.key, slot);
      }
    }
  }

  lemma RowsOfRows(ts: seq<Trade>, ledger: seq<Trade>)
    requires AllSound(ts) && Recorded(ts, ledger)
    ensures forall r :: r in ledger ==> LedgerRow(r) == r && Sound(r)
    ensures Recorded(ledger, ledger) && AllSound(ledger)
  {
    forall r | r in ledger ensures LedgerRow(r) == r && Sound(r) {
      var t :| t in ts && LedgerRow(t) == r;
    }
  }

  lemma RestartKeepsInv(d: Desk)
    requires DeskInv(d)
    ensures DeskInv(Restart(d)) && Restart(d).trades == d.ledger
  {
    hide Mirrors, OpenAll, Dedupe;
    RowsOfRows(d.trades, d.ledger);
    DedupeSeparate(d.ledger);
    OpenAllMirrors(d.ledger, false);
    OpenAllMirrors(d.ledger, true);
  }

  /** The unresolved plans of one plane in one slot. */
  ghost function OpenPlans(ts: seq<Trade>, research: bool, slot: Slot): set<Plan> {
    set t | t in ts && Holds(t, research, slot) :: t.plan
  }

  lemma OpenPlansAppend(ts: seq<Trade>, t: Trade, research: bool, slot: Slot)
    ensures OpenPlans(ts + [t], research, slot)
         == OpenPlans(ts, research, slot) + (if Holds(t, research, slot) then {t.plan} else {})
  {
    hide Holds;
    assert forall x :: x in ts + [t] <==> x in ts || x == t;
  }

  lemma SeparateFront(ts: seq<Trade>, last: Trade, research: bool, slot: Slot)
    requires Separate(ts + [last])
    ensures Separate(ts) && last.plan !in OpenPlans(ts, research, slot)
  {
    var all := ts + [last];
    assert forall k :: 0 <= k < |ts| ==> all[k] == ts[k];
    forall t | t in ts ensures t.plan.alertId != last.plan.alertId {
      var k :| 0 <= k < |ts| && ts[k] == t;
      assert all[k] == t && all[|ts|] == last;
    }
  }

  lemma NothingOpen(research: bool, slot: Slot)
    ensures OpenPlans([], research, slot) == {}
  {
  }

  lemma {:induction false} TallyIsOpenPlans(ts: seq<Trade>, research: bool, slot: Slot)
    requires Separate(ts)
    ensures Tally(ts, research, slot) == |OpenPlans(ts, research, slot)|
  {
    hide Holds, Separate, OpenPlans;
    if ts == [] {
      NothingOpen(research, slot);
    } else {
      var front, last := ts[..|ts| - 1], ts[|ts| - 1];
      assert ts == front + [last];
      SeparateFront(front, last, research, slot);
      TallyIsOpenPlans(front, research, slot);
      OpenPlansAppend(front, last, research, slot);
    }
  }

  /** A restart brings back exactly the open plans there were. */
  lemma RestartKeepsTally(d: Desk, research: bool, slot: Slot)
    requires DeskInv(d)
    ensures OpenPlans(Restart(d).trades, research, slot) == OpenPlans(d.trades, research, slot)
    ensures Tally(Restart(d).trades, research, slot) == Tally(d.trades, research, slot)
  {
    hide Restart, Separate, Mirrors;
    RestartKeepsInv(d);
    RowsOpenPlans(d.trades, d.ledger, research, slot);
    TallyIsOpenPlans(d.trades, research, slot);
    TallyIsOpenPlans(d.ledger, research, slot);
  }

  lemma RowsOpenPlans(ts: seq<Trade>, ledger: seq<Trade>, research: bool, slot: Slot)
    requires Recorded(ts, ledger)
    ensures OpenPlans(ledger, research, slot) == OpenPlans(ts, research, slot)
  {
    hide InSlot, Separate;
    forall t | t in ts && Holds(t, research, slot) ensures t.plan in OpenPlans(ledger, research, slot) {
      assert LedgerRow(t) in ledger && Holds(LedgerRow(t), research, slot);
    }
    forall r | r in ledger && Holds(r, research, slot) ensures r.plan in OpenPlans(ts, research, slot) {
      var t :| t in ts && LedgerRow(t) == r;
      assert Holds(t, research, slot);
    }
  }
}
