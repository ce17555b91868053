/** What one bar and one restart do to the paper desk, trade by trade and plan by plan. */
module DeskBars {
  import opened Prelude
  import opened Market
  import opened PaperTrades
  import opened PaperReplay
  import opened Controls
  import opened Gates
  import opened DeskSpec
  import opened DeskRuns
  import opened DeskTheorems

  /** The plan that the composer makes of a signal on a bar. */
  predicate MadeOf(p: Plan, b: Bar, sig: Signal, research: bool) {
    && sig.draft.Some?
    && var draft := sig.draft.value;
    && p.alertId == draft.alertId && p.direction == draft.direction && p.entry == draft.entry
    && p.initialStop == draft.stop && p.targets == draft.targets && p.validUntil == draft.validUntil
    && p.key.createdAt == b.ts && p.key.symbol == b.symbol
    && p.key.horizon == sig.horizon && p.key.strategy == sig.strategy
    && p.researchOnly == research
  }

  lemma PlanOfIs(b: Bar, sig: Signal, research: bool, p: Plan)
    requires sig.draft.Some?
    ensures p == PlanOf(b, sig, research) <==> MadeOf(p, b, sig, research)
  {
  }

  lemma {:induction false} ComposedExactly(b: Bar, setups: seq<Signal>, research: bool, p: Plan)
    ensures p in Composed(b, setups, research) <==> exists sig :: sig in setups && MadeOf(p, b, sig, research)
  {
    hide PlanOf, MadeOf;
    if setups != [] {
      var front, last := setups[..|setups| - 1], setups[|setups| - 1];
      ComposedExactly(b, front, research, p);
      if last.draft.Some? {
        PlanOfIs(b, last, research, p);
      } else {
        NoDraftNoPlan(p, b, last, research);
      }
    }
  }

  lemma NoDraftNoPlan(p: Plan, b: Bar, sig: Signal, research: bool)
    ensures MadeOf(p, b, sig, research) ==> sig.draft.Some?
  {
  }

  /** A signal of the bar that goes out, or is watched, on the counters as the bar's settlements left them. */
  predicate Planned(d: Desk, s: Step, p: Plan, sig: Signal) {
    && sig in s.signals && MadeOf(p, s.bar, sig, p.researchOnly)
    && if p.researchOnly then IsWatched(d.research, false, s.bar.symbol, sig)
       else GoesOut(d.live, false, s.bar.symbol, sig)
  }

  /** The plans of a bar are exactly those of the signals that pass their own plane's gates. */
  lemma PlansExactly(d: Desk, s: Step, p: Plan)
    ensures p in PlansOf(d, s) <==> exists sig :: Planned(d, s, p, sig)
  {
    hide MadeOf, IsWatched, GoesOut, Composed, Emitted, Monitored;
    var out, watched := Emitted(d.live, d.research, false, s.bar.symbol, s.signals),
                        Monitored(d.live, d.research, false, s.bar.symbol, s.signals);
    RoutesExactly(d.live, d.research, false, s.bar.symbol, s.signals);
    ComposedExactly(s.bar, out, false, p);
    ComposedExactly(s.bar, watched, true, p);
    if sig :| sig in out && MadeOf(p, s.bar, sig, false) {
      MadePlane(p, s.bar, sig, false);
      assert Planned(d, s, p, sig);
    }
    if sig :| sig in watched && MadeOf(p, s.bar, sig, true) {
      MadePlane(p, s.bar, sig, true);
      assert Planned(d, s, p, sig);
    }
    if sig :| Planned(d, s, p, sig) {
      assert sig in if p.researchOnly then watched else out;
    }
  }

  lemma MadePlane(p: Plan, b: Bar, sig: Signal, research: bool)
    requires MadeOf(p, b, sig, research)
    ensures p.researchOnly == research
  {
  }

  /** A trade freshly made of a plan. */
  predicate Fresh(t: Trade, p: Plan) {
    && t.plan == p && t.outcome == Pending && t.tranches == 0
    && t.filledAt == None && t.exitTs == None && t.realizedR == None && t.maeR == 0.0 == t.mfeR
  }

  /**
   * A bar already seen changes nothing. Any other bar feeds every trade, in place; then, where entries
   * are allowed, it appends one fresh trade for each plan of the bar that shares neither alert id nor
   * key with a trade that is there or a plan before it.
   */
  lemma BarOnDesk(d: Desk, s: Step)
    requires DeskInv(d)
    ensures var e := DeskStep(d, s); var settled := SettleBar(d, s.bar);
      if (s.bar.symbol, s.bar.ts) in d.seen then e == d
      else
        && e.seen == d.seen + {(s.bar.symbol, s.bar.ts)}
        && |d.trades| <= |e.trades|
        && (forall k :: 0 <= k < |d.trades| ==> e.trades[k] == Feed(d.trades[k], s.bar))
        && settled.trades == e.trades[..|d.trades|]
        && var added := if s.allowEntries then Accepted(settled.trades, PlansOf(settled, s)) else [];
           |e.trades| == |d.trades| + |added|
           && forall k :: 0 <= k < |added| ==> Fresh(e.trades[|d.trades| + k], added[k])
  {
    hide Feed, PlansOf, Accepted, RecordAll, UpsertAll, CloseAll, Recorded, Mirrors;
    if !Consumed(d, s.bar) {
      var settled := SettleBar(d, s.bar);
      RecordAllOpens(settled, PlansOf(settled, s));
      RecordAllSeen(settled, PlansOf(settled, s));
    }
  }

  lemma {:induction false} RecordAllSeen(d: Desk, plans: seq<Plan>)
    ensures RecordAll(d, plans).seen == d.seen
  {
    hide Known, Upsert, RegisterOpen;
    if plans != [] {
      RecordAllSeen(d, plans[..|plans| - 1]);
    }
  }

  /** What a restart may make of a trade: itself if it had settled, or the trade afresh. */
  predicate CameBack(t: Trade, u: Trade) {
    if t.outcome in {Pending, Open} then Fresh(u, t.plan) else u == t
  }

  /**
   * A restart has, for every trade, what had settled as it was and anything else afresh, and nothing
   * beside them; it has seen no bar, and its counters are those of the unresolved plans.
   */
  lemma RestartOfDesk(d: Desk)
    requires DeskInv(d)
    ensures var e := Restart(d);
      && e.seen == {} && e.ledger == d.ledger
      && (forall t :: t in d.trades ==> exists u :: u in e.trades && CameBack(t, u))
      && (forall u :: u in e.trades ==> exists t :: t in d.trades && CameBack(t, u))
      && forall research, slot :: Count(Plane(e, research), slot) == |OpenPlans(d.trades, research, slot)|
  {
    hide DeskInv, OpenAll, Dedupe, Count, Plane, OpenPlans, CameBack;
    RestartKeepsInv(d);
    var e := Restart(d);
    forall t | t in d.trades ensures exists u :: u in e.trades && CameBack(t, u) {
      var u := RowFor(d, t);
    }
    forall u | u in e.trades ensures exists t :: t in d.trades && CameBack(t, u) {
      var t := RowOf(d, u);
    }
    forall research, slot ensures Count(Plane(e, research), slot) == |OpenPlans(d.trades, research, slot)| {
      RestartCounts(d, research, slot);
    }
  }

  lemma RowFor(d: Desk, t: Trade) returns (u: Trade)
    requires DeskInv(d) && t in d.trades
    ensures u in d.ledger && CameBack(t, u)
  {
    hide Mirrors, Separate;
    u := LedgerRow(t);
  }

  lemma RowOf(d: Desk, u: Trade) returns (t: Trade)
    requires DeskInv(d) && u in d.ledger
    ensures t in d.trades && CameBack(t, u)
  {
    hide Mirrors, Separate;
    t :| t in d.trades && LedgerRow(t) == u;
  }

  lemma RestartCounts(d: Desk, research: bool, slot: Slot)
    requires DeskInv(d)
    ensures Count(Plane(Restart(d), research), slot) == |OpenPlans(d.trades, research, slot)|
  {
    hide Restart, Count, InSlot, Recorded, OpenPlans;
    RestartKeepsInv(d);
    RestartKeepsTally(d, research, slot);
    TallyIsOpenPlans(d.trades, research, slot);
  }
}
