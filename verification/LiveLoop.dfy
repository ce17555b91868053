/**
 * The live loop's desk as the program keeps it: one executor, the runner with its two sets of
 * counters, the stored ledger and the bars already seen. Each method is one step of the desk.
 */
module LiveLoop {
  import opened Market
  import opened PaperTrades
  import opened PaperReplay
  import opened Controls
  import opened DeskSpec
  import opened PaperExecutor
  import opened DeskRuns
  import opened DeskReplay

  class LiveLoop {
    const executor: PaperExecutor
    var runner: EngineRunner
    var ledger: seq<Trade>
    var seenBars: set<(string, int)>

    ghost function Repr(): set<object>
      reads this, executor
    {
      {this, executor, runner, runner.controls, runner.shadowControls} + set t | t in executor.trades
    }

    ghost function View(): (d: Desk)
      reads this, executor, executor.trades, runner, runner.controls, runner.shadowControls
      ensures d.trades == Views(executor.trades) && d.ledger == ledger && d.seen == seenBars
      ensures d.live == runner.controls.View() && d.research == runner.shadowControls.View()
    {
      Desk(Views(executor.trades), runner.controls.View(), runner.shadowControls.View(), ledger, seenBars)
    }

    ghost predicate Valid()
      reads this, executor, executor.trades, runner, runner.controls, runner.shadowControls
    {
      && executor.Valid()
      && runner.controls != runner.shadowControls
      && !runner.shadow
      && runner.shadowSetups == []
      && IdsNamed(executor)
    }

    constructor ()
      ensures Valid() && View() == EMPTY_DESK
      ensures fresh(Repr() - {this})
    {
      executor := new PaperExecutor();
      runner := new EngineRunner(false);
      ledger, seenBars := [], {};
    }

    /** Tracks a new plan unless it is known. */
    method TrackPlan(plan: Plan) returns (added: bool)
      requires executor.Valid() && IdsNamed(executor) && Playable(plan)
      modifies executor
      ensures executor.Valid() && IdsNamed(executor)
      ensures added == !Known(old(Views(executor.trades)), plan)
      ensures Views(executor.trades)
        == if added then old(Views(executor.trades)) + [NewTrade(plan)] else old(Views(executor.trades))
      ensures forall t :: t in executor.trades && t !in old(executor.trades) ==> fresh(t)
    {
      hide Indexes, KeyedBy, Known, AllNamed, Views;
      KnownByKey(executor, plan);
      var trade := new PaperTrade(NewTrade(plan));
      assert trade.Sound() && trade.IsActive();
      hide Playable, PaperTrade.View, PaperTrade.Sound, PaperTrade.IsActive;
      ViewsAppend(executor.trades, trade);
      OneMoreNamed(executor.byAlertId.Keys, executor.trades, trade);
      ghost var ids := executor.byAlertId.Keys;
      added := executor.Track(trade);
      assert ids + {} == ids;
    }

    /** What a setup leaves behind: a tracked plan, its ledger row and its place in the counters. */
    method RecordSetup(b: Bar, sig: Signal, research: bool)
      requires Valid()
      requires sig.draft.Some? ==> Playable(PlanOf(b, sig, research))
      modifies this`ledger, executor, runner.controls, runner.shadowControls
      ensures Valid()
      ensures View() == if sig.draft.Some? then Record(old(View()), PlanOf(b, sig, research)) else old(View())
      ensures forall t :: t in executor.trades && t !in old(executor.trades) ==> fresh(t)
    {
      hide Playable, RegisterOpen, Upsert, PlanOf, Known, Views, IdsNamed, PaperExecutor.Valid, EngineControls.View;
      if sig.draft.None? {
        return;
      }
      var plan := PlanOf(b, sig, research);
      var added := TrackPlan(plan);
      if !added {
        return;
      }
      ledger := Upsert(ledger, NewTrade(plan));
      PlanResearch(b, sig, research);
      if research {
        runner.shadowControls.Open(plan.key);
      } else {
        runner.controls.Open(plan.key);
      }
    }

    /** Records the setups of one route, in order. */
    method RecordSetups(b: Bar, setups: seq<Signal>, research: bool)
      requires Valid()
      requires forall p :: p in Composed(b, setups, research) ==> Playable(p)
      modifies this`ledger, executor, runner.controls, runner.shadowControls
      ensures Valid()
      ensures View() == RecordAll(old(View()), Composed(b, setups, research))
      ensures forall t :: t in executor.trades && t !in old(executor.trades) ==> fresh(t)
    {
      ghost var d := View();
      assert setups[..0] == [] && Composed(b, [], research) == [];
      assert RecordAll(d, []) == d;
      hide *;
      for k := 0 to |setups|
        invariant Valid()
        invariant View() == RecordAll(d, Composed(b, setups[..k], research))
        invariant forall t :: t in executor.trades && t !in old(executor.trades) ==> fresh(t)
      {
        ComposedStep(d, b, setups, k, research);
        RecordSetup(b, setups[k], research);
      }
      assert setups[..|setups|] == setups;
    }

    /** Feeds the bar to the open trades; what settles is written down and taken off the counters. */
    method SettleTrades(b: Bar)
      requires Valid() && AllSound(View().trades)
      modifies this`ledger, executor`active, executor.trades, runner.controls, runner.shadowControls
      ensures Valid() && executor.trades == old(executor.trades)
      ensures View() == SettleBar(old(View()), b).(seen := old(View()).seen)
    {
      hide PaperExecutor.Valid, EngineControls.View, Views, CloseAll, UpsertAll, FeedEach, SettledBy, AllNamed;
      var settled := FeedTrades(b);
      CloseSettled(settled);
    }

    method CloseSettled(settled: seq<PaperTrade>)
      requires runner.controls != runner.shadowControls
      modifies this`ledger, runner.controls, runner.shadowControls
      ensures runner.controls.View() == CloseAll(old(runner.controls.View()), Views(settled), false)
      ensures runner.shadowControls.View() == CloseAll(old(runner.shadowControls.View()), Views(settled), true)
      ensures ledger == UpsertAll(old(ledger), Views(settled))
    {
      ghost var rows, stored := Views(settled), ledger;
      ghost var live, research := runner.controls.View(), runner.shadowControls.View();
      assert settled[..0] == [];
      CloseNothing(live, research, stored);
      hide EngineControls.View, RegisterClose, Upsert, CloseAll, UpsertAll, PaperTrade.View;
      for k := 0 to |settled|
        invariant Views(settled) == rows
        invariant runner.controls.View() == CloseAll(live, rows[..k], false)
        invariant runner.shadowControls.View() == CloseAll(research, rows[..k], true)
        invariant ledger == UpsertAll(stored, rows[..k])
      {
        var t := settled[k];
        CloseStep(live, research, stored, rows, k);
        if t.plan.researchOnly {
          runner.shadowControls.Close(t.plan.key);
        } else {
          runner.controls.Close(t.plan.key);
        }
        ledger := Upsert(ledger, t.View());
      }
      assert rows[..|rows|] == rows;
    }

    method FeedTrades(b: Bar) returns (settled: seq<PaperTrade>)
      requires executor.Valid() && IdsNamed(executor) && AllSound(Views(executor.trades))
      modifies executor`active, executor.trades
      ensures executor.Valid() && IdsNamed(executor) && executor.trades == old(executor.trades)
      ensures Views(executor.trades) == FeedEach(old(Views(executor.trades)), b)
      ensures Views(settled) == SettledBy(old(Views(executor.trades)), b)
    {
      hide Indexes, KeyedBy, AllNamed, Feed, PaperTrade.View, PaperTrade.IsActive, FeedEach, SettledBy, Pick;
      ghost var ts := executor.trades;
      ghost var before := map t | t in ts :: t.View();
      ghost var olds := Views(ts);
      settled := executor.OnBar(b);
      FedViews(before, ts, b, olds, GoneSince(ts));
    }

    /** Lets the runner gate the bar's signals; counters, trades and ledger stay as they are. */
    method GateBar(b: Bar, signals: seq<Signal>) returns (emitted: seq<Signal>, shadowed: seq<Signal>)
      requires Valid()
      modifies runner
      ensures Valid() && View() == old(View())
      ensures emitted == Emitted(View().live, View().research, false, b.symbol, signals)
      ensures shadowed == Monitored(View().live, View().research, false, b.symbol, signals)
    {
      hide PaperExecutor.Valid, AllNamed, Views, EngineControls.View, Emitted, Monitored, Refused;
      emitted := runner.OnBar(b.symbol, signals);
      shadowed := runner.PopShadowSetups();
      assert [] + shadowed == shadowed;
    }

    /** The live setups first, then the monitored ones. */
    method RecordRoutes(b: Bar, emitted: seq<Signal>, shadowed: seq<Signal>)
      requires Valid()
      requires forall p :: p in Composed(b, emitted, false) + Composed(b, shadowed, true) ==> Playable(p)
      modifies this`ledger, executor, runner.controls, runner.shadowControls
      ensures Valid()
      ensures View() == RecordAll(old(View()), Composed(b, emitted, false) + Composed(b, shadowed, true))
      ensures forall t :: t in executor.trades && t !in old(executor.trades) ==> fresh(t)
    {
      hide *;
      RecordSetups(b, emitted, false);
      RecordSetups(b, shadowed, true);
      RecordAllSplit(old(View()), Composed(b, emitted, false), Composed(b, shadowed, true));
    }

    /** One bar of the loop: skip it if seen, settle, gate, and record what passes. */
    method IngestBar(b: Bar, signals: seq<Signal>, allowEntries: bool)
      requires Valid() && DeskInv(View()) && WellFormed(Step(b, signals, allowEntries))
      modifies this`ledger, this`seenBars, executor, executor.trades, runner, runner.controls, runner.shadowControls
      ensures Valid() && View() == DeskStep(old(View()), Step(b, signals, allowEntries))
      ensures DeskInv(View())
      ensures forall t :: t in executor.trades && t !in old(executor.trades) ==> fresh(t)
    {
      hide *;
      ghost var d, s := View(), Step(b, signals, allowEntries);
      InvSound(d);
      StepKeepsInv(d, s);
      StepUnfolds(d, s);
      var fresher := MarkSeen(b);
      if fresher {
        SettleTrades(b);
        ghost var e := View();
        PlansPlayable(e, s);
        var emitted, shadowed := GateBar(b, signals);
        if allowEntries {
          RecordRoutes(b, emitted, shadowed);
        }
      }
    }

    /** Whether the bar is new; if so it is remembered. */
    method MarkSeen(b: Bar) returns (fresher: bool)
      requires Valid()
      modifies this`seenBars
      ensures Valid() && fresher == !Consumed(old(View()), b)
      ensures View() == if fresher then WithSeen(old(View()), b) else old(View())
    {
      hide PaperExecutor.Valid, AllNamed, Views, EngineControls.View;
      fresher := (b.symbol, b.ts) !in seenBars;
      if fresher {
        seenBars := seenBars + {(b.symbol, b.ts)};
      }
    }

    /** The poll's loop over its bars, in the order in which they are sorted. */
    method IngestRecent(steps: seq<Step>)
      requires Valid() && DeskInv(View()) && AllWellFormed(steps)
      modifies this`ledger, this`seenBars, executor, executor.trades, runner, runner.controls, runner.shadowControls
      ensures Valid() && DeskInv(View()) && View() == RunFrom(old(View()), steps)
    {
      hide DeskInv, WellFormed, RunFrom, DeskStep;
      ghost var d := View();
      RunFromNothing(d, steps);
      for k := 0 to |steps|
        invariant Valid() && DeskInv(View()) && AllWellFormed(steps[..k])
        invariant View() == RunFrom(d, steps[..k])
        invariant forall t :: t in executor.trades && t !in old(executor.trades) ==> fresh(t)
      {
        IngestNext(d, steps, k);
      }
      assert steps[..|steps|] == steps;
    }

    method IngestNext(ghost d: Desk, steps: seq<Step>, k: nat)
      requires Valid() && DeskInv(View()) && DeskInv(d) && AllWellFormed(steps) && k < |steps|
      requires AllWellFormed(steps[..k]) && View() == RunFrom(d, steps[..k])
      modifies this`ledger, this`seenBars, executor, executor.trades, runner, runner.controls, runner.shadowControls
      ensures Valid() && DeskInv(View()) && AllWellFormed(steps[..k + 1])
      ensures View() == RunFrom(d, steps[..k + 1])
      ensures forall t :: t in executor.trades && t !in old(executor.trades) ==> fresh(t)
    {
      hide *;
      RunFromStep(d, steps, k);
      IngestBar(steps[k].bar, steps[k].signals, steps[k].allowEntries);
    }

    /** A new process: the executor from the ledger, the counters from the executor, no bar seen. */
    method Boot()
      requires Valid() && DeskInv(View())
      modifies this, executor
      ensures Valid() && View().trades == Restart(old(View())).trades
      ensures View().ledger == old(View()).ledger && View().seen == {}
      ensures forall research, slot ::
        Count(Plane(View(), research), slot) == Count(Plane(Restart(old(View())), research), slot)
      ensures DeskInv(View())
      ensures fresh(runner) && fresh(runner.controls) && fresh(runner.shadowControls)
      ensures forall t :: t in executor.trades ==> fresh(t)
    {
      hide *;
      ghost var d := View();
      LedgerIsSound(d);
      var rows := LoadRows(ledger);
      RestoreRows(rows);
      RebuildControls();
      BootedDesk(d, View());
    }

    /** A new runner whose counters are those of the unresolved trades in the index. */
    method RebuildControls()
      requires executor.Valid() && IdsNamed(executor) && Separate(Views(executor.trades))
      modifies this`runner, this`seenBars
      ensures Valid() && fresh(runner) && fresh(runner.controls) && fresh(runner.shadowControls)
      ensures seenBars == {}
      ensures Mirrors(runner.controls.View(), Views(executor.trades), false)
      ensures Mirrors(runner.shadowControls.View(), Views(executor.trades), true)
    {
      hide Mirrors, Separate, EngineControls.View, Views, PaperExecutor.Valid, AllNamed, Distinct;
      var engine := new EngineRunner(false);
      var active := executor.ActiveTrades();
      OpenActive(active, engine);
      ActiveMirrors(executor.trades, active, engine.controls.View(), engine.shadowControls.View());
      runner, seenBars := engine, {};
    }

    method RestoreRows(rows: seq<PaperTrade>)
      requires Separate(Views(rows)) && AllSound(Views(rows))
      modifies executor
      ensures executor.Valid() && IdsNamed(executor)
      ensures Views(executor.trades) == Views(rows)
      ensures forall t :: t in executor.trades ==> t in rows
    {
      executor.Restore(rows);
      DedupeSeparate(Views(rows));
      RowsNamed(rows, executor.trades, executor.byAlertId.Keys);
    }
  }

  /** The stored rows as trade objects. */
  method LoadRows(ledger: seq<Trade>) returns (rows: seq<PaperTrade>)
    ensures Views(rows) == ledger && fresh(rows)
  {
    rows := [];
    for k := 0 to |ledger|
      invariant Views(rows) == ledger[..k] && fresh(rows)
    {
      var row := new PaperTrade(ledger[k]);
      rows := rows + [row];
    }
  }

  /** Counts every open trade on its plane. */
  method OpenActive(active: seq<PaperTrade>, engine: EngineRunner)
    requires engine.controls != engine.shadowControls
    requires engine.controls.View() == NO_COUNTS && engine.shadowControls.View() == NO_COUNTS
    requires forall t :: t in active ==> t.IsActive()
    modifies engine.controls, engine.shadowControls
    ensures Mirrors(engine.controls.View(), Views(active), false)
    ensures Mirrors(engine.shadowControls.View(), Views(active), true)
  {
    ghost var ts := Views(active);
    assert Mirrors(NO_COUNTS, [], false) && Mirrors(NO_COUNTS, [], true);
    forall k | 0 <= k < |ts| ensures Active(ts[k]) {
      assert active[k] in active;
    }
    hide Mirrors, RegisterOpen, EngineControls.View, PaperTrade.View;
    for k := 0 to |active|
      invariant Views(active) == ts
      invariant Mirrors(engine.controls.View(), ts[..k], false)
      invariant Mirrors(engine.shadowControls.View(), ts[..k], true)
    {
      var t := active[k];
      OpenMirrors(engine.controls.View(), ts[..k], ts[k], false);
      OpenMirrors(engine.shadowControls.View(), ts[..k], ts[k], true);
      assert ts[..k + 1] == ts[..k] + [ts[k]];
      if t.plan.researchOnly {
        engine.shadowControls.Open(t.plan.key);
      } else {
        engine.controls.Open(t.plan.key);
      }
    }
    assert ts[..|ts|] == ts;
  }

  /** Counters that mirror the open trades, in whatever order, mirror all trades. */
  lemma ActiveMirrors(ts: seq<PaperTrade>, active: seq<PaperTrade>, live: Counters, research: Counters)
    requires Separate(Views(ts)) && Distinct(active)
    requires forall t :: t in active ==> t in ts && t.IsActive()
    requires forall t :: t in ts && t.IsActive() ==> t in active
    requires Mirrors(live, Views(active), false) && Mirrors(research, Views(active), true)
    ensures Mirrors(live, Views(ts), false) && Mirrors(research, Views(ts), true)
  {
    hide Tally, OpenPlans, Distinct;
    SeparateActive(ts, active);
    forall plane, slot ensures Tally(Views(active), plane, slot) == Tally(Views(ts), plane, slot) {
      TallyIsOpenPlans(Views(active), plane, slot);
      TallyIsOpenPlans(Views(ts), plane, slot);
      ActivePlans(ts, active, plane, slot);
    }
  }

  lemma SeparateActive(ts: seq<PaperTrade>, active: seq<PaperTrade>)
    requires Separate(Views(ts)) && Distinct(active)
    requires forall t :: t in active ==> t in ts
    ensures Separate(Views(active))
  {
    hide PaperTrade.View;
    forall j, k | 0 <= j < k < |active|
      ensures active[j].plan.alertId != active[k].plan.alertId && active[j].plan.key != active[k].plan.key
    {
      assert active[j] in active && active[k] in active;
      var m :| 0 <= m < |ts| && ts[m] == active[j];
      var n :| 0 <= n < |ts| && ts[n] == active[k];
      assert Views(ts)[m].plan == ts[m].plan && Views(ts)[n].plan == ts[n].plan;
    }
    assert forall k :: 0 <= k < |active| ==> Views(active)[k].plan == active[k].plan;
  }

  lemma ActivePlans(ts: seq<PaperTrade>, active: seq<PaperTrade>, research: bool, slot: Slot)
    requires forall t :: t in active ==> t in ts && t.IsActive()
    requires forall t :: t in ts && t.IsActive() ==> t in active
    ensures OpenPlans(Views(active), research, slot) == OpenPlans(Views(ts), research, slot)
  {
    hide PaperTrade.View, InSlot;
    forall k | 0 <= k < |active| && Holds(Views(active)[k], research, slot)
      ensures Views(active)[k].plan in OpenPlans(Views(ts), research, slot)
    {
      assert active[k] in active;
      var m :| 0 <= m < |ts| && ts[m] == active[k];
      assert Views(ts)[m] == Views(active)[k];
    }
    forall m | 0 <= m < |ts| && Holds(Views(ts)[m], research, slot)
      ensures Views(ts)[m].plan in OpenPlans(Views(active), research, slot)
    {
      assert ts[m] in ts && ts[m].IsActive();
      var k :| 0 <= k < |active| && active[k] == ts[m];
      assert Views(active)[k] == Views(ts)[m];
    }
  }

  lemma RowsNamed(rows: seq<PaperTrade>, ts: seq<PaperTrade>, ids: set<string>)
    requires ids == set r | r in rows :: r.plan.alertId
    requires Views(ts) == Views(rows)
    ensures AllNamed(ids, ts)
  {
    hide PaperTrade.View;
    forall id | id in ids ensures exists t :: t in ts && t.plan.alertId == id {
      var r :| r in rows && r.plan.alertId == id;
      var k :| 0 <= k < |rows| && rows[k] == r;
      assert Views(rows)[k].plan == rows[k].plan && Views(ts)[k].plan == ts[k].plan;
      assert ts[k] in ts;
    }
  }

  /** A desk with the ledger's trades and counters that mirror them is the restarted desk. */
  lemma BootedDesk(d: Desk, v: Desk)
    requires DeskInv(d) && v.trades == d.ledger && v.ledger == d.ledger
    requires Mirrors(v.live, v.trades, false) && Mirrors(v.research, v.trades, true)
    ensures DeskInv(v) && v.trades == Restart(d).trades
    ensures forall research, slot :: Count(Plane(v, research), slot) == Count(Plane(Restart(d), research), slot)
  {
    hide Dedupe, OpenAll, Count, Tally, Separate, Recorded;
    RestartKeepsInv(d);
  }

  lemma LedgerIsSound(d: Desk)
    requires DeskInv(d)
    ensures Separate(d.ledger) && AllSound(d.ledger)
  {
    hide Dedupe, OpenAll, Mirrors;
    RestartKeepsInv(d);
  }

  lemma RunFromNothing(d: Desk, steps: seq<Step>)
    requires DeskInv(d)
    ensures AllWellFormed(steps[..0]) && RunFrom(d, steps[..0]) == d
  {
    hide DeskInv;
  }

  lemma RunFromStep(d: Desk, steps: seq<Step>, k: nat)
    requires DeskInv(d) && AllWellFormed(steps) && k < |steps|
    ensures WellFormed(Step(steps[k].bar, steps[k].signals, steps[k].allowEntries))
    ensures AllWellFormed(steps[..k]) && AllWellFormed(steps[..k + 1])
    ensures RunFrom(d, steps[..k + 1]) == DeskStep(RunFrom(d, steps[..k]), steps[k])
  {
    hide DeskInv, DeskStep, WellFormed;
    assert steps[..k + 1][..k] == steps[..k];
    assert steps[k] == Step(steps[k].bar, steps[k].signals, steps[k].allowEntries);
  }

  /** Every id in the dictionary belongs to a tracked trade. */
  ghost predicate IdsNamed(executor: PaperExecutor)
    reads executor
  {
    AllNamed(executor.byAlertId.Keys, executor.trades)
  }

  ghost predicate AllNamed(ids: set<string>, ts: seq<PaperTrade>) {
    forall id :: id in ids ==> exists t :: t in ts && t.plan.alertId == id
  }

  lemma OneMoreNamed(ids: set<string>, ts: seq<PaperTrade>, trade: PaperTrade)
    requires AllNamed(ids, ts)
    ensures AllNamed(ids + {trade.plan.alertId}, ts + [trade])
  {
    forall id | id in ids + {trade.plan.alertId} ensures exists t :: t in ts + [trade] && t.plan.alertId == id {
      if id in ids {
        var t :| t in ts && t.plan.alertId == id;
        assert t in ts + [trade];
      } else {
        assert trade in ts + [trade];
      }
    }
  }

  lemma ViewsAppend(ts: seq<PaperTrade>, t: PaperTrade)
    ensures Views(ts + [t]) == Views(ts) + [t.View()]
  {
  }

  lemma PlanResearch(b: Bar, sig: Signal, research: bool)
    requires sig.draft.Some?
    ensures PlanOf(b, sig, research).researchOnly == research
  {
  }

  lemma ViewsKnow(ts: seq<PaperTrade>, t: PaperTrade, p: Plan)
    requires t in ts && (t.plan.alertId == p.alertId || t.plan.key == p.key)
    ensures Known(Views(ts), p)
  {
    hide PaperTrade.View;
    var k :| 0 <= k < |ts| && ts[k] == t;
    assert Views(ts)[k].plan == t.plan;
  }

  lemma KnownView(ts: seq<PaperTrade>, p: Plan) returns (t: PaperTrade)
    requires Known(Views(ts), p)
    ensures t in ts && (t.plan.alertId == p.alertId || t.plan.key == p.key)
  {
    hide PaperTrade.View;
    var k :| 0 <= k < |ts| && (Views(ts)[k].plan.alertId == p.alertId || Views(ts)[k].plan.key == p.key);
    t := ts[k];
  }

  /** The key dictionaries answer exactly whether a plan is known. */
  lemma KnownByKey(executor: PaperExecutor, p: Plan)
    requires executor.Valid() && IdsNamed(executor)
    ensures Known(Views(executor.trades), p) <==> p.alertId in executor.byAlertId || p.key in executor.byPlanKey
  {
    hide PaperTrade.View, PaperTrade.Sound, Indexes, Distinct, Known, Views;
    var ts := executor.trades;
    if p.alertId in executor.byAlertId {
      var t :| t in ts && t.plan.alertId == p.alertId;
      ViewsKnow(ts, t, p);
    }
    if p.key in executor.byPlanKey {
      ViewsKnow(ts, executor.byPlanKey[p.key], p);
    }
    if Known(Views(ts), p) {
      var t := KnownView(ts, p);
    }
  }

  lemma ComposedStep(d: Desk, b: Bar, setups: seq<Signal>, k: nat, research: bool)
    requires k < |setups|
    ensures RecordAll(d, Composed(b, setups[..k + 1], research)) ==
      (if setups[k].draft.Some?
        then Record(RecordAll(d, Composed(b, setups[..k], research)), PlanOf(b, setups[k], research))
       else RecordAll(d, Composed(b, setups[..k], research)))
    ensures setups[k].draft.Some? ==> PlanOf(b, setups[k], research) in Composed(b, setups, research)
  {
    hide Record, PlanOf;
    assert setups[..k + 1][..k] == setups[..k];
    var plans := Composed(b, setups[..k], research);
    if setups[k].draft.Some? {
      var p := PlanOf(b, setups[k], research);
      assert (plans + [p])[..|plans|] == plans;
      ComposedHas(b, setups, k, research);
    } else {
      assert plans + [] == plans;
    }
  }

  lemma {:induction false} ComposedHas(b: Bar, setups: seq<Signal>, k: nat, research: bool)
    requires k < |setups| && setups[k].draft.Some?
    ensures PlanOf(b, setups[k], research) in Composed(b, setups, research)
  {
    hide PlanOf;
    if k < |setups| - 1 {
      ComposedHas(b, setups[..|setups| - 1], k, research);
    }
  }

  lemma CloseNothing(live: Counters, research: Counters, stored: seq<Trade>)
    ensures CloseAll(live, [], false) == live && CloseAll(research, [], true) == research
    ensures UpsertAll(stored, []) == stored
  {
  }

  lemma CloseStep(live: Counters, research: Counters, stored: seq<Trade>, rows: seq<Trade>, k: nat)
    requires k < |rows|
    ensures var p := rows[k].plan;
      && CloseAll(live, rows[..k + 1], false)
         == (if p.researchOnly then CloseAll(live, rows[..k], false)
             else RegisterClose(CloseAll(live, rows[..k], false), p.key))
      && CloseAll(research, rows[..k + 1], true)
         == (if p.researchOnly then RegisterClose(CloseAll(research, rows[..k], true), p.key)
             else CloseAll(research, rows[..k], true))
      && UpsertAll(stored, rows[..k + 1]) == Upsert(UpsertAll(stored, rows[..k]), rows[k])
  {
    hide RegisterClose, Upsert;
    assert rows[..k + 1][..k] == rows[..k];
  }

  /** Feeding the objects is feeding their values, and the settled objects are the settled values. */
  lemma {:induction false} FedViews(before: map<PaperTrade, Trade>, ts: seq<PaperTrade>, b: Bar, olds: seq<Trade>,
                                    gone: set<PaperTrade>)
    requires Fed(before, ts, b)
    requires |olds| == |ts| && (forall k :: 0 <= k < |ts| ==> ts[k] in before && olds[k] == before[ts[k]])
      && AllSound(olds)
    requires forall t :: t in ts ==> t in before && (t in gone <==> Active(before[t]) && !t.IsActive())
    ensures Views(ts) == FeedEach(olds, b)
    ensures Views(Pick(ts, gone)) == SettledBy(olds, b)
  {
    hide Feed;
    if ts != [] {
      var front, last := ts[..|ts| - 1], ts[|ts| - 1];
      FedViews(before, front, b, olds[..|ts| - 1], gone);
    }
  }

  lemma {:induction false} RecordAllSplit(d: Desk, xs: seq<Plan>, ys: seq<Plan>)
    ensures RecordAll(RecordAll(d, xs), ys) == RecordAll(d, xs + ys)
  {
    hide Record;
    if ys == [] {
      assert xs + ys == xs;
    } else {
      RecordAllSplit(d, xs, ys[..|ys| - 1]);
      assert (xs + ys)[..|xs + ys| - 1] == xs + ys[..|ys| - 1];
    }
  }

  function WithSeen(d: Desk, b: Bar): (e: Desk)
    ensures e.trades == d.trades
  {
    d.(seen := d.seen + {(b.symbol, b.ts)})
  }

  /** A step, spelled out from the state in which the bar is already marked as seen. */
  lemma StepUnfolds(d: Desk, s: Step)
    requires AllSound(d.trades)
    ensures Consumed(d, s.bar) ==> DeskStep(d, s) == d
    ensures !Consumed(d, s.bar) ==>
      var marked := WithSeen(d, s.bar); var e := SettleBar(marked, s.bar).(seen := marked.seen);
      && DeskStep(d, s) == (if s.allowEntries then RecordAll(e, PlansOf(e, s)) else e)
      && PlansOf(e, s) == Composed(s.bar, Emitted(e.live, e.research, false, s.bar.symbol, s.signals), false)
           + Composed(s.bar, Monitored(e.live, e.research, false, s.bar.symbol, s.signals), true)
  {
    hide Feed, FeedEach, SettledBy, CloseAll, UpsertAll, RecordAll, Emitted, Monitored, Composed;
  }
}
