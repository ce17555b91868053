/** What holds on every run of the desk, crashes and restarts included. */
module DeskTheorems {
  import opened Prelude
  import opened Market
  import opened PaperTrades
  import opened Controls
  import opened DeskSpec
  import opened DeskSteps
  import opened DeskRuns

  datatype Event = OnBar(step: Step) | Reboot

  ghost predicate Proper(events: seq<Event>) {
    forall k :: 0 <= k < |events| ==> events[k].OnBar? ==> WellFormed(events[k].step)
  }

  function After(d: Desk, e: Event): Desk
    requires AllSound(d.trades)
  {
    match e
    case OnBar(s) => DeskStep(d, s)
    case Reboot => Restart(d)
  }

  ghost function Run(events: seq<Event>): (d: Desk)
    requires Proper(events)
    ensures DeskInv(d)
  {
    if events == [] then
      EMPTY_DESK
    else
      var d := Run(events[..|events| - 1]);
      AfterKeepsInv(d, events[|events| - 1]);
      After(d, events[|events| - 1])
  }

  lemma AfterKeepsInv(d: Desk, e: Event)
    requires DeskInv(d) && (e.OnBar? ==> WellFormed(e.step))
    ensures DeskInv(After(d, e))
  {
    hide DeskInv, WellFormed, Restart, DeskStep;
    if e.OnBar? {
      StepKeepsInv(d, e.step);
    } else {
      RestartKeepsInv(d);
    }
  }

  /**
   * On every run, on both planes, every counter is the number of open or pending plans it stands
   * for, so closing one never meets the floor at zero.
   */
  lemma CountersMirrorTheBook(events: seq<Event>, research: bool, slot: Slot)
    requires Proper(events)
    ensures var d := Run(events);
      Count(Plane(d, research), slot) == Tally(d.trades, research, slot)
      == |OpenPlans(d.trades, research, slot)|
    ensures forall b ::
      Held(SettledBy(Run(events).trades, b), research, slot) <= Count(Plane(Run(events), research), slot)
  {
    hide Run, Count, InSlot;
    var d := Run(events);
    TallyIsOpenPlans(d.trades, research, slot);
    forall b ensures Held(SettledBy(d.trades, b), research, slot) <= Count(Plane(d, research), slot) {
      SettleTally(d.trades, b, research, slot);
    }
  }

  // ----- caps -----

  /** How many of a bar's signals would be counted in a slot. */
  function Fires(b: Bar, signals: seq<Signal>, slot: Slot): nat {
    if signals == [] then 0
    else Fires(b, signals[..|signals| - 1], slot) + One(InSlot(KeyOf(b, signals[|signals| - 1]), slot))
  }

  function PlansIn(plans: seq<Plan>, research: bool, slot: Slot): nat {
    if plans == [] then 0
    else
      var last := plans[|plans| - 1];
      PlansIn(plans[..|plans| - 1], research, slot) + One(last.researchOnly == research && InSlot(last.key, slot))
  }

  lemma {:induction false} PlansInSplit(xs: seq<Plan>, ys: seq<Plan>, research: bool, slot: Slot)
    ensures PlansIn(xs + ys, research, slot) == PlansIn(xs, research, slot) + PlansIn(ys, research, slot)
  {
    hide InSlot;
    if ys == [] {
      assert xs + ys == xs;
    } else {
      PlansInSplit(xs, ys[..|ys| - 1], research, slot);
      assert (xs + ys)[..|xs + ys| - 1] == xs + ys[..|ys| - 1];
    }
  }

  lemma {:induction false} RecordAllTally(d: Desk, plans: seq<Plan>, research: bool, slot: Slot)
    ensures Tally(RecordAll(d, plans).trades, research, slot)
      <= Tally(d.trades, research, slot) + PlansIn(plans, research, slot)
  {
    hide InSlot, Upsert, RegisterOpen, Known;
    if plans != [] {
      var front, last := plans[..|plans| - 1], plans[|plans| - 1];
      RecordAllTally(d, front, research, slot);
      TallyAppend(RecordAll(d, front).trades, NewTrade(last), research, slot);
    }
  }

  lemma {:induction false} NoPlans(plans: seq<Plan>, research: bool, slot: Slot)
    requires forall p :: p in plans ==> !(p.researchOnly == research && InSlot(p.key, slot))
    ensures PlansIn(plans, research, slot) == 0
  {
    hide InSlot;
    if plans != [] {
      NoPlans(plans[..|plans| - 1], research, slot);
    }
  }

  /** The plans of one route are at most as many as the signals that fired, and all on one plane. */
  lemma {:induction false} EmittedFires(live: Counters, research: Counters, b: Bar, signals: seq<Signal>, slot: Slot)
    ensures var plans := Composed(b, Emitted(live, research, false, b.symbol, signals), false);
      PlansIn(plans, false, slot) <= Fires(b, signals, slot) && PlansIn(plans, true, slot) == 0
  {
    if signals != [] {
      var front, last := signals[..|signals| - 1], signals[|signals| - 1];
      EmittedFires(live, research, b, front, slot);
      var before := Emitted(live, research, false, b.symbol, front);
      var emitted := ScoreAndGate(live, research, false, b.symbol, last).Emit?;
      assert Emitted(live, research, false, b.symbol, signals) == if emitted then before + [last] else before;
      hide *;
      FiresNext(b, signals, slot);
      ComposedNext(b, before, last, false, slot);
    } else {
      FiresNone(b, slot);
    }
  }

  lemma {:induction false} MonitoredFires(live: Counters, research: Counters, b: Bar, signals: seq<Signal>, slot: Slot)
    ensures var plans := Composed(b, Monitored(live, research, false, b.symbol, signals), true);
      PlansIn(plans, true, slot) <= Fires(b, signals, slot) && PlansIn(plans, false, slot) == 0
  {
    if signals != [] {
      var front, last := signals[..|signals| - 1], signals[|signals| - 1];
      MonitoredFires(live, research, b, front, slot);
      var before := Monitored(live, research, false, b.symbol, front);
      var monitored := ScoreAndGate(live, research, false, b.symbol, last).Monitor?;
      assert Monitored(live, research, false, b.symbol, signals) == if monitored then before + [last] else before;
      hide *;
      FiresNext(b, signals, slot);
      ComposedNext(b, before, last, true, slot);
    } else {
      FiresNone(b, slot);
    }
  }

  lemma FiresNone(b: Bar, slot: Slot)
    ensures Fires(b, [], slot) == 0
  {
  }

  lemma FiresNext(b: Bar, signals: seq<Signal>, slot: Slot)
    requires signals != []
    ensures Fires(b, signals, slot)
      == Fires(b, signals[..|signals| - 1], slot) + One(InSlot(KeyOf(b, signals[|signals| - 1]), slot))
  {
  }

  lemma ComposedNext(b: Bar, setups: seq<Signal>, sig: Signal, research: bool, slot: Slot)
    ensures PlansIn(Composed(b, setups + [sig], research), research, slot)
      <= PlansIn(Composed(b, setups, research), research, slot) + One(InSlot(KeyOf(b, sig), slot))
    ensures PlansIn(Composed(b, setups + [sig], research), !research, slot)
      == PlansIn(Composed(b, setups, research), !research, slot)
  {
    hide InSlot, KeyOf, PlanOf;
    assert (setups + [sig])[..|setups|] == setups;
    var plans := Composed(b, setups, research);
    if sig.draft.Some? {
      PlanPlane(b, sig, research);
      var p := PlanOf(b, sig, research);
      assert Composed(b, setups + [sig], research) == plans + [p];
      assert (plans + [p])[..|plans|] == plans;
    } else {
      assert Composed(b, setups + [sig], research) == plans;
    }
  }

  lemma BarPlansBounded(d: Desk, s: Step, research: bool, slot: Slot)
    ensures PlansIn(PlansOf(d, s), research, slot) <= Fires(s.bar, s.signals, slot)
  {
    hide Fires;
    EmittedFires(d.live, d.research, s.bar, s.signals, slot);
    MonitoredFires(d.live, d.research, s.bar, s.signals, slot);
    PlansInSplit(Composed(s.bar, Emitted(d.live, d.research, false, s.bar.symbol, s.signals), false),
                 Composed(s.bar, Monitored(d.live, d.research, false, s.bar.symbol, s.signals), true), research, slot);
  }

  /** A slot at its cap admits nothing on the next bar. */
  lemma FullSlotAdmitsNothing(d: Desk, s: Step, research: bool, slot: Slot)
    requires Count(Plane(d, research), slot) >= Cap(slot)
    ensures PlansIn(PlansOf(d, s), research, slot) == 0
  {
    hide PlansOf, Count, InSlot, Cap, RunGates, PlanOf, KeyOf;
    forall p | p in PlansOf(d, s) && p.researchOnly == research && InSlot(p.key, slot) ensures false {
      var sig := PlanFrom(d, s, p);
      PlanPlane(s.bar, sig, p.researchOnly);
      GatesLeaveRoom(Plane(d, research), s.bar, sig, if p.researchOnly then 1.0 else sig.confidence, slot);
    }
    NoPlans(PlansOf(d, s), research, slot);
  }

  /** One event: a slot either does not grow, or ends at most `cap - 1` plus what fired on the bar. */
  lemma StepWithinSlack(d: Desk, s: Step, research: bool, slot: Slot)
    requires DeskInv(d)
    ensures var n := Tally(DeskStep(d, s).trades, research, slot);
      n <= Tally(d.trades, research, slot) || n <= Cap(slot) - 1 + Fires(s.bar, s.signals, slot)
  {
    hide SettledBy, Tally, Cap, PlansOf, RecordAll, Count, InSlot, Fires, SettleBar;
    if !Consumed(d, s.bar) {
      var e := SettleBar(d, s.bar);
      SettleOnlyTakes(d, s.bar, research, slot);
      SettleKeepsInv(d, s.bar);
      BarPlansBounded(e, s, research, slot);
      RecordAllTally(e, PlansOf(e, s), research, slot);
      if Count(Plane(e, research), slot) >= Cap(slot) {
        FullSlotAdmitsNothing(e, s, research, slot);
      }
    }
  }

  lemma SettleOnlyTakes(d: Desk, b: Bar, research: bool, slot: Slot)
    requires AllSound(d.trades)
    ensures Tally(SettleBar(d, b).trades, research, slot) <= Tally(d.trades, research, slot)
  {
    SettleTally(d.trades, b, research, slot);
  }

  /** On no bar do more than `width` signals fall into the slot. */
  ghost predicate AtMostPerBar(events: seq<Event>, slot: Slot, width: nat) {
    forall k :: 0 <= k < |events| ==> events[k].OnBar? ==>
      Fires(events[k].step.bar, events[k].step.signals, slot) <= width
  }

  /**
   * With at most `width` strategies firing into a slot per bar, the slot never holds more than its
   * cap, less one, plus `width`: gates run for all of a bar's signals before any plan is counted.
   */
  lemma {:induction false} SlotsStayBounded(events: seq<Event>, research: bool, slot: Slot, width: nat)
    requires Proper(events) && AtMostPerBar(events, slot, width)
    ensures Tally(Run(events).trades, research, slot) <= Cap(slot) - 1 + width
  {
    hide DeskInv, DeskStep, Restart, Fires, Cap, Holds;
    CapPositive(slot);
    if events != [] {
      var front, last := events[..|events| - 1], events[|events| - 1];
      SlotsStayBounded(front, research, slot, width);
      match last {
        case OnBar(s) => StepWithinSlack(Run(front), s, research, slot);
        case Reboot => RestartKeepsTally(Run(front), research, slot);
      }
    }
  }

  lemma CapPositive(slot: Slot)
    ensures Cap(slot) >= 1
  {
  }

  lemma {:induction false} PairFiresOnce(b: Bar, signals: seq<Signal>, symbol: string, strategy: string)
    requires forall j, k :: 0 <= j < k < |signals| ==> signals[j].strategy != signals[k].strategy
    ensures Fires(b, signals, PairSlot(symbol, strategy)) <= 1
    ensures (forall k :: 0 <= k < |signals| ==> signals[k].strategy != strategy)
      ==> Fires(b, signals, PairSlot(symbol, strategy)) == 0
  {
    if signals != [] {
      var front, last := signals[..|signals| - 1], signals[|signals| - 1];
      assert forall k :: 0 <= k < |front| ==> front[k] == signals[k];
      PairFiresOnce(b, front, symbol, strategy);
    }
  }

  /** A strategy never has two plans open on one symbol, on either plane, on any run. */
  lemma AtMostOnePerPair(events: seq<Event>, research: bool, symbol: string, strategy: string)
    requires Proper(events)
    ensures |OpenPlans(Run(events).trades, research, PairSlot(symbol, strategy))| <= 1
  {
    hide Run, Fires;
    var slot := PairSlot(symbol, strategy);
    forall k | 0 <= k < |events| && events[k].OnBar?
      ensures Fires(events[k].step.bar, events[k].step.signals, slot) <= 1
    {
      PairFiresOnce(events[k].step.bar, events[k].step.signals, symbol, strategy);
    }
    SlotsStayBounded(events, research, slot, 1);
    TallyIsOpenPlans(Run(events).trades, research, slot);
  }

  // ----- when a bar keeps a slot within its cap -----

  /** A plan shares its alert id or its key with one of some plans. */
  predicate Listed(plans: seq<Plan>, p: Plan) {
    exists k :: 0 <= k < |plans| && (plans[k].alertId == p.alertId || plans[k].key == p.key)
  }

  /** The plans of a bar that no trade and no plan before them in the bar stands in the way of. */
  function Accepted(ts: seq<Trade>, plans: seq<Plan>): seq<Plan> {
    if plans == [] then []
    else
      var last := plans[|plans| - 1];
      var before := Accepted(ts, plans[..|plans| - 1]);
      if Known(ts, last) || Listed(before, last) then before else before + [last]
  }

  function Opened(plans: seq<Plan>): (r: seq<Trade>)
    ensures |r| == |plans| && forall k :: 0 <= k < |plans| ==> r[k] == NewTrade(plans[k])
  {
    if plans == [] then [] else Opened(plans[..|plans| - 1]) + [NewTrade(plans[|plans| - 1])]
  }

  lemma KnownOrListed(ts: seq<Trade>, plans: seq<Plan>, p: Plan)
    ensures Known(ts + Opened(plans), p) <==> Known(ts, p) || Listed(plans, p)
  {
    var all := ts + Opened(plans);
    if Known(ts, p) {
      var k :| 0 <= k < |ts| && (ts[k].plan.alertId == p.alertId || ts[k].plan.key == p.key);
      assert all[k] == ts[k];
    } else if Listed(plans, p) {
      var k :| 0 <= k < |plans| && (plans[k].alertId == p.alertId || plans[k].key == p.key);
      assert all[|ts| + k] == NewTrade(plans[k]);
    } else {
      forall k | 0 <= k < |all| ensures all[k].plan.alertId != p.alertId && all[k].plan.key != p.key {
        assert all[k] == if k < |ts| then ts[k] else NewTrade(plans[k - |ts|]);
      }
    }
  }

  /** Recording opens exactly the accepted plans, in order, behind the trades that are there. */
  lemma {:induction false} RecordAllOpens(d: Desk, plans: seq<Plan>)
    ensures RecordAll(d, plans).trades == d.trades + Opened(Accepted(d.trades, plans))
  {
    hide Upsert, RegisterOpen, Known, Listed;
    if plans != [] {
      var front, last := plans[..|plans| - 1], plans[|plans| - 1];
      var before := Accepted(d.trades, front);
      RecordAllOpens(d, front);
      KnownOrListed(d.trades, before, last);
      assert (before + [last])[..|before|] == before;
    }
  }

  lemma {:induction false} OpenedTally(ts: seq<Trade>, plans: seq<Plan>, research: bool, slot: Slot)
    ensures Tally(ts + Opened(plans), research, slot) == Tally(ts, research, slot) + PlansIn(plans, research, slot)
  {
    hide InSlot;
    if plans == [] {
      assert ts + Opened(plans) == ts;
    } else {
      var front, last := plans[..|plans| - 1], plans[|plans| - 1];
      OpenedTally(ts, front, research, slot);
      TallyAppend(ts + Opened(front), NewTrade(last), research, slot);
      assert ts + Opened(plans) == (ts + Opened(front)) + [NewTrade(last)];
    }
  }

  /** Plans that no trade and no plan before them stands in the way of are all recorded. */
  lemma {:induction false} NewPlansAreAccepted(ts: seq<Trade>, plans: seq<Plan>)
    requires forall k :: 0 <= k < |plans| ==> !Known(ts, plans[k]) && !Listed(plans[..k], plans[k])
    ensures Accepted(ts, plans) == plans
  {
    hide Known, Listed;
    if plans != [] {
      var front := plans[..|plans| - 1];
      forall k | 0 <= k < |front| ensures !Known(ts, front[k]) && !Listed(front[..k], front[k]) {
        assert front[k] == plans[k] && front[..k] == plans[..k];
      }
      NewPlansAreAccepted(ts, front);
    }
  }

  /** The desk on which the gates of a bar are read, and the room that they see in a slot. */
  function Room(d: Desk, b: Bar, research: bool, slot: Slot): int
    requires AllSound(d.trades)
  {
    Cap(slot) - Count(Plane(SettleBar(d, b), research), slot)
  }

  /** The plans that a bar adds to the book. */
  function AddedBy(d: Desk, s: Step): seq<Plan>
    requires AllSound(d.trades)
  {
    var e := SettleBar(d, s.bar);
    if Consumed(d, s.bar) || !s.allowEntries then [] else Accepted(e.trades, PlansOf(e, s))
  }

  /** After a bar a slot holds what settlement left in it and the plans the bar adds there. */
  lemma BarTally(d: Desk, s: Step, research: bool, slot: Slot)
    requires DeskInv(d) && !Consumed(d, s.bar)
    ensures Tally(DeskStep(d, s).trades, research, slot)
      == Cap(slot) - Room(d, s.bar, research, slot) + PlansIn(AddedBy(d, s), research, slot)
  {
    hide SettledBy, Tally, Cap, PlansOf, RecordAll, Count, InSlot, SettleBar, Accepted;
    var e := SettleBar(d, s.bar);
    SettleKeepsInv(d, s.bar);
    if s.allowEntries {
      RecordAllOpens(e, PlansOf(e, s));
      OpenedTally(e.trades, AddedBy(d, s), research, slot);
    }
  }

  /**
   * A bar leaves a slot within its cap exactly when the plans it adds there are no more than the
   * room that its gates saw.
   */
  lemma BarKeepsCapExactly(d: Desk, s: Step, research: bool, slot: Slot)
    requires DeskInv(d) && !Consumed(d, s.bar)
    ensures Tally(DeskStep(d, s).trades, research, slot) <= Cap(slot)
      <==> PlansIn(AddedBy(d, s), research, slot) <= Room(d, s.bar, research, slot)
    ensures s.allowEntries ==>
      var e := SettleBar(d, s.bar);
      var plans := PlansOf(e, s);
      (forall k :: 0 <= k < |plans| ==> !Known(e.trades, plans[k]) && !Listed(plans[..k], plans[k]))
      ==> AddedBy(d, s) == plans
  {
    hide Tally, Cap, DeskStep, SettleBar, PlansOf, Count, Known, Listed, PlansIn;
    BarTally(d, s, research, slot);
    var plans := PlansOf(SettleBar(d, s.bar), s);
    if forall k :: 0 <= k < |plans| ==> !Known(SettleBar(d, s.bar).trades, plans[k]) && !Listed(plans[..k], plans[k]) {
      NewPlansAreAccepted(SettleBar(d, s.bar).trades, plans);
    }
  }

  /** An event adds no more plans to a slot than its gates saw room for. */
  predicate Fits(d: Desk, e: Event, research: bool, slot: Slot)
    requires AllSound(d.trades)
  {
    e.OnBar? && AddedBy(d, e.step) != [] ==>
      PlansIn(AddedBy(d, e.step), research, slot) <= Room(d, e.step.bar, research, slot)
  }

  lemma EventKeepsCapExactly(d: Desk, e: Event, research: bool, slot: Slot)
    requires DeskInv(d) && (e.OnBar? ==> WellFormed(e.step))
    requires Tally(d.trades, research, slot) <= Cap(slot)
    ensures Tally(After(d, e).trades, research, slot) <= Cap(slot) <==> Fits(d, e, research, slot)
  {
    hide Tally, Cap, Restart, SettleBar, RecordAll, PlansOf, Accepted, Count;
    match e {
      case Reboot => RestartKeepsTally(d, research, slot);
      case OnBar(s) =>
        if !Consumed(d, s.bar) {
          BarTally(d, s, research, slot);
          if AddedBy(d, s) == [] {
            SettleOnlyTakes(d, s.bar, research, slot);
            SettleKeepsInv(d, s.bar);
          }
        }
    }
  }

  ghost predicate WithinCap(events: seq<Event>, research: bool, slot: Slot)
    requires Proper(events)
  {
    Tally(Run(events).trades, research, slot) <= Cap(slot)
  }

  /** The last event of a run fits, given the run before it. */
  ghost predicate LastFits(events: seq<Event>, research: bool, slot: Slot)
    requires Proper(events) && events != []
  {
    Fits(Run(events[..|events| - 1]), events[|events| - 1], research, slot)
  }

  lemma EmptyRun(research: bool, slot: Slot)
    ensures WithinCap([], research, slot)
  {
  }

  /** A slot stays within its cap throughout a run exactly when every event of the run fits. */
  lemma {:induction false} CapHeldExactly(events: seq<Event>, research: bool, slot: Slot)
    requires Proper(events)
    ensures (forall n :: 0 <= n <= |events| ==> WithinCap(events[..n], research, slot))
      <==> (forall n :: 0 < n <= |events| ==> LastFits(events[..n], research, slot))
  {
    hide DeskInv, DeskStep, Restart, Cap, Tally, WellFormed, Fits;
    if events == [] {
      EmptyRun(research, slot);
    } else {
      var front, last := events[..|events| - 1], events[|events| - 1];
      CapHeldExactly(front, research, slot);
      assert forall n :: 0 <= n <= |front| ==> front[..n] == events[..n];
      assert events[..|events|] == events;
      if WithinCap(front, research, slot) {
        EventKeepsCapExactly(Run(front), last, research, slot);
      }
      assert front[..|front|] == front;
    }
  }

  // ----- the slack is real -----

  const SLACK_BAR := Bar("QQQ", 1000, 1, 3600, 10.0, 11.0, 9.0, 10.0, 1.0)

  function SlackSignal(strategy: string): Signal {
    Signal(strategy, ZeroDte, true, false, false, true, false, 0.8, true,
           Some(Draft("alr_" + strategy, Long, 10.0, 9.0, [11.0, 12.0, 13.0], 2000)))
  }

  function SlackSignals(): seq<Signal> {
    (([] + [SlackSignal("A")]) + [SlackSignal("B")]) + [SlackSignal("C")]
  }

  function SlackPlan(strategy: string): Plan {
    PlanOf(SLACK_BAR, SlackSignal(strategy), false)
  }

  function SlackPlans(): seq<Plan> {
    (([] + [SlackPlan("A")]) + [SlackPlan("B")]) + [SlackPlan("C")]
  }

  lemma SlackGates(strategy: string)
    ensures ScoreAndGate(NO_COUNTS, NO_COUNTS, false, "QQQ", SlackSignal(strategy)) == Emit(false)
  {
  }

  lemma SlackRoute(signals: seq<Signal>, strategy: string)
    ensures Emitted(NO_COUNTS, NO_COUNTS, false, "QQQ", signals + [SlackSignal(strategy)])
      == Emitted(NO_COUNTS, NO_COUNTS, false, "QQQ", signals) + [SlackSignal(strategy)]
    ensures Monitored(NO_COUNTS, NO_COUNTS, false, "QQQ", signals + [SlackSignal(strategy)])
      == Monitored(NO_COUNTS, NO_COUNTS, false, "QQQ", signals)
    ensures Composed(SLACK_BAR, signals + [SlackSignal(strategy)], false)
      == Composed(SLACK_BAR, signals, false) + [SlackPlan(strategy)]
  {
    SlackGates(strategy);
    hide ScoreAndGate, PlanOf;
    assert (signals + [SlackSignal(strategy)])[..|signals|] == signals;
  }

  lemma SlackEmitted()
    ensures Emitted(NO_COUNTS, NO_COUNTS, false, "QQQ", SlackSignals()) == SlackSignals()
    ensures Monitored(NO_COUNTS, NO_COUNTS, false, "QQQ", SlackSignals()) == []
    ensures Composed(SLACK_BAR, SlackSignals(), false) == SlackPlans()
  {
    hide SlackSignal, SlackPlan;
    SlackRoute([], "A");
    SlackRoute([] + [SlackSignal("A")], "B");
    SlackRoute(([] + [SlackSignal("A")]) + [SlackSignal("B")], "C");
  }

  lemma SlackDistinct()
    ensures WellFormed(Step(SLACK_BAR, SlackSignals(), true))
  {
    assert "A"[0] != "B"[0] && "B"[0] != "C"[0] && "A"[0] != "C"[0];
  }

  lemma RecordFresh(d: Desk, plans: seq<Plan>, p: Plan)
    requires forall t :: t in RecordAll(d, plans).trades ==> t.plan.alertId != p.alertId && t.plan.key != p.key
    ensures RecordAll(d, plans + [p]).trades == RecordAll(d, plans).trades + [NewTrade(p)]
  {
    hide Upsert, RegisterOpen;
    assert (plans + [p])[..|plans|] == plans;
  }

  lemma SlackPlansDiffer()
    ensures var a, b, c := SlackPlan("A"), SlackPlan("B"), SlackPlan("C");
      && a.alertId != b.alertId && a.alertId != c.alertId && b.alertId != c.alertId
      && a.key != b.key && a.key != c.key && b.key != c.key
  {
    var a, b, c := SlackPlan("A"), SlackPlan("B"), SlackPlan("C");
    assert "A"[0] != "B"[0] && "B"[0] != "C"[0] && "A"[0] != "C"[0];
    assert a.alertId[4] == 'A' && b.alertId[4] == 'B' && c.alertId[4] == 'C';
  }

  lemma SlackIsCounted(strategy: string)
    ensures Holds(NewTrade(SlackPlan(strategy)), false, ModuleSlot(ZeroDte))
  {
  }

  lemma SlackRecorded(d: Desk)
    requires d.trades == []
    ensures Tally(RecordAll(d, SlackPlans()).trades, false, ModuleSlot(ZeroDte)) == 3
  {
    hide SlackPlan, Holds, Record;
    SlackPlansDiffer();
    var a, b, c, slot := SlackPlan("A"), SlackPlan("B"), SlackPlan("C"), ModuleSlot(ZeroDte);
    RecordFresh(d, [], a);
    RecordFresh(d, [] + [a], b);
    RecordFresh(d, ([] + [a]) + [b], c);
    SlackIsCounted("A");
    SlackIsCounted("B");
    SlackIsCounted("C");
    TallyAppend([], NewTrade(a), false, slot);
    TallyAppend([] + [NewTrade(a)], NewTrade(b), false, slot);
    TallyAppend(([] + [NewTrade(a)]) + [NewTrade(b)], NewTrade(c), false, slot);
  }

  lemma FirstBar(s: Step)
    requires WellFormed(s) && s.allowEntries
    ensures Proper([OnBar(s)])
    ensures var e := EMPTY_DESK.(seen := {(s.bar.symbol, s.bar.ts)});
      Run([OnBar(s)]) == RecordAll(e, PlansOf(e, s))
  {
    hide WellFormed, PlansOf, RecordAll;
    var events := [OnBar(s)];
    assert events[..0] == [];
    assert Run(events) == After(Run(events[..0]), OnBar(s));
    assert SettledBy([], s.bar) == [];
    assert SettleBar(EMPTY_DESK, s.bar) == EMPTY_DESK.(seen := {(s.bar.symbol, s.bar.ts)});
  }

  /** Three 0DTE strategies firing on the first bar open three plans under a cap of two. */
  lemma CapCanBeExceededWithinABar()
    ensures Proper([OnBar(Step(SLACK_BAR, SlackSignals(), true))])
    ensures var d := Run([OnBar(Step(SLACK_BAR, SlackSignals(), true))]);
      Tally(d.trades, false, ModuleSlot(ZeroDte)) == 3 > Cap(ModuleSlot(ZeroDte))
  {
    hide Run, WellFormed, RecordAll, SlackSignals, SlackPlans;
    var s := Step(SLACK_BAR, SlackSignals(), true);
    SlackDistinct();
    FirstBar(s);
    var e := EMPTY_DESK.(seen := {("QQQ", 1000)});
    SlackEmitted();
    assert PlansOf(e, s) == SlackPlans();
    SlackRecorded(e);
  }
}
