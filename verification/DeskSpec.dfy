/** The paper desk on values: one step per bar, and a restart from the ledger. */
module DeskSpec {
  import opened Market
  import opened PaperTrades
  import opened PaperReplay
  import opened Controls

  /**
   * Trades in order of tracking, counters of the live and the research plane, the stored ledger in
   * order of last write, and the bars already consumed.
   */
  datatype Desk = Desk(
    trades: seq<Trade>,
    live: Counters,
    research: Counters,
    ledger: seq<Trade>,
    seen: set<(string, int)>)

  const EMPTY_DESK := Desk([], NO_COUNTS, NO_COUNTS, [], {})

  /** One bar, what the strategies make of it, and whether new entries are published. */
  datatype Step = Step(bar: Bar, signals: seq<Signal>, allowEntries: bool)

  function Plane(d: Desk, research: bool): Counters {
    if research then d.research else d.live
  }

  predicate Sound(t: Trade) {
    Playable(t.plan) && t.tranches <= |t.plan.targets|
  }

  ghost predicate AllSound(ts: seq<Trade>) {
    forall k :: 0 <= k < |ts| ==> Sound(ts[k])
  }

  // ----- the ledger -----

  function Without(ledger: seq<Trade>, alertId: string): seq<Trade> {
    if ledger == [] then []
    else Without(ledger[..|ledger| - 1], alertId)
         + (if ledger[|ledger| - 1].plan.alertId == alertId then [] else [ledger[|ledger| - 1]])
  }

  /** Writes a row under its alert id; the row written last is read last. */
  function Upsert(ledger: seq<Trade>, row: Trade): seq<Trade> {
    Without(ledger, row.plan.alertId) + [row]
  }

  function UpsertAll(ledger: seq<Trade>, rows: seq<Trade>): seq<Trade> {
    if rows == [] then ledger else Upsert(UpsertAll(ledger, rows[..|rows| - 1]), rows[|rows| - 1])
  }

  // ----- one bar -----

  function FeedEach(ts: seq<Trade>, b: Bar): (r: seq<Trade>)
    requires AllSound(ts)
    ensures |r| == |ts| && forall k :: 0 <= k < |ts| ==> r[k] == Feed(ts[k], b)
    ensures AllSound(r)
  {
    if ts == [] then [] else FeedEach(ts[..|ts| - 1], b) + [Feed(ts[|ts| - 1], b)]
  }

  /** The final states of the trades that this bar settles. */
  function SettledBy(ts: seq<Trade>, b: Bar): seq<Trade>
    requires AllSound(ts)
  {
    if ts == [] then []
    else
      var last := ts[|ts| - 1];
      var next := Feed(last, b);
      SettledBy(ts[..|ts| - 1], b) + (if Active(last) && !Active(next) then [next] else [])
  }

  /** Closes, on one plane, everything that settled there. */
  function CloseAll(c: Counters, settled: seq<Trade>, research: bool): Counters {
    if settled == [] then c
    else
      var last := settled[|settled| - 1].plan;
      var rest := CloseAll(c, settled[..|settled| - 1], research);
      if last.researchOnly == research then RegisterClose(rest, last.key) else rest
  }

  function SettleBar(d: Desk, b: Bar): Desk
    requires AllSound(d.trades)
  {
    var settled := SettledBy(d.trades, b);
    Desk(FeedEach(d.trades, b), CloseAll(d.live, settled, false), CloseAll(d.research, settled, true),
         UpsertAll(d.ledger, settled), d.seen + {(b.symbol, b.ts)})
  }

  predicate Known(ts: seq<Trade>, p: Plan) {
    exists k :: 0 <= k < |ts| && (ts[k].plan.alertId == p.alertId || ts[k].plan.key == p.key)
  }

  /** Tracks a plan once, writes its first ledger row and counts it on its plane. */
  function Record(d: Desk, p: Plan): Desk {
    if Known(d.trades, p) then d
    else
      var e := d.(trades := d.trades + [NewTrade(p)], ledger := Upsert(d.ledger, NewTrade(p)));
      if p.researchOnly then e.(research := RegisterOpen(d.research, p.key))
      else e.(live := RegisterOpen(d.live, p.key))
  }

  function RecordAll(d: Desk, plans: seq<Plan>): Desk {
    if plans == [] then d else Record(RecordAll(d, plans[..|plans| - 1]), plans[|plans| - 1])
  }

  function PlanOf(b: Bar, sig: Signal, research: bool): Plan
    requires sig.draft.Some?
  {
    var draft := sig.draft.value;
    Plan(draft.alertId, KeyOf(b, sig), draft.direction, draft.entry, draft.stop, draft.targets, draft.validUntil,
      research)
  }

  /** The plans that the composer made of some setups. */
  function Composed(b: Bar, setups: seq<Signal>, research: bool): seq<Plan> {
    if setups == [] then []
    else
      var last := setups[|setups| - 1];
      Composed(b, setups[..|setups| - 1], research) + (if last.draft.Some? then [PlanOf(b, last, research)] else [])
  }

  /** Gates read the counters as the bar's settlements left them; live setups are recorded first. */
  function PlansOf(d: Desk, s: Step): seq<Plan> {
    Composed(s.bar, Emitted(d.live, d.research, false, s.bar.symbol, s.signals), false)
    + Composed(s.bar, Monitored(d.live, d.research, false, s.bar.symbol, s.signals), true)
  }

  predicate Consumed(d: Desk, b: Bar) {
    (b.symbol, b.ts) in d.seen
  }

  function DeskStep(d: Desk, s: Step): Desk
    requires AllSound(d.trades)
  {
    if Consumed(d, s.bar) then d
    else
      var e := SettleBar(d, s.bar);
      if s.allowEntries then RecordAll(e, PlansOf(e, s)) else e
  }

  // ----- restart -----

  function OpenAll(c: Counters, ts: seq<Trade>, research: bool): Counters {
    if ts == [] then c
    else
      var last := ts[|ts| - 1];
      var rest := OpenAll(c, ts[..|ts| - 1], research);
      if Active(last) && last.plan.researchOnly == research then RegisterOpen(rest, last.plan.key) else rest
  }

  /** What a new process makes of the stored ledger. */
  function Restart(d: Desk): Desk {
    var trades := Dedupe(d.ledger);
    Desk(trades, OpenAll(NO_COUNTS, trades, false), OpenAll(NO_COUNTS, trades, true), d.ledger, {})
  }

  // ----- what is kept -----

  /** Whether a trade is an open or pending plan of one plane in one slot. */
  predicate Holds(t: Trade, research: bool, slot: Slot) {
    Active(t) && t.plan.researchOnly == research && InSlot(t.plan.key, slot)
  }

  function Tally(ts: seq<Trade>, research: bool, slot: Slot): nat {
    if ts == [] then 0
    else Tally(ts[..|ts| - 1], research, slot) + One(Holds(ts[|ts| - 1], research, slot))
  }

  ghost predicate Mirrors(c: Counters, ts: seq<Trade>, research: bool) {
    forall slot :: Count(c, slot) == Tally(ts, research, slot)
  }

  /** No two trades share an alert id or a plan. */
  ghost predicate Separate(ts: seq<Trade>) {
    forall j, k :: 0 <= j < k < |ts| ==>
      ts[j].plan.alertId != ts[k].plan.alertId && ts[j].plan.key != ts[k].plan.key
  }

  /** The ledger holds exactly one row per trade: its first one, or its settled state. */
  ghost predicate Recorded(ts: seq<Trade>, ledger: seq<Trade>) {
    && Separate(ledger)
    && (forall t :: t in ts ==> LedgerRow(t) in ledger)
    && (forall r :: r in ledger ==> exists t :: t in ts && LedgerRow(t) == r)
  }

  ghost predicate DeskInv(d: Desk) {
    && AllSound(d.trades)
    && Separate(d.trades)
    && Recorded(d.trades, d.ledger)
    && Mirrors(d.live, d.trades, false)
    && Mirrors(d.research, d.trades, true)
  }

  /** What the strategies and the composer may hand over with a bar. */
  ghost predicate WellFormed(s: Step) {
    && (forall j, k :: 0 <= j < k < |s.signals| ==> s.signals[j].strategy != s.signals[k].strategy)
    && (forall sig :: sig in s.signals && sig.draft.Some? ==>
          sig.draft.value.entry != sig.draft.value.stop && |sig.draft.value.targets| <= 3)
  }
}
