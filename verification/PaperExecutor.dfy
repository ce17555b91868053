/**
 * The executor as the program keeps it: trade objects advanced in place, a list of all of them, and
 * an index of the unresolved ones by symbol. Advancing the index is advancing every trade.
 */
module PaperExecutor {
  import opened Prelude
  import opened Market
  import opened PaperTrades
  import opened PaperReplay

  class PaperTrade {
    const plan: Plan
    var filledAt: Option<int>
    var outcome: Outcome
    var exitTs: Option<int>
    var realizedR: Option<real>
    var tranches: nat
    var maeR: real
    var mfeR: real

    function View(): (t: Trade)
      reads this
      ensures t.plan == plan
    {
      Trade(plan, filledAt, outcome, exitTs, realizedR, tranches, maeR, mfeR)
    }

    predicate Sound()
      reads this
    {
      Playable(plan) && tranches <= |plan.targets|
    }

    predicate IsActive()
      reads this
      ensures IsActive() == Active(View())
    {
      Unresolved(outcome)
    }

    constructor (t: Trade)
      ensures View() == t
    {
      plan := t.plan;
      filledAt, outcome, exitTs, realizedR := t.filledAt, t.outcome, t.exitTs, t.realizedR;
      tranches, maeR, mfeR := t.tranches, t.maeR, t.mfeR;
    }

    method Settle(result: Outcome, r: Option<real>, ts: int)
      modifies this
      ensures View() == Settled(old(View()), result, r, ts)
    {
      realizedR, outcome, exitTs := r, result, Some(ts);
    }

    /** Moves the trade by one bar and reports whether it settled. */
    method Advance(b: Bar) returns (settled: bool)
      requires Sound() && IsActive()
      modifies this
      ensures Sound()
      ensures View() == PaperTrades.Advance(old(View()), b)
      ensures settled == !IsActive()
    {
      if b.ts <= NotBefore(View()) {
        return false;
      }
      if outcome.Pending? {
        if b.ts > plan.validUntil {
          outcome, exitTs := ExpiredUnfilled, Some(b.ts);
          return true;
        }
        if Touches(b, plan.entry) {
          filledAt, outcome := Some(b.ts), Open;
          if StopHit(plan, b, plan.initialStop) {
            Settle(Stopped, Some(-1.0), b.ts);
            return true;
          }
        }
        return false;
      }
      settled := AdvanceFilled(b);
    }

    method AdvanceFilled(b: Bar) returns (settled: bool)
      requires Sound() && outcome.Open?
      modifies this
      ensures Sound()
      ensures View() == AdvanceOpen(old(View()), b)
      ensures settled == !IsActive()
    {
      hide RAt, ResultAt, StopHit, TargetHit, Banked;
      var long := plan.direction.Long?;
      mfeR := Max(mfeR, RAt(plan, if long then b.high else b.low));
      maeR := Min(maeR, RAt(plan, if long then b.low else b.high));
      var stop := if tranches >= 1 then plan.entry else plan.initialStop;
      if StopHit(plan, b, stop) {
        Settle(if tranches >= 1 then StoppedAfterBe else Stopped,
               Some(ResultAt(plan, tranches, RAt(plan, stop))), b.ts);
        return true;
      }
      ghost var before := tranches;
      while tranches < |plan.targets|
        invariant before <= tranches <= |plan.targets|
        invariant TranchesAfter(plan, b, before) == TranchesAfter(plan, b, tranches)
        invariant tranches > before ==> tranches < |plan.targets|
        invariant View() == Excursions(old(View()), b).(tranches := tranches)
        decreases |plan.targets| - tranches
      {
        if !TargetHit(plan, b, plan.targets[tranches]) {
          break;
        }
        tranches := tranches + 1;
        if tranches == |plan.targets| {
          Settle(TpFull, Some(Round3(Banked(plan, tranches))), b.ts);
          return true;
        }
      }
      if plan.key.horizon.ZeroDte? && b.elapsed >= ZDTE_FLATTEN {
        Settle(FlattenedTime, Some(ResultAt(plan, tranches, RAt(plan, b.close))), b.ts);
        return true;
      }
      return false;
    }
  }

  // ----- lists of trade objects -----

  /** The members of `ts` in `keep`, in order. */
  function Pick(ts: seq<PaperTrade>, keep: set<PaperTrade>): (r: seq<PaperTrade>)
    ensures |r| <= |ts|
    ensures forall t :: t in r ==> t in ts && t in keep
    ensures forall t :: t in ts && t in keep ==> t in r
  {
    if ts == [] then []
    else Pick(ts[..|ts| - 1], keep) + (if ts[|ts| - 1] in keep then [ts[|ts| - 1]] else [])
  }

  /** The trade has moved by exactly one bar. */
  twostate predicate FedOnce(t: PaperTrade, b: Bar)
    reads t
  {
    old(t.Sound()) && t.Sound() && t.View() == Feed(old(t.View()), b)
  }

  /** The trades that were unresolved and have settled. */
  twostate function GoneSince(ts: seq<PaperTrade>): set<PaperTrade>
    reads ts
  {
    set t | t in ts && old(t.IsActive()) && !t.IsActive()
  }

  /** The unresolved trades of one symbol. */
  ghost function ActiveOn(ts: seq<PaperTrade>, symbol: string): set<PaperTrade>
    reads ts
  {
    set t | t in ts && t.IsActive() && t.plan.key.symbol == symbol
  }

  function Views(ts: seq<PaperTrade>): (r: seq<Trade>)
    reads ts
    ensures |r| == |ts|
    ensures forall k :: 0 <= k < |ts| ==> r[k] == ts[k].View()
  {
    seq(|ts|, k requires 0 <= k < |ts| reads ts => ts[k].View())
  }

  ghost predicate Distinct(ts: seq<PaperTrade>) {
    forall j, k :: 0 <= j < k < |ts| ==> ts[j] != ts[k]
  }

  lemma {:induction false} PickCongruent(ts: seq<PaperTrade>, a: set<PaperTrade>, b: set<PaperTrade>)
    requires forall t :: t in ts ==> (t in a <==> t in b)
    ensures Pick(ts, a) == Pick(ts, b)
  {
    if ts != [] {
      PickCongruent(ts[..|ts| - 1], a, b);
    }
  }

  lemma {:induction false} PickTwice(ts: seq<PaperTrade>, a: set<PaperTrade>, b: set<PaperTrade>)
    ensures Pick(Pick(ts, a), b) == Pick(ts, a * b)
  {
    if ts != [] {
      var front, last := ts[..|ts| - 1], ts[|ts| - 1];
      PickTwice(front, a, b);
      if last in a {
        PickAppend(Pick(front, a), last, b);
      } else {
        assert Pick(ts, a) == Pick(front, a);
        assert Pick(ts, a * b) == Pick(front, a * b);
      }
    }
  }

  lemma PickAppend(ts: seq<PaperTrade>, t: PaperTrade, keep: set<PaperTrade>)
    ensures Pick(ts + [t], keep) == Pick(ts, keep) + (if t in keep then [t] else [])
  {
    assert (ts + [t])[..|ts|] == ts;
  }

  lemma {:induction false} PickDistinct(ts: seq<PaperTrade>, keep: set<PaperTrade>)
    requires Distinct(ts)
    ensures Distinct(Pick(ts, keep))
  {
    if ts != [] {
      PickDistinct(ts[..|ts| - 1], keep);
    }
  }

  lemma DistinctConcat(xs: seq<PaperTrade>, ys: seq<PaperTrade>)
    requires Distinct(xs) && Distinct(ys)
    requires forall t :: t in xs ==> t !in ys
    ensures Distinct(xs + ys)
  {
    var all := xs + ys;
    forall j, k | 0 <= j < k < |all| ensures all[j] != all[k] {
      if j < |xs| <= k {
        assert all[j] in xs && all[k] in ys;
      }
    }
  }

  // ----- the index -----

  type Index = map<string, seq<PaperTrade>>

  function Listed(index: Index, symbol: string): seq<PaperTrade> {
    if symbol in index then index[symbol] else []
  }

  /** An index holds exactly the unresolved trades of a list, symbol by symbol, in order. */
  ghost predicate Indexes(index: Index, ts: seq<PaperTrade>)
    reads ts
  {
    forall symbol :: Listed(index, symbol) == Pick(ts, ActiveOn(ts, symbol))
  }

  lemma IndexesNothing()
    ensures Indexes(map[], [])
  {
  }

  function Enlisted(index: Index, t: PaperTrade): Index {
    index[t.plan.key.symbol := Listed(index, t.plan.key.symbol) + [t]]
  }

  lemma IndexesMore(index: Index, ts: seq<PaperTrade>, t: PaperTrade)
    requires Indexes(index, ts) && t !in ts
    ensures Indexes(if t.IsActive() then Enlisted(index, t) else index, ts + [t])
  {
    hide Pick, ActiveOn, PaperTrade.IsActive;
    var next := if t.IsActive() then Enlisted(index, t) else index;
    forall symbol ensures Listed(next, symbol) == Pick(ts + [t], ActiveOn(ts + [t], symbol)) {
      if t.IsActive() {
        IndexGrows(ts, t, symbol);
      } else {
        IndexSkips(ts, t, symbol);
      }
    }
  }

  /** Each plan is tracked once and found by its keys. */
  ghost predicate KeyedBy(ts: seq<PaperTrade>, byPlanKey: map<PlanKey, PaperTrade>, byAlertId: map<string, PaperTrade>)
    reads ts
  {
    && Distinct(ts)
    && (forall t :: t in ts ==> t.Sound())
    && (forall t :: t in ts ==> t.plan.key in byPlanKey && byPlanKey[t.plan.key] == t)
    && (forall key :: key in byPlanKey ==> byPlanKey[key] in ts && byPlanKey[key].plan.key == key)
    && (forall t :: t in ts ==> t.plan.alertId in byAlertId)
  }

  lemma KeyedMore(ts: seq<PaperTrade>, byPlanKey: map<PlanKey, PaperTrade>, byAlertId: map<string, PaperTrade>,
                  t: PaperTrade)
    requires KeyedBy(ts, byPlanKey, byAlertId) && t !in ts && t.Sound() && t.plan.key !in byPlanKey
    ensures KeyedBy(ts + [t], byPlanKey[t.plan.key := t], byAlertId[t.plan.alertId := t])
  {
    hide PaperTrade.Sound;
  }

  // ----- the executor -----

  class PaperExecutor {
    var trades: seq<PaperTrade>
    var active: Index
    var byAlertId: map<string, PaperTrade>
    var byPlanKey: map<PlanKey, PaperTrade>

    function Indexed(symbol: string): seq<PaperTrade>
      reads `active
    {
      Listed(active, symbol)
    }

    /** The index is exactly the unresolved trades, symbol by symbol, in order of tracking. */
    ghost predicate IndexExact()
      reads `trades, `active, trades
    {
      Indexes(active, trades)
    }

    ghost predicate Valid()
      reads this, trades
    {
      IndexExact() && Keyed()
    }

    ghost predicate Keyed()
      reads `trades, `byAlertId, `byPlanKey, trades
    {
      KeyedBy(trades, byPlanKey, byAlertId)
    }

    constructor ()
      ensures Valid() && trades == [] && byAlertId == map[]
    {
      trades, active, byAlertId, byPlanKey := [], map[], map[], map[];
    }

    /** Tracks a plan once; a plan already known by alert id or by natural key is refused. */
    method Track(trade: PaperTrade) returns (added: bool)
      requires Valid() && trade !in trades && trade.Sound() && trade.IsActive()
      modifies this
      ensures Valid()
      ensures added == (trade.plan.alertId !in old(byAlertId) && trade.plan.key !in old(byPlanKey))
      ensures trades == if added then old(trades) + [trade] else old(trades)
      ensures byAlertId.Keys == old(byAlertId).Keys + (if added then {trade.plan.alertId} else {})
    {
      hide Indexes, KeyedBy, PaperTrade.IsActive, PaperTrade.View, PaperTrade.Sound;
      if trade.plan.alertId in byAlertId || trade.plan.key in byPlanKey {
        return false;
      }
      IndexesMore(active, trades, trade);
      KeyedMore(trades, byPlanKey, byAlertId, trade);
      trades := trades + [trade];
      byAlertId := byAlertId[trade.plan.alertId := trade];
      byPlanKey := byPlanKey[trade.plan.key := trade];
      active := Enlisted(active, trade);
      return true;
    }

    /**
     * Rebuilds everything from ledger rows: one trade per plan, the most advanced of its rows, so
     * that a settled plan can never come back as pending.
     */
    method Restore(rows: seq<PaperTrade>)
      requires forall r :: r in rows ==> r.Sound()
      modifies this
      ensures Valid()
      ensures forall t :: t in trades ==> t in rows
      ensures Views(trades) == Dedupe(old(Views(rows)))
      ensures byAlertId.Keys == set r | r in rows :: r.plan.alertId
    {
      hide PaperTrade.View, PaperTrade.Sound, Indexes, KeyedBy, Views, Dedupe, Distinct;
      var kept, deduped := Survivors(rows);
      var index := BuildIndex(kept);
      var alerts := ByAlert(rows);
      assert KeyedBy(kept, deduped, alerts) by {
        SurvivorsKeyed(rows, kept, deduped, alerts);
      }
      trades, byPlanKey, byAlertId, active := kept, deduped, alerts, index;
    }

    static method Survivors(rows: seq<PaperTrade>) returns (kept: seq<PaperTrade>, deduped: map<PlanKey, PaperTrade>)
      ensures Distinct(kept) && Views(kept) == Dedupe(Views(rows))
      ensures forall t :: t in kept ==> t in rows && t.plan.key in deduped && deduped[t.plan.key] == t
      ensures forall key :: key in deduped ==> deduped[key] in kept && deduped[key].plan.key == key
    {
      hide PaperTrade.View, Views, Dedupe, Distinct, Lists;
      var keys;
      deduped, keys := MostAdvanced(rows);
      kept := InOrder(deduped, keys, Dedupe(Views(rows)));
    }

    static lemma SurvivorsKeyed(rows: seq<PaperTrade>, kept: seq<PaperTrade>, deduped: map<PlanKey, PaperTrade>,
                                alerts: map<string, PaperTrade>)
      requires forall r :: r in rows ==> r.Sound()
      requires Distinct(kept)
      requires forall t :: t in kept ==> t in rows && t.plan.key in deduped && deduped[t.plan.key] == t
      requires forall key :: key in deduped ==> deduped[key] in kept && deduped[key].plan.key == key
      requires alerts.Keys == set r | r in rows :: r.plan.alertId
      ensures KeyedBy(kept, deduped, alerts)
    {
      hide PaperTrade.Sound;
      forall t | t in kept ensures t.plan.alertId in alerts {
        assert t.plan.alertId in alerts.Keys;
      }
    }

    static method ByAlert(rows: seq<PaperTrade>) returns (r: map<string, PaperTrade>)
      ensures r.Keys == set row | row in rows :: row.plan.alertId
    {
      r := map[];
      for n := 0 to |rows|
        invariant r.Keys == set row | row in rows[..n] :: row.plan.alertId
      {
        assert rows[..n + 1] == rows[..n] + [rows[n]];
        r := r[rows[n].plan.alertId := rows[n]];
      }
      assert rows[..|rows|] == rows;
    }

    /** A dictionary in order of insertion stands for a list of rows with distinct plans. */
    static ghost predicate Lists(deduped: map<PlanKey, PaperTrade>, keys: seq<PlanKey>, ds: seq<Trade>)
      reads deduped.Values
    {
      && |ds| == |keys|
      && (forall key :: key in keys <==> key in deduped)
      && (forall j, k :: 0 <= j < k < |keys| ==> keys[j] != keys[k])
      && (forall k :: 0 <= k < |keys| ==>
            ds[k].plan.key == keys[k] && keys[k] in deduped && deduped[keys[k]].View() == ds[k])
    }

    /** The survivors in order of first appearance. */
    static method InOrder(deduped: map<PlanKey, PaperTrade>, keys: seq<PlanKey>, ghost ds: seq<Trade>)
      returns (ts: seq<PaperTrade>)
      requires Lists(deduped, keys, ds)
      ensures Distinct(ts) && Views(ts) == ds
      ensures forall t :: t in ts ==> t.plan.key in deduped && deduped[t.plan.key] == t
      ensures forall key :: key in deduped ==> deduped[key] in ts && deduped[key].plan.key == key
    {
      hide PaperTrade.View;
      ts := seq(|keys|, k requires 0 <= k < |keys| => deduped[keys[k]]);
      forall key | key in deduped ensures deduped[key] in ts && deduped[key].plan.key == key {
        var k :| 0 <= k < |keys| && keys[k] == key;
        assert ts[k] == deduped[key];
      }
    }

    /** Deduplication by plan key, in order of first appearance. */
    static method MostAdvanced(rows: seq<PaperTrade>)
      returns (deduped: map<PlanKey, PaperTrade>, keys: seq<PlanKey>)
      ensures Lists(deduped, keys, Dedupe(Views(rows)))
      ensures forall key :: key in deduped ==> deduped[key] in rows
    {
      hide *;
      deduped, keys := map[], [];
      NothingListed(rows);
      for n := 0 to |rows|
        invariant Lists(deduped, keys, Dedupe(Views(rows[..n])))
        invariant forall key :: key in deduped ==> deduped[key] in rows
      {
        var row := rows[n];
        var key := row.plan.key;
        ListsMerge(deduped, keys, Dedupe(Views(rows[..n])), row);
        ViewsAppend(rows, n);
        DedupeAppend(Views(rows[..n]), row.View());
        if key !in deduped {
          keys := keys + [key];
          deduped := deduped[key := row];
        } else if Rank(row.View()) >= Rank(deduped[key].View()) {
          deduped := deduped[key := row];
        }
      }
      assert rows[..|rows|] == rows;
    }

    static lemma NothingListed(rows: seq<PaperTrade>)
      ensures Lists(map[], [], Dedupe(Views(rows[..0])))
    {
    }

    static lemma ViewsAppend(rows: seq<PaperTrade>, n: nat)
      requires n < |rows|
      ensures Views(rows[..n + 1]) == Views(rows[..n]) + [rows[n].View()]
    {
    }

    static lemma DedupeAppend(rows: seq<Trade>, row: Trade)
      ensures Dedupe(rows + [row]) == Merge(Dedupe(rows), row)
    {
      assert (rows + [row])[..|rows|] == rows;
    }

    static lemma ListsMerge(deduped: map<PlanKey, PaperTrade>, keys: seq<PlanKey>, ds: seq<Trade>, row: PaperTrade)
      requires Lists(deduped, keys, ds)
      ensures var key := row.plan.key; var next := Merge(ds, row.View());
        if key !in deduped then Lists(deduped[key := row], keys + [key], next)
        else if Rank(row.View()) >= Rank(deduped[key].View()) then Lists(deduped[key := row], keys, next)
        else next == ds
    {
      hide PaperTrade.View, Rank;
      var key := row.plan.key;
      var n := IndexOf(ds, key);
      if n < |ds| {
        assert keys[n] == key;
      } else {
        forall k | 0 <= k < |keys| ensures keys[k] != key {
          assert ds[k].plan.key != key;
        }
      }
    }

    /** Indexes the unresolved trades of a rebuilt list. */
    static method BuildIndex(ts: seq<PaperTrade>) returns (index: Index)
      requires Distinct(ts)
      ensures Indexes(index, ts)
    {
      hide Indexes, PaperTrade.IsActive;
      index := map[];
      assert ts[..0] == [];
      IndexesNothing();
      for n := 0 to |ts|
        invariant Indexes(index, ts[..n])
      {
        var t := ts[n];
        assert ts[..n + 1] == ts[..n] + [t];
        assert t !in ts[..n];
        IndexesMore(index, ts[..n], t);
        if t.IsActive() {
          index := Enlisted(index, t);
        }
      }
      assert ts[..|ts|] == ts;
    }

    /** Each unresolved plan, from the index alone. */
    method ActiveTrades() returns (r: seq<PaperTrade>)
      requires Valid()
      ensures forall t :: t in r ==> t in trades && t.IsActive()
      ensures forall t :: t in trades && t.IsActive() ==> t in r
      ensures Distinct(r)
    {
      hide Pick, Valid, PaperTrade.IsActive;
      r := [];
      var todo := active.Keys;
      forall t | t in trades && t.IsActive() ensures t.plan.key.symbol in todo {
        IndexedDistinct(t.plan.key.symbol);
      }
      while todo != {}
        invariant todo <= active.Keys
        invariant forall t :: t in r ==> t in trades && t.IsActive() && t.plan.key.symbol !in todo
        invariant forall t :: t in trades && t.IsActive() && t.plan.key.symbol !in todo ==> t in r
        invariant Distinct(r)
        decreases todo
      {
        var symbol :| symbol in todo;
        IndexedDistinct(symbol);
        DistinctConcat(r, active[symbol]);
        r := r + active[symbol];
        todo := todo - {symbol};
      }
    }

    lemma IndexedDistinct(symbol: string)
      requires Valid()
      ensures Distinct(Indexed(symbol))
      ensures forall t :: t in Indexed(symbol) ==> t in trades && t.IsActive() && t.plan.key.symbol == symbol
      ensures forall t :: t in trades && t.IsActive() && t.plan.key.symbol == symbol ==> t in Indexed(symbol)
    {
      hide PaperTrade.IsActive;
      PickDistinct(trades, ActiveOn(trades, symbol));
    }

    /** Feeds one bar to the indexed trades of its symbol; returns the ones it settled, in order. */
    method OnBar(b: Bar) returns (settled: seq<PaperTrade>)
      requires Valid()
      modifies this`active, trades
      ensures Valid() && trades == old(trades)
      ensures byAlertId == old(byAlertId) && byPlanKey == old(byPlanKey)
      ensures forall t :: t in trades ==> FedOnce(t, b)
      ensures settled == Pick(trades, GoneSince(trades))
    {
      hide Pick, ActiveOn, ActiveIn, Keyed, Fed, PaperTrade.View, PaperTrade.IsActive;
      ghost var before := map t | t in trades :: t.View();
      SnapshotActive(before, trades);
      var due;
      due, settled := FeedIndexed(b, before);
      IndexAfterFeed(before, trades, b, due, settled);
      DropSettled(b.symbol, due, settled);
      PickCongruent(trades, GoneIn(before, trades), GoneSince(trades));
    }

    /** Takes the settled trades out of one symbol's list. */
    method DropSettled(symbol: string, due: seq<PaperTrade>, settled: seq<PaperTrade>)
      requires Keyed() && due == Indexed(symbol)
      requires forall other :: other != symbol ==> Indexed(other) == Pick(trades, ActiveOn(trades, other))
      requires settled == [] ==> due == Pick(trades, ActiveOn(trades, symbol))
      requires Pick(due, set t | t in due && t !in settled) == Pick(trades, ActiveOn(trades, symbol))
      modifies this`active
      ensures Valid()
    {
      hide Pick, ActiveOn;
      if settled != [] {
        active := active[symbol := Pick(due, set t | t in due && t !in settled)];
      }
    }

    /** Looks the symbol up in the index and advances what it finds: every trade is then fed. */
    method FeedIndexed(b: Bar, ghost before: map<PaperTrade, Trade>)
      returns (due: seq<PaperTrade>, settled: seq<PaperTrade>)
      requires Valid() && before == map t | t in trades :: t.View()
      modifies trades
      ensures due == Indexed(b.symbol) && settled == Pick(due, set t | t in due && !t.IsActive())
      ensures Fed(before, trades, b) && Keyed()
      ensures forall t :: t in trades ==> FedOnce(t, b)
    {
      hide Pick, PaperTrades.Advance;
      due := Indexed(b.symbol);
      PickDistinct(trades, ActiveOn(trades, b.symbol));
      assert forall k :: 0 <= k < |due| ==> due[k] in trades;
      settled := AdvanceDue(due, b);
      forall t | t in trades ensures FedOnce(t, b) {
        if t !in due {
          assert t !in old(ActiveOn(trades, b.symbol));
        }
      }
    }

    /** The loop over the indexed trades. */
    method AdvanceDue(due: seq<PaperTrade>, b: Bar) returns (settled: seq<PaperTrade>)
      requires Distinct(due)
      requires forall t :: t in due ==> t.Sound() && t.IsActive() && t.plan.key.symbol == b.symbol
      modifies due
      ensures forall t :: t in due ==> FedOnce(t, b)
      ensures settled == Pick(due, set t | t in due && !t.IsActive())
    {
      hide Pick, PaperTrades.Advance;
      settled := [];
      ghost var gone: set<PaperTrade> := {};
      for k := 0 to |due|
        invariant forall j :: 0 <= j < k ==> FedOnce(due[j], b)
        invariant forall j :: k <= j < |due| ==> unchanged(due[j])
        invariant gone == set t | t in due[..k] && !t.IsActive()
        invariant settled == Pick(due[..k], gone)
      {
        var t := due[k];
        assert t in due;
        ghost var earlier := due[..k];
        assert t !in earlier;
        assert due[..k + 1] == earlier + [t];
        var done := t.Advance(b);
        if done {
          settled := settled + [t];
          PickCongruent(earlier, gone, gone + {t});
          gone := gone + {t};
        }
        PickAppend(earlier, t, gone);
      }
      assert due[..|due|] == due;
      assert gone == set t | t in due && !t.IsActive();
    }
  }

  /** Each trade is one bar on from where `before` has it. */
  ghost predicate Fed(before: map<PaperTrade, Trade>, ts: seq<PaperTrade>, b: Bar)
    reads ts
  {
    forall t :: t in ts ==>
      && t in before && before[t].plan == t.plan
      && Playable(t.plan) && before[t].tranches <= |t.plan.targets|
      && t.View() == Feed(before[t], b)
  }

  ghost function ActiveIn(before: map<PaperTrade, Trade>, ts: seq<PaperTrade>, symbol: string): set<PaperTrade> {
    set t | t in ts && t in before && Active(before[t]) && t.plan.key.symbol == symbol
  }

  lemma SnapshotActive(before: map<PaperTrade, Trade>, ts: seq<PaperTrade>)
    requires forall t :: t in ts ==> t in before && before[t] == t.View()
    ensures forall symbol :: ActiveOn(ts, symbol) == ActiveIn(before, ts, symbol)
  {
  }

  /** A bar only ever takes trades of its own symbol out of the active set. */
  lemma FedThrough(before: map<PaperTrade, Trade>, ts: seq<PaperTrade>, b: Bar)
    requires Fed(before, ts, b)
    ensures forall t :: t in ts ==> t in before
    ensures ActiveOn(ts, b.symbol) <= ActiveIn(before, ts, b.symbol)
    ensures forall t :: t in ts && t in ActiveIn(before, ts, b.symbol) ==>
      (t in ActiveOn(ts, b.symbol) <==> t.IsActive())
    ensures forall t :: t in ts ==>
      (t in ActiveIn(before, ts, b.symbol) && t !in ActiveOn(ts, b.symbol) <==> Active(before[t]) && !t.IsActive())
    ensures forall symbol :: symbol != b.symbol ==> ActiveOn(ts, symbol) == ActiveIn(before, ts, symbol)
  {
    hide PaperTrades.Advance;
    forall symbol | symbol != b.symbol ensures ActiveOn(ts, symbol) == ActiveIn(before, ts, symbol) {
      FedElsewhere(before, ts, b, symbol);
    }
  }

  lemma FedElsewhere(before: map<PaperTrade, Trade>, ts: seq<PaperTrade>, b: Bar, symbol: string)
    requires Fed(before, ts, b) && symbol != b.symbol
    ensures ActiveOn(ts, symbol) == ActiveIn(before, ts, symbol)
  {
    hide PaperTrades.Advance;
  }

  /** The trades that were unresolved in `before` and have settled since. */
  ghost function GoneIn(before: map<PaperTrade, Trade>, ts: seq<PaperTrade>): set<PaperTrade>
    reads ts
  {
    set t | t in ts && t in before && Active(before[t]) && !t.IsActive()
  }

  lemma IndexAfterFeed(before: map<PaperTrade, Trade>, ts: seq<PaperTrade>, b: Bar, due: seq<PaperTrade>,
                       settled: seq<PaperTrade>)
    requires Fed(before, ts, b)
    requires due == Pick(ts, ActiveIn(before, ts, b.symbol))
    requires settled == Pick(due, set t | t in due && !t.IsActive())
    ensures settled == Pick(ts, GoneIn(before, ts))
    ensures Pick(due, set t | t in due && t !in settled) == Pick(ts, ActiveOn(ts, b.symbol))
    ensures settled == [] ==> due == Pick(ts, ActiveOn(ts, b.symbol))
    ensures forall symbol :: symbol != b.symbol ==> ActiveOn(ts, symbol) == ActiveIn(before, ts, symbol)
  {
    hide Pick, ActiveOn, ActiveIn, Fed;
    FedThrough(before, ts, b);
    var was, now := ActiveIn(before, ts, b.symbol), ActiveOn(ts, b.symbol);
    IndexStep(ts, was, now, GoneIn(before, ts), (set t | t in due && !t.IsActive()),
      (set t | t in due && t !in settled));
    if settled == [] {
      PickCongruent(ts, was, now);
    }
  }

  lemma IndexSkips(ts: seq<PaperTrade>, t: PaperTrade, symbol: string)
    requires t !in ts && !t.IsActive()
    ensures Pick(ts + [t], ActiveOn(ts + [t], symbol)) == Pick(ts, ActiveOn(ts, symbol))
  {
    hide Pick;
    PickAppend(ts, t, ActiveOn(ts + [t], symbol));
    PickCongruent(ts, ActiveOn(ts + [t], symbol), ActiveOn(ts, symbol));
  }

  lemma IndexGrows(ts: seq<PaperTrade>, t: PaperTrade, symbol: string)
    requires t !in ts && t.IsActive()
    ensures Pick(ts + [t], ActiveOn(ts + [t], symbol))
         == Pick(ts, ActiveOn(ts, symbol)) + (if symbol == t.plan.key.symbol then [t] else [])
  {
    hide Pick;
    PickAppend(ts, t, ActiveOn(ts + [t], symbol));
    PickCongruent(ts, ActiveOn(ts + [t], symbol), ActiveOn(ts, symbol));
  }

  /** From the old index to the new one, and to the settled trades, by filtering alone. */
  lemma IndexStep(ts: seq<PaperTrade>, was: set<PaperTrade>, now: set<PaperTrade>, gone: set<PaperTrade>,
                  finished: set<PaperTrade>, left: set<PaperTrade>)
    requires forall t :: t in ts ==> (t in gone <==> t in was && t !in now)
    requires forall t :: t in ts && t in was ==> (t in finished <==> t !in now)
    requires now <= was
    requires left == set t | t in Pick(ts, was) && t !in Pick(Pick(ts, was), finished)
    ensures Pick(Pick(ts, was), finished) == Pick(ts, gone)
    ensures Pick(Pick(ts, was), left) == Pick(ts, now)
    ensures Pick(Pick(ts, was), finished) == [] ==> forall t :: t in ts ==> (t in was <==> t in now)
  {
    hide Pick;
    PickTwice(ts, was, finished);
    PickCongruent(ts, was * finished, gone);
    PickTwice(ts, was, left);
    PickCongruent(ts, was * left, now);
  }
}
