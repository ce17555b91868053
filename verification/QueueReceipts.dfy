/** Which receipts are taken and what they write, for broker orders and for simulated ones. */
module QueueReceipts {
  import opened Prelude
  import opened Intents
  import opened OptionChoice
  import opened OptionScreens
  import opened QueueSpec
  import opened QueueSteps
  import opened QueueRuns
  import opened QueueTheorems

  /** The intent is where one row and one event took it; nothing else about it changed. */
  predicate Booked(i: Intent, j: Intent, to: Status, kind: EventKind, row: TradeRow, now: int) {
    && j == i.(status := to, updatedAt := now, revision := i.revision + 1, trades := i.trades + [row],
               events := j.events)
    && j.events == i.events + [Event(|i.events| + 1, now, kind, Some(i.status), to, Some(row))]
  }

  /** The first row that opened a position. */
  ghost predicate EnteredAt(rows: seq<TradeRow>, k: int) {
    0 <= k < |rows| && rows[k].kind == Entry && forall j :: 0 <= j < k ==> rows[j].kind != Entry
  }

  lemma {:induction false} FirstEntryIs(rows: seq<TradeRow>)
    ensures FirstEntry(rows).None? <==> forall k :: 0 <= k < |rows| ==> rows[k].kind != Entry
    ensures forall k :: EnteredAt(rows, k) ==> FirstEntry(rows) == Some(rows[k])
    ensures FirstEntry(rows).Some? ==> exists k :: EnteredAt(rows, k)
  {
    if rows != [] {
      var rest := rows[1..];
      FirstEntryIs(rest);
      if rows[0].kind == Entry {
        assert EnteredAt(rows, 0);
      } else {
        forall k | EnteredAt(rows, k) ensures FirstEntry(rows) == Some(rows[k]) {
          assert forall j :: 0 <= j < |rest| ==> rest[j] == rows[j + 1];
          assert EnteredAt(rest, k - 1);
        }
        if FirstEntry(rest).Some? {
          var k :| EnteredAt(rest, k);
          assert forall j :: 0 < j < |rows| ==> rows[j] == rest[j - 1];
          assert EnteredAt(rows, k + 1);
        }
      }
    }
  }

  // ----- broker receipts -----

  /** What a broker may report of an order, by where the order is. */
  predicate Reportable(from: Status, to: Status) {
    || (from == Claimed && to in {Executed, Rejected, Failed, Cancelled})
    || (from == Cancelled && to == Executed)
    || (from == Executed && to in {Closed, Failed})
  }

  /** A fill names its order, price and quantity, and carries no pre-trade alert. */
  predicate CompleteFill(r: Receipt) {
    r.brokerOrderId != "" && r.price.Some? && r.quantity.Some? && !r.pretradeAlerts
  }

  /** An option fill is of the selected contract; an entry at most its size, an exit all of the entry. */
  ghost predicate FillOfSelection(i: Intent, r: Receipt) {
    i.selection.Some? && r.quantity.Some? ==>
      && (r.optionId.None? || r.optionId.value == "" || r.optionId.value == i.selection.value.optionId)
      && (r.status == Executed ==> r.quantity.value <= i.selection.value.quantity)
      && (r.status == Closed ==>
            exists k :: EnteredAt(i.trades, k) && i.trades[k].quantity == Some(r.quantity.value))
  }

  ghost predicate Receivable(s: State, id: string, r: Receipt, env: Env) {
    && id in s.intents
    && s.intents[id].info.mode == Live
    && Reportable(s.intents[id].status, r.status)
    && r.observedAt <= env.now + 5
    && (r.status in {Executed, Closed} ==> CompleteFill(r) && FillOfSelection(s.intents[id], r))
  }

  /** The row of a receipt: the broker's own figures, and for a fill the contract that was selected. */
  predicate RowOfReceipt(i: Intent, r: Receipt, row: TradeRow) {
    && !row.simulated
    && row.kind == (if r.status == Executed then Entry else if r.status == Closed then Exit else Report(r.status))
    && (r.price.Some? ==> row.price == Some(r.price.value)) && (r.price.None? ==> row.price == None)
    && (r.quantity.Some? ==> row.quantity == Some(r.quantity.value)) && (r.quantity.None? ==> row.quantity == None)
    && row.optionId == (if r.status in {Executed, Closed} && i.selection.Some?
                        then Some(i.selection.value.optionId) else r.optionId)
  }

  /** The profit is the price difference over the entered quantity, and only an exit has one. */
  ghost predicate ProfitOf(i: Intent, row: TradeRow) {
    if row.kind == Exit then
      exists k :: EnteredAt(i.trades, k)
        && i.trades[k].price.Some? && i.trades[k].quantity.Some? && row.price.Some?
        && row.realizedPnl == Some((row.price.value - i.trades[k].price.value) * i.trades[k].quantity.value)
    else row.realizedPnl == None
  }

  lemma FillErrorExactly(i: Intent, r: Receipt)
    ensures r.status in {Executed, Closed} ==>
      (FillError(i, r).None? <==> CompleteFill(r) && FillOfSelection(i, r))
  {
    FirstEntryIs(i.trades);
  }

  lemma PnlOfEntry(rows: seq<TradeRow>, exitPrice: int, i: Intent, row: TradeRow)
    requires rows == i.trades && RealizedPnl(rows, exitPrice).Ok?
    requires row.kind == Exit && row.price == Some(exitPrice)
      && row.realizedPnl == Some(RealizedPnl(rows, exitPrice).value)
    ensures ProfitOf(i, row)
  {
    FirstEntryIs(rows);
  }

  /**
   * In every run a receipt is taken if and only if it is receivable. It books one row, and moves the
   * order to what was reported, except that a failed exit leaves the position open.
   */
  lemma ReceiptTaken(p: Policy, calls: seq<Call>, id: string, r: Receipt, env: Env)
    ensures var s := Run(Init(p), calls);
      var done := RecordReceipt(s, id, r, env);
      && (done.Ok? <==> Receivable(s, id, r, env))
      && (done.Ok? ==>
            && id in done.value.intents && done.value == s.(intents := s.intents[id := done.value.intents[id]])
            && var i, j := s.intents[id], done.value.intents[id];
            exists row :: RowOfReceipt(i, r, row) && ProfitOf(i, row)
              && Booked(i, j, if i.status == Executed && r.status == Failed then Executed else r.status,
                        if i.status == Executed && r.status == Failed then BrokerExitFailed else BrokerReceipt,
                        row, env.now))
  {
    hide Run, StateInv, FillError, ReceiptRow, ProfitOf, FillOfSelection;
    var s := Run(Init(p), calls);
    EveryRunGood(p, calls);
    ReceiptNeverMissesEntry(s, id, r, env);
    if id in s.intents {
      FillErrorExactly(s.intents[id], r);
      var done := RecordReceipt(s, id, r, env);
      if done.Ok? {
        ReceiptBooked(s.intents[id], r, s, id, env);
      }
    }
  }

  lemma ReceiptBooked(i: Intent, r: Receipt, s: State, id: string, env: Env)
    requires id in s.intents && i == s.intents[id] && RecordReceipt(s, id, r, env).Ok?
    ensures var t := RecordReceipt(s, id, r, env).value;
      && id in t.intents && t == s.(intents := s.intents[id := t.intents[id]])
      && exists row :: RowOfReceipt(i, r, row) && ProfitOf(i, row)
           && Booked(i, t.intents[id], if i.status == Executed && r.status == Failed then Executed else r.status,
                     if i.status == Executed && r.status == Failed then BrokerExitFailed else BrokerReceipt,
                     row, env.now)
  {
    var t := RecordReceipt(s, id, r, env).value;
    var pnl := if r.status.Closed? then Some(RealizedPnl(i.trades, r.price.value).value) else None;
    var row := ReceiptRow(i, r, pnl);
    if r.status.Closed? {
      PnlOfEntry(i.trades, r.price.value, i, row);
    }
    assert RowOfReceipt(i, r, row) && ProfitOf(i, row);
  }

  // ----- simulated receipts -----

  /** An entry is in time, of a fresh selection, into a liquid market and inside the entry zone. */
  predicate EntryFits(p: Policy, i: Intent, r: SimulationReceipt, env: Env)
    requires i.selection.Some?
  {
    && env.now < i.info.validUntil
    && !env.symbolBlocked
    && -5 <= env.now - i.selection.value.recordedAt <= p.maxQuoteAge
    && i.selection.value.selloutAt > env.now + 300
    && r.bid > 0
    && SpreadWithin(r.bid, r.ask, p.maxSpread)
    && r.volume >= p.minVolume
    && r.openInterest >= p.minOpenInterest
    && i.plan.zoneLow <= r.underlyingPrice <= i.plan.zoneHigh
  }

  predicate Simulable(s: State, id: string, r: SimulationReceipt, env: Env) {
    && id in s.intents
    && var p, i := s.policy, s.intents[id];
    && i.info.mode == Simulation
    && i.status == (if r.entry then Shadow else Executed)
    && i.selection.Some?
    && r.optionId == i.selection.value.optionId
    && -5 <= env.now - r.observedAt <= p.maxQuoteAge
    && r.bid <= r.ask
    && (r.entry ==> EntryFits(p, i, r, env))
  }

  /** Bought at the ask, sold at the bid, at the selected size. */
  predicate RowOfSimulation(i: Intent, r: SimulationReceipt, row: TradeRow) {
    && row.simulated
    && row.kind == (if r.entry then Entry else Exit)
    && row.price == Some(if r.entry then r.ask else r.bid)
    && i.selection.Some?
    && row.optionId == Some(i.selection.value.optionId) && row.quantity == Some(i.selection.value.quantity)
  }

  lemma SimulationErrorExactly(p: Policy, i: Intent, r: SimulationReceipt, env: Env)
    ensures SimulationError(p, i, r, env).None? <==>
      && i.info.mode == Simulation
      && i.status == (if r.entry then Shadow else Executed)
      && i.selection.Some?
      && r.optionId == i.selection.value.optionId
      && -5 <= env.now - r.observedAt <= p.maxQuoteAge
      && r.bid <= r.ask
      && (r.entry ==> EntryFits(p, i, r, env))
  {
    SpreadExactly(r.bid, r.ask, p.maxSpread);
    hide Spread, SpreadWithin;
    SpreadSign(r.bid, r.ask);
  }

  /** In every run a simulated receipt is taken if and only if it may be, and books one priced row. */
  lemma SimulationTaken(p: Policy, calls: seq<Call>, id: string, r: SimulationReceipt, env: Env)
    ensures var s := Run(Init(p), calls);
      var done := RecordSimulation(s, id, r, env);
      && (done.Ok? <==> Simulable(s, id, r, env))
      && (done.Ok? ==>
            && id in done.value.intents && done.value == s.(intents := s.intents[id := done.value.intents[id]])
            && var i, j := s.intents[id], done.value.intents[id];
            exists row :: RowOfSimulation(i, r, row) && ProfitOf(i, row)
              && Booked(i, j, if r.entry then Executed else Closed,
                        if r.entry then SimulationEntry else SimulationExit, row, env.now))
  {
    hide Run, StateInv, SimulationError, EntryFits, ProfitOf;
    var s := Run(Init(p), calls);
    EveryRunGood(p, calls);
    SimulationNeverMissesEntry(s, id, r, env);
    if id in s.intents {
      SimulationErrorExactly(s.policy, s.intents[id], r, env);
      if RecordSimulation(s, id, r, env).Ok? {
        SimulationBooked(s, id, r, env);
      }
    }
  }

  lemma SimulationBooked(s: State, id: string, r: SimulationReceipt, env: Env)
    requires RecordSimulation(s, id, r, env).Ok?
    ensures var t := RecordSimulation(s, id, r, env).value;
      && id in s.intents && id in t.intents && t == s.(intents := s.intents[id := t.intents[id]])
      && var i := s.intents[id];
      exists row :: RowOfSimulation(i, r, row) && ProfitOf(i, row)
        && Booked(i, t.intents[id], if r.entry then Executed else Closed,
                  if r.entry then SimulationEntry else SimulationExit, row, env.now)
  {
    hide EntryFits, SimulatedEntryError;
    var i := s.intents[id];
    var pnl := if r.entry then None else Some(RealizedPnl(i.trades, r.bid).value);
    var row := SimulationRow(i.selection.value, r, pnl);
    if !r.entry {
      PnlOfEntry(i.trades, r.bid, i, row);
    }
    assert RowOfSimulation(i, r, row) && ProfitOf(i, row);
  }
}
