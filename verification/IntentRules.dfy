/**
 * What every reachable intent satisfies: one transition relation for its event log, the shape of
 * its trade ledger, and who may hold placement authority. Each single-intent mutation keeps it.
 */
module IntentRules {
  import opened Prelude
  import opened Intents

  // ----- the transition relation -----

  predicate LegalCreation(mode: Mode, to: Status) {
    to.Blocked? || (if mode.Live? then to.Ready? else to.Shadow?)
  }

  /** Every arc an intent can ever take, by the event that records it. */
  predicate LegalStep(mode: Mode, kind: EventKind, from: Status, to: Status) {
    match kind
    case IntentCreated => false
    case OptionSelected => from == to && from == (if mode.Live? then Ready else Shadow)
    case CapitalPreflight => mode.Live? && from == to && (from.Ready? || from.Claimed?)
    case ClaimAcquired => mode.Live? && (from.Ready? || from.Claimed?) && to.Claimed?
    case ClaimRevoked => mode.Live? && from.Claimed? && to.Claimed?
    case IntentBlocked => (from.Shadow? || from.Ready?) && to.Blocked?
    case IntentExpired => (from.Shadow? || from.Ready?) && to.Expired?
    case StatusChanged => mode.Live? && from.Ready? && to.Expired?
    case OperatorApproved => false
    case OperatorRejected => (from.Shadow? || from.Ready?) && to.Rejected?
    case BrokerReceipt =>
      && mode.Live?
      && match from {
           case Claimed => to.Executed? || to.Rejected? || to.Failed? || to.Cancelled?
           case Cancelled => to.Executed?
           case Executed => to.Closed?
           case _ => false
         }
    case BrokerExitFailed => mode.Live? && from.Executed? && to.Executed?
    case SimulationEntry => mode.Simulation? && from.Shadow? && to.Executed?
    case SimulationExit => mode.Simulation? && from.Executed? && to.Closed?
  }

  /** Events are numbered 1..n, each starts where the previous one ended, and every arc is legal. */
  ghost predicate Chained(mode: Mode, events: seq<Event>) {
    && events != []
    && events[0].from.None?
    && events[0].kind.IntentCreated?
    && LegalCreation(mode, events[0].to)
    && (forall k :: 0 <= k < |events| ==> events[k].seqNo == k + 1)
    && (forall k :: 0 < k < |events| ==>
          && events[k].from == Some(events[k - 1].to)
          && LegalStep(mode, events[k].kind, events[k - 1].to, events[k].to))
  }

  /** The log tells the whole story: current status, revision and ledger can be read off it. */
  ghost predicate LogInv(i: Intent) {
    && Chained(i.info.mode, i.events)
    && i.events[|i.events| - 1].to == i.status
    && i.revision == |i.events|
    && RowsOf(i.events) == i.trades
  }

  // ----- the trade ledger -----

  predicate Filled(row: TradeRow) {
    row.price.Some? && row.quantity.Some?
  }

  /** An entry row that a later exit can be priced against. */
  predicate GoodEntry(row: TradeRow, selection: Option<Selection>) {
    && Filled(row)
    && row.price.value > 0
    && row.quantity.value > 0
    && (selection.Some? ==> row.quantity.value <= selection.value.quantity)
  }

  /** The exit closes the position the entry opened, at the difference of the two prices. */
  predicate ExitMatches(entry: TradeRow, exit: TradeRow, selection: Option<Selection>)
    requires Filled(entry)
  {
    && exit.kind.Exit?
    && Filled(exit)
    && exit.realizedPnl == Some((exit.price.value - entry.price.value) * entry.quantity.value)
    && (selection.Some? ==> exit.quantity == entry.quantity)
  }

  predicate Exposed(s: Status) {
    s.Executed? || s.Closed?
  }

  ghost predicate LedgerInv(i: Intent) {
    && CountKind(i.trades, Entry) == (if Exposed(i.status) then 1 else 0)
    && CountKind(i.trades, Exit) == (if i.status.Closed? then 1 else 0)
    && (Exposed(i.status) ==>
          FirstEntry(i.trades).Some? && GoodEntry(FirstEntry(i.trades).value, i.selection))
    && (Exposed(i.status) && i.info.mode.Simulation? ==>
          i.selection.Some? && FirstEntry(i.trades).value.quantity == Some(i.selection.value.quantity))
    && (i.status.Closed? ==>
          ExitMatches(FirstEntry(i.trades).value, i.trades[|i.trades| - 1], i.selection))
  }

  // ----- placement authority -----

  predicate GoodLease(c: Claim, info: Info) {
    c.claimedAt < c.leaseUntil <= c.claimedAt + 120 && c.leaseUntil <= info.validUntil
  }

  /** The attested contract is what the order plan asks capital for. */
  predicate PlanInv(i: Intent) {
    && (!Dynamic(i.info) ==> i.selection.None? && i.plan.request.None? && !i.plan.instrument.SelectionRequired?
                             && i.plan.capitalRequired.Some?)
    && (Dynamic(i.info) ==> i.plan.request.Some? && (i.selection.None? <==> i.plan.instrument.SelectionRequired?))
    && (i.selection.Some? ==>
          && i.plan.instrument.OptionContract?
          && i.plan.capitalRequired == Some(i.selection.value.plannedDebit)
          && i.selection.value.plannedDebit == i.selection.value.quantity * i.selection.value.contractDebit
          && i.selection.value.quantity >= 1
          && i.selection.value.contractDebit >= 1)
  }

  predicate AuthorityInv(i: Intent) {
    && !i.status.AwaitingApproval?
    && (i.info.mode.Simulation? ==>
          && (i.status.Shadow? || i.status.Blocked? || i.status.Executed? || i.status.Closed?
              || i.status.Rejected? || i.status.Expired?)
          && i.claim.None? && i.revokedAt.None? && i.check.None?)
    && (i.info.mode.Live? ==> !i.status.Shadow?)
    && (i.claim.Some? ==> GoodLease(i.claim.value, i.info) && !i.plan.instrument.SelectionRequired?)
    && (i.revokedAt.Some? ==> i.claim.Some?)
    && (i.status.Ready? ==> i.claim.None?)
    && (i.info.mode.Live? && (i.status.Claimed? || Exposed(i.status) || i.status.Cancelled?) ==> i.claim.Some?)
    && (i.status.Claimed? ==>
          && i.check.Some?
          && Some(i.check.value.required) == i.plan.capitalRequired
          && (i.check.value.passed || i.revokedAt.Some?))
  }

  ghost predicate IntentInv(i: Intent) {
    LogInv(i) && LedgerInv(i) && PlanInv(i) && AuthorityInv(i)
  }

  // ----- lemmas about ledgers and logs -----

  lemma CountAppend(rows: seq<TradeRow>, row: TradeRow, kind: RowKind)
    ensures CountKind(rows + [row], kind) == CountKind(rows, kind) + (if row.kind == kind then 1 else 0)
  {
    assert (rows + [row])[..|rows|] == rows;
  }

  lemma {:induction false} FirstEntryAppend(rows: seq<TradeRow>, row: TradeRow)
    ensures FirstEntry(rows + [row])
         == if FirstEntry(rows).Some? then FirstEntry(rows)
            else if row.kind.Entry? then Some(row) else None
  {
    if rows != [] {
      FirstEntryAppend(rows[1..], row);
      assert (rows + [row])[1..] == rows[1..] + [row];
    } else {
      assert FirstEntry([row][1..]) == None;
    }
  }

  lemma RowsAppend(events: seq<Event>, e: Event)
    ensures RowsOf(events + [e]) == RowsOf(events) + (match e.row case Some(row) => [row] case None => [])
  {
    assert (events + [e])[..|events|] == events;
  }

  lemma ChainAppend(mode: Mode, events: seq<Event>, e: Event)
    requires Chained(mode, events)
    requires e.seqNo == |events| + 1
    requires e.from == Some(events[|events| - 1].to)
    requires LegalStep(mode, e.kind, events[|events| - 1].to, e.to)
    ensures Chained(mode, events + [e])
  {
  }

  /** Any legal logged step extends the log, the revision and the ledger consistently. */
  lemma LoggedKeepsLog(i: Intent, kind: EventKind, to: Status, now: int, row: Option<TradeRow>)
    requires LogInv(i)
    requires LegalStep(i.info.mode, kind, i.status, to)
    ensures LogInv(Logged(i, kind, to, now, row))
    ensures i.events <= Logged(i, kind, to, now, row).events
  {
    var e := Event(|i.events| + 1, now, kind, Some(i.status), to, row);
    ChainAppend(i.info.mode, i.events, e);
    RowsAppend(i.events, e);
  }
}
