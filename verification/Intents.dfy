/**
 * Values of the execution-intent queue: policy, intents and their append-only event log.
 *
 * Money is in whole cents. Prices per option share are in hundredths of a cent, so that the debit
 * of one contract (100 shares at the ask) is exactly the ask, read as cents. Instants are seconds;
 * the exchange-calendar day of an instant is passed beside it.
 */
module Intents {
  import opened Prelude

  datatype Mode = Simulation | Live

  datatype Status =
    | Shadow
    | Blocked
    | AwaitingApproval
    | Ready
    | Claimed
    | Executed
    | Rejected
    | Failed
    | Cancelled
    | Expired
    | Closed

  predicate Terminal(s: Status) {
    s.Blocked? || s.Rejected? || s.Failed? || s.Cancelled? || s.Expired? || s.Closed?
  }

  predicate Blockable(s: Status) {
    s.Shadow? || s.AwaitingApproval? || s.Ready?
  }

  datatype OptionType = CallOption | PutOption

  datatype Policy = Policy(
    mode: Mode,
    liveUntil: Option<int>,
    minConfidence: real,
    maxOrderRisk: nat,
    maxDailyRisk: nat,
    maxOpen: nat,
    capitalFraction: real,
    symbols: set<string>,
    strategies: set<string>,
    modules: set<string>,
    allowOptions: bool,
    expiryDays: set<int>,
    minVolume: nat,
    minOpenInterest: nat,
    maxSpread: real,
    maxQuoteAge: nat,
    requireCalibration: bool,
    revision: nat,
    updatedAt: int)

  const DYNAMIC_STRATEGY := "EMA9_MTF_0DTE"
  const DYNAMIC_MODULE := "0DTE"
  const CAPITAL_REVIEW_MAX_AGE := 120

  /** What never changes about an intent. */
  datatype Info = Info(
    alertId: string,
    mode: Mode,
    symbol: string,
    strategy: string,
    module_: string,
    createdAt: int,
    createdDay: int,
    validUntil: int,
    confidence: real,
    dollarRisk: nat)

  /** The EMA9 0DTE scalp: its contract and size are attested later, from live quotes. */
  predicate Dynamic(info: Info) {
    info.strategy == DYNAMIC_STRATEGY && info.module_ == DYNAMIC_MODULE
  }

  datatype Instrument = SelectionRequired | OptionContract | EquityShares

  datatype OrderPlan = OrderPlan(
    instrument: Instrument,
    request: Option<OptionType>,
    zoneLow: int,
    zoneHigh: int,
    capitalRequired: Option<int>)

  datatype Claim = Claim(claimedAt: int, claimedDay: int, leaseUntil: int)

  datatype CapitalCheck = CapitalCheck(
    buyingPower: int,
    observedAt: int,
    maxCapital: int,
    required: int,
    passed: bool)

  datatype Selection = Selection(
    optionId: string,
    optionType: OptionType,
    expirationDay: int,
    delta: real,
    ask: nat,
    volume: nat,
    openInterest: nat,
    quoteAt: int,
    selloutAt: int,
    spread: real,
    quantity: nat,
    contractDebit: nat,
    plannedDebit: nat,
    ceiling: int,
    eligibleCount: nat,
    submittedCount: nat,
    recordedAt: int)

  /** `Report` is a receipt that neither opened nor closed a position. */
  datatype RowKind = Entry | Exit | Report(status: Status)

  datatype TradeRow = TradeRow(
    kind: RowKind,
    simulated: bool,
    optionId: Option<string>,
    price: Option<nat>,
    quantity: Option<nat>,
    realizedPnl: Option<int>)

  datatype EventKind =
    | IntentCreated
    | OptionSelected
    | CapitalPreflight
    | ClaimAcquired
    | ClaimRevoked
    | IntentBlocked
    | IntentExpired
    | StatusChanged
    | OperatorApproved
    | OperatorRejected
    | BrokerReceipt
    | BrokerExitFailed
    | SimulationEntry
    | SimulationExit

  datatype Event = Event(
    seqNo: nat,
    at: int,
    kind: EventKind,
    from: Option<Status>,
    to: Status,
    row: Option<TradeRow>)

  /** The whole content of one intent. */
  datatype Intent = Intent(
    info: Info,
    status: Status,
    updatedAt: int,
    plan: OrderPlan,
    claim: Option<Claim>,
    revokedAt: Option<int>,
    check: Option<CapitalCheck>,
    selection: Option<Selection>,
    trades: seq<TradeRow>,
    events: seq<Event>,
    revision: nat)

  // ----- the single-intent mutations every operation is built from -----

  /** Appends the next numbered event. */
  function Appended(i: Intent, kind: EventKind, to: Status, now: int, row: Option<TradeRow>): seq<Event> {
    i.events + [Event(|i.events| + 1, now, kind, Some(i.status), to, row)]
  }

  /** A status change (or a same-status note) with its event; `row` also goes to the trade ledger. */
  function Logged(i: Intent, kind: EventKind, to: Status, now: int, row: Option<TradeRow>): Intent {
    i.(status := to,
       updatedAt := now,
       revision := i.revision + 1,
       trades := if row.Some? then i.trades + [row.value] else i.trades,
       events := Appended(i, kind, to, now, row))
  }

  function BlockedIntent(i: Intent, now: int): Intent {
    Logged(i, IntentBlocked, Blocked, now, None)
  }

  /** Placement authority is withdrawn at most once; the claim itself stays for late receipts. */
  function RevokedIntent(i: Intent, now: int): Intent {
    if i.revokedAt.Some? then i
    else Logged(i.(revokedAt := Some(now)), ClaimRevoked, i.status, now, None)
  }

  function BlockOrRevoke(i: Intent, now: int): Intent {
    if Blockable(i.status) then BlockedIntent(i, now)
    else if i.status.Claimed? then RevokedIntent(i, now)
    else i
  }

  /** A fresh contract and size; any earlier capital review no longer applies. */
  function SelectedIntent(i: Intent, sel: Selection, now: int): Intent {
    Logged(
      i.(selection := Some(sel),
         check := None,
         plan := i.plan.(instrument := OptionContract, capitalRequired := Some(sel.plannedDebit))),
      OptionSelected, i.status, now, None)
  }

  function CheckedIntent(i: Intent, check: CapitalCheck, now: int): Intent {
    Logged(i.(check := Some(check)), CapitalPreflight, i.status, now, None)
  }

  function ClaimedIntent(i: Intent, claim: Claim, now: int): Intent {
    Logged(i.(claim := Some(claim), revokedAt := None), ClaimAcquired, Claimed, now, None)
  }

  /** One pass of the expiry sweep over an intent. */
  function SweptIntent(i: Intent, now: int): Intent {
    if i.info.validUntil > now then i
    else if Blockable(i.status) then Logged(i, IntentExpired, Expired, now, None)
    else if i.status.Claimed? then RevokedIntent(i, now)
    else i
  }

  /** Switching out of LIVE strips an intent of every way to be placed. */
  function DisarmedIntent(i: Intent, now: int): Intent {
    if i.info.mode.Live? then BlockOrRevoke(i, now) else i
  }

  // ----- reading the trade ledger -----

  /** The first entry row, as the closing receipt looks it up. */
  function FirstEntry(rows: seq<TradeRow>): Option<TradeRow> {
    if rows == [] then None
    else if rows[0].kind.Entry? then Some(rows[0])
    else FirstEntry(rows[1..])
  }

  function CountKind(rows: seq<TradeRow>, kind: RowKind): nat {
    if rows == [] then 0
    else CountKind(rows[..|rows| - 1], kind) + (if rows[|rows| - 1].kind == kind then 1 else 0)
  }

  /** The rows an event log carries, in order. */
  function RowsOf(events: seq<Event>): seq<TradeRow> {
    if events == [] then []
    else RowsOf(events[..|events| - 1])
         + (match events[|events| - 1].row case Some(row) => [row] case None => [])
  }
}
