/**
 * The execution-intent queue as a pure state machine: one function per public operation, from a
 * state and a request to the next state or to the error the operation raises.
 */
module QueueSpec {
  import opened Prelude
  import opened Intents
  import opened OptionChoice
  import Rounding

  const AGENT := "codex"
  const ACCOUNT_SCOPE := "ROBINHOOD_AGENTIC_ONLY"

  /** What an operation reads from its surroundings: clock, symbol gate and calibration files. */
  datatype Env = Env(now: int, day: int, symbolBlocked: bool, calibrated: bool, liveEligible: bool)

  datatype State = State(policy: Policy, intents: map<string, Intent>)

  datatype PlanStatus = ActivePlan | ShadowPlan | OtherPlan

  datatype Vehicle = OptionVehicle | EquityVehicle

  datatype Action = BuyToOpen | SellToOpen | EquityBuy | EquitySell

  datatype Alert = Alert(
    alertId: string,
    planStatus: PlanStatus,
    researchOnly: bool,
    symbol: string,
    strategy: string,
    module_: string,
    confidence: real,
    dollarRisk: nat,
    vehicle: Vehicle,
    action: Action,
    stopBelowPrice: bool,
    zoneLow: int,
    zoneHigh: int,
    capitalRequired: int,
    validUntil: int)

  datatype Error =
    | UnknownIntent
    | WrongAgent
    | BadBuyingPower
    | WrongAccount
    | WrongCurrency
    | WrongStatus
    | WrongMode
    | AlreadyExpired
    | LiveWindowOver
    | NoDynamicSelection
    | StaleObservation
    | NoCandidates
    | NoCapital
    | NothingEligible
    | SelectionRequiredFirst
    | ClaimRevokedBefore
    | LeaseActive
    | BadPrice
    | OutsideZone
    | CapitalRefused(why: CapitalReason)
    | InvalidTransition
    | FutureReceipt
    | IncompleteFill
    | PretradeAlert
    | WrongOption
    | Oversized
    | NoEntry
    | PartialExit
    | SymbolUnavailable
    | InvertedMarket
    | StaleSelection
    | SelloutNear
    | Illiquid
    | BadPolicy

  datatype CapitalReason =
    | CapitalMissing
    | CapitalNotPositive
    | OrderCap
    | DailyCap
    | SelectionMissing
    | SelectionQuoteStale
    | SelectionSellout
    | DebitMismatch
    | ExpiryNotAllowed
    | SpreadTooWide
    | VolumeTooThin
    | InterestTooThin
    | ReviewMissing
    | ReviewFailed
    | ReviewStale
    | ReviewMismatch
    | BuyingPowerShort

  // ----- sums over the intents -----

  /** Which intents a total ranges over, and what each contributes. */
  datatype Measure =
    | Reserved(day: int)                        // dollar risk counted when an alert arrives
    | Used(day: int)                            // effective risk counted when an order is sized or claimed
    | OpenLive(now: int)                        // LIVE intents still in play
    | ReservedOnTime(day: int)                  // Reserved, LIVE only and without late fills
    | OpenOnTime(now: int)                      // OpenLive without late fills
    | Committed(day: int)                       // effective risk of LIVE intents claimed on their creation day
    | CommittedOnTime(day: int)                 // Committed without late fills

  predicate InBook(s: Status) {
    s.Claimed? || s.Executed? || s.Closed?
  }

  /** The premium once a contract is selected, the alert's own risk figure before. */
  function EffectiveRisk(i: Intent): nat {
    if i.selection.Some? && i.selection.value.plannedDebit != 0 then i.selection.value.plannedDebit
    else i.info.dollarRisk
  }

  /** A fill reported after the local cancellation. */
  predicate LateFilled(i: Intent) {
    exists k :: 0 <= k < |i.events| && i.events[k].from == Some(Cancelled) && i.events[k].to.Executed?
  }

  predicate ClaimedOnCreationDay(i: Intent, day: int) {
    i.info.createdDay == day && i.claim.Some? && i.claim.value.claimedDay == day
  }

  function ReservedRisk(day: int, i: Intent): nat {
    if i.info.createdDay == day && (i.status.AwaitingApproval? || i.status.Ready? || InBook(i.status))
    then i.info.dollarRisk else 0
  }

  function UsedRisk(day: int, i: Intent): nat {
    if i.info.mode.Live? && i.info.createdDay == day && (i.status.Ready? || InBook(i.status))
    then EffectiveRisk(i) else 0
  }

  function OpenCount(now: int, i: Intent): nat {
    if i.info.mode.Live? && !Terminal(i.status) && i.info.validUntil > now then 1 else 0
  }

  function CommittedRisk(day: int, i: Intent): nat {
    if i.info.mode.Live? && ClaimedOnCreationDay(i, day) && InBook(i.status) then EffectiveRisk(i) else 0
  }

  function Weight(m: Measure, i: Intent): nat {
    match m
    case Reserved(day) => ReservedRisk(day, i)
    case Used(day) => UsedRisk(day, i)
    case OpenLive(now) => OpenCount(now, i)
    case ReservedOnTime(day) => if i.info.mode.Live? && !LateFilled(i) then ReservedRisk(day, i) else 0
    case OpenOnTime(now) => if !LateFilled(i) then OpenCount(now, i) else 0
    case Committed(day) => CommittedRisk(day, i)
    case CommittedOnTime(day) => if !LateFilled(i) then CommittedRisk(day, i) else 0
  }

  ghost function AnyId(intents: map<string, Intent>): (id: string)
    requires |intents| > 0
    ensures id in intents
  {
    assert intents.Keys != {};
    var id :| id in intents;
    id
  }

  ghost function Total(m: Measure, intents: map<string, Intent>): nat
    decreases |intents|
  {
    if |intents| == 0 then 0
    else
      var id := AnyId(intents);
      Weight(m, intents[id]) + Total(m, intents - {id})
  }

  // ----- policy -----

  function EffectiveMode(p: Policy, now: int): Mode {
    if p.mode.Live? && (p.liveUntil.None? || p.liveUntil.value <= now) then Simulation
    else p.mode
  }

  /** The bounds that every policy field must meet, and the order cap against the daily cap. */
  predicate FieldsInBounds(p: Policy) {
    && 0.50 <= p.minConfidence <= 0.95
    && 0 < p.maxOrderRisk <= p.maxDailyRisk
    && 1 <= p.maxOpen <= 20
    && 0.0 < p.capitalFraction <= 0.80
    && 0.0 < p.maxSpread <= 0.25
    && 5 <= p.maxQuoteAge <= 120
  }

  /** `requested` is the stored policy with the operator's changes merged in. */
  function UpdatePolicy(s: State, requested: Policy, liveForMinutes: Option<int>, now: int): Result<State, Error> {
    if requested.mode.Live? && (liveForMinutes.None? || !(1 <= liveForMinutes.value <= 480)) then Err(BadPolicy)
    else if !FieldsInBounds(requested) then Err(BadPolicy)
    else if requested.mode.Live?
            && (requested.symbols == {} || requested.strategies == {} || requested.modules == {}) then Err(BadPolicy)
    else
      var policy := requested.(
        revision := s.policy.revision + 1,
        updatedAt := now,
        liveUntil := if requested.mode.Live? then Some(now + 60 * liveForMinutes.value) else None);
      Ok(State(policy, if policy.mode.Simulation? then Disarmed(s.intents, now) else s.intents))
  }

  function Disarmed(intents: map<string, Intent>, now: int): map<string, Intent> {
    map id | id in intents :: DisarmedIntent(intents[id], now)
  }

  // ----- alerts -----

  predicate PlanStatusAllowed(p: PlanStatus, live: bool) {
    p.ActivePlan? || (!live && p.ShadowPlan?)
  }

  predicate DynamicAlert(a: Alert) {
    a.strategy == DYNAMIC_STRATEGY && a.module_ == DYNAMIC_MODULE
  }

  /** No reason speaks against the alert that does not depend on other intents. */
  predicate AlertAcceptable(p: Policy, a: Alert, env: Env, live: bool) {
    && PlanStatusAllowed(a.planStatus, live)
    && !(live && a.researchOnly)
    && a.validUntil > env.now
    && (p.symbols == {} || a.symbol in p.symbols)
    && (p.strategies == {} || a.strategy in p.strategies)
    && (p.modules == {} || a.module_ in p.modules)
    && a.confidence >= p.minConfidence
    && a.dollarRisk <= p.maxOrderRisk
    && !(a.vehicle.OptionVehicle? && !p.allowOptions)
    && (a.action.EquityBuy? || a.action.BuyToOpen? || (DynamicAlert(a) && a.action.EquitySell?))
    && !(live && a.vehicle.OptionVehicle? && !DynamicAlert(a))
    && !env.symbolBlocked
    && (live && p.requireCalibration ==> env.calibrated && env.liveEligible)
  }

  ghost predicate AlertEligible(s: State, a: Alert, env: Env, live: bool) {
    && AlertAcceptable(s.policy, a, env, live)
    && (live ==> Total(OpenLive(env.now), s.intents) < s.policy.maxOpen)
    && (live ==> Total(Reserved(env.day), s.intents) + a.dollarRisk <= s.policy.maxDailyRisk)
  }

  function PlanFor(a: Alert): OrderPlan {
    if DynamicAlert(a) then
      OrderPlan(SelectionRequired, Some(if a.stopBelowPrice then CallOption else PutOption), a.zoneLow, a.zoneHigh,
        None)
    else
      OrderPlan(if a.vehicle.EquityVehicle? then EquityShares else OptionContract,
                None, a.zoneLow, a.zoneHigh, Some(a.capitalRequired))
  }

  function CreatedIntent(a: Alert, mode: Mode, status: Status, env: Env): Intent {
    Intent(
      Info(a.alertId, mode, a.symbol, a.strategy, a.module_, env.now, env.day, a.validUntil, a.confidence,
        a.dollarRisk),
      status, env.now, PlanFor(a), None, None, None, None, [],
      [Event(1, env.now, IntentCreated, None, status, None)], 1)
  }

  function InitialStatus(mode: Mode, eligible: bool): Status {
    if !eligible then Blocked else if mode.Simulation? then Shadow else Ready
  }

  ghost function OnAlert(s: State, a: Alert, env: Env): State {
    if a.alertId in s.intents then
      var i := s.intents[a.alertId];
      if !PlanStatusAllowed(a.planStatus, i.info.mode.Live?) || env.symbolBlocked
      then s.(intents := s.intents[a.alertId := BlockOrRevoke(i, env.now)])
      else s
    else
      var mode := EffectiveMode(s.policy, env.now);
      var status := InitialStatus(mode, AlertEligible(s, a, env, mode.Live?));
      s.(intents := s.intents[a.alertId := CreatedIntent(a, mode, status, env)])
  }

  // ----- option selection -----

  datatype SelectionRequest = SelectionRequest(
    agent: string,
    buyingPower: int,
    observedAt: int,
    observedDay: int,
    accountScope: string,
    candidates: seq<Candidate>)

  predicate Fresh(now: int, observedAt: int, maxAge: int) {
    -5 <= now - observedAt <= maxAge
  }

  ghost function RemainingDailyRisk(s: State, id: string, day: int): nat {
    var used := Total(Used(day), s.intents - {id});
    if used > s.policy.maxDailyRisk then 0 else s.policy.maxDailyRisk - used
  }

  ghost function SelectionScreen(s: State, id: string, req: SelectionRequest, env: Env): Screen
    requires id in s.intents && s.intents[id].plan.request.Some?
  {
    var i := s.intents[id];
    Screen(i.info.symbol, i.plan.request.value, env.now, req.observedDay,
           CapitalCeiling(req.buyingPower, s.policy, RemainingDailyRisk(s, id, env.day)), s.policy)
  }

  ghost function AttestSelection(s: State, id: string, req: SelectionRequest, env: Env): Result<State, Error> {
    if req.agent != AGENT then Err(WrongAgent)
    else if req.buyingPower <= 0 then Err(BadBuyingPower)
    else if req.accountScope != ACCOUNT_SCOPE then Err(WrongAccount)
    else if id !in s.intents then Err(UnknownIntent)
    else
      var i := s.intents[id];
      if !i.status.Shadow? && !i.status.Ready? then Err(WrongStatus)
      else if i.info.validUntil <= env.now then Err(AlreadyExpired)
      else if i.info.mode.Live? && !EffectiveMode(s.policy, env.now).Live? then Err(LiveWindowOver)
      else if i.plan.request.None? then Err(NoDynamicSelection)
      else if !Fresh(env.now, req.observedAt, CAPITAL_REVIEW_MAX_AGE) then Err(StaleObservation)
      else if req.candidates == [] then Err(NoCandidates)
      else
        var screen := SelectionScreen(s, id, req, env);
        if screen.ceiling <= 0 then Err(NoCapital)
        else match Select(req.candidates, screen, env.now)
          case None => Err(NothingEligible)
          case Some(sel) => Ok(s.(intents := s.intents[id := SelectedIntent(i, sel, env.now)]))
  }

  // ----- operator decisions -----

  function Approve(s: State, id: string, env: Env): Result<State, Error> {
    if id !in s.intents then Err(UnknownIntent)
    else
      var i := s.intents[id];
      if !i.status.AwaitingApproval? then Err(WrongStatus)
      else if i.info.validUntil <= env.now then
        Ok(s.(intents := s.intents[id := Logged(i, StatusChanged, Expired, env.now, None)]))
      else if env.symbolBlocked then Ok(s.(intents := s.intents[id := BlockOrRevoke(i, env.now)]))
      else Ok(s.(intents := s.intents[id := Logged(i, OperatorApproved, Ready, env.now, None)]))
  }

  function Reject(s: State, id: string, env: Env): Result<State, Error> {
    if id !in s.intents then Err(UnknownIntent)
    else
      var i := s.intents[id];
      if i.status.Claimed? then Ok(s.(intents := s.intents[id := RevokedIntent(i, env.now)]))
      else if !Blockable(i.status) then Err(WrongStatus)
      else Ok(s.(intents := s.intents[id := Logged(i, OperatorRejected, Rejected, env.now, None)]))
  }

  // ----- capital preflight -----

  datatype CapitalRequest = CapitalRequest(
    agent: string,
    buyingPower: int,
    observedAt: int,
    currency: string,
    accountScope: string)

  function CheckFor(p: Policy, required: int, req: CapitalRequest): CapitalCheck {
    var maximum := Rounding.RoundHalfEven(req.buyingPower as real * p.capitalFraction);
    CapitalCheck(req.buyingPower, req.observedAt, maximum, required, required <= maximum)
  }

  /** A failing review is recorded and then takes the intent out of play. */
  function PreflightIntent(i: Intent, check: CapitalCheck, now: int): Intent {
    var checked := CheckedIntent(i, check, now);
    if check.passed then checked else BlockOrRevoke(checked, now)
  }

  /** Whatever its outcome, the review stays on file. */
  lemma PreflightKeepsCheck(i: Intent, check: CapitalCheck, now: int)
    ensures PreflightIntent(i, check, now).check == Some(check)
  {
  }

  function AttestCapital(s: State, id: string, req: CapitalRequest, env: Env): Result<State, Error> {
    if req.agent != AGENT then Err(WrongAgent)
    else if id !in s.intents then Err(UnknownIntent)
    else
      var i := s.intents[id];
      if i.status.Claimed? && i.revokedAt.Some? then Err(ClaimRevokedBefore)
      else if i.status.Claimed? && i.claim.Some? && i.claim.value.leaseUntil > env.now then Err(LeaseActive)
      else if !i.status.Claimed? && !i.status.Ready? then Err(WrongStatus)
      else if !i.info.mode.Live? then Err(WrongMode)
      else if i.plan.instrument.SelectionRequired? then Err(SelectionRequiredFirst)
      else if req.buyingPower <= 0 then Err(BadBuyingPower)
      else if req.currency != "USD" then Err(WrongCurrency)
      else if req.accountScope != ACCOUNT_SCOPE then Err(WrongAccount)
      else if !Fresh(env.now, req.observedAt, CAPITAL_REVIEW_MAX_AGE) then Err(StaleObservation)
      else if i.plan.capitalRequired.None? then Err(CapitalRefused(CapitalMissing))
      else
        var check := CheckFor(s.policy, i.plan.capitalRequired.value, req);
        Ok(s.(intents := s.intents[id := PreflightIntent(i, check, env.now)]))
  }

  // ----- claims -----

  datatype ClaimRequest = ClaimRequest(agent: string, underlyingPrice: int, observedAt: int)

  predicate ClaimPolicyAllows(p: Policy, i: Intent, env: Env) {
    && i.info.symbol in p.symbols
    && i.info.strategy in p.strategies
    && i.info.module_ in p.modules
    && i.info.confidence >= p.minConfidence
    && !((!i.plan.instrument.EquityShares? || i.selection.Some?) && !p.allowOptions)
    && !(i.plan.instrument.OptionContract? && i.selection.None?)
    && (p.requireCalibration ==> env.calibrated && env.liveEligible)
  }

  /** `min(now + 2 minutes, valid_until, live window)` */
  function LeaseEnd(p: Policy, i: Intent, now: int): int {
    var a := if i.info.validUntil < now + 120 then i.info.validUntil else now + 120;
    if p.liveUntil.Some? && p.liveUntil.value < a then p.liveUntil.value else a
  }

  function SelectionReason(p: Policy, i: Intent, required: int, env: Env): Option<CapitalReason> {
    if i.selection.None? then Some(SelectionMissing)
    else
      var sel := i.selection.value;
      if !Fresh(env.now, sel.quoteAt, p.maxQuoteAge) then Some(SelectionQuoteStale)
      else if sel.selloutAt <= env.now + 300 then Some(SelectionSellout)
      else if sel.plannedDebit != required then Some(DebitMismatch)
      else if sel.expirationDay - env.day !in p.expiryDays then Some(ExpiryNotAllowed)
      else if sel.spread > p.maxSpread then Some(SpreadTooWide)
      else if sel.volume < p.minVolume then Some(VolumeTooThin)
      else if sel.openInterest < p.minOpenInterest then Some(InterestTooThin)
      else None
  }

  function ReviewReason(p: Policy, i: Intent, required: int, env: Env): Option<CapitalReason> {
    if i.check.None? then Some(ReviewMissing)
    else
      var check := i.check.value;
      if !check.passed then Some(ReviewFailed)
      else if !Fresh(env.now, check.observedAt, CAPITAL_REVIEW_MAX_AGE) then Some(ReviewStale)
      else if check.required != required then Some(ReviewMismatch)
      else if required as real > check.buyingPower as real * p.capitalFraction then Some(BuyingPowerShort)
      else None
  }

  /** `remaining` is what the day's risk budget still holds for this intent. */
  function CapitalReasonFor(p: Policy, i: Intent, remaining: nat, env: Env): Option<CapitalReason> {
    if i.plan.capitalRequired.None? then Some(CapitalMissing)
    else
      var required := i.plan.capitalRequired.value;
      var risk := if Dynamic(i.info) then required else i.info.dollarRisk;
      if required <= 0 then Some(CapitalNotPositive)
      else if risk > p.maxOrderRisk then Some(OrderCap)
      else if risk > remaining then Some(DailyCap)
      else
        var chosen := if Dynamic(i.info) then SelectionReason(p, i, required, env) else None;
        if chosen.Some? then chosen else ReviewReason(p, i, required, env)
  }

  ghost function AttemptClaim(s: State, id: string, req: ClaimRequest, env: Env): Result<State, Error> {
    if req.agent != AGENT then Err(WrongAgent)
    else if id !in s.intents then Err(UnknownIntent)
    else
      var i := s.intents[id];
      if !i.info.mode.Live? then Err(WrongMode)
      else if !EffectiveMode(s.policy, env.now).Live? then
        Ok(s.(intents := s.intents[id := BlockOrRevoke(i, env.now)]))
      else if !i.status.Ready? && !i.status.Claimed? then Err(WrongStatus)
      else if i.info.validUntil <= env.now then
        Ok(s.(intents := s.intents[id := if i.status.Claimed? then RevokedIntent(i, env.now)
                                         else Logged(i, StatusChanged, Expired, env.now, None)]))
      else if env.symbolBlocked || !ClaimPolicyAllows(s.policy, i, env)
              || Total(OpenLive(env.now), s.intents - {id}) >= s.policy.maxOpen then
        Ok(s.(intents := s.intents[id := BlockOrRevoke(i, env.now)]))
      else GrantClaim(s, id, req, env)
  }

  /** The part of a claim that looks at the quote, the running lease and the capital. */
  ghost function GrantClaim(s: State, id: string, req: ClaimRequest, env: Env): Result<State, Error>
    requires id in s.intents
  {
    var i := s.intents[id];
    if req.underlyingPrice <= 0 then Err(BadPrice)
    else if !Fresh(env.now, req.observedAt, s.policy.maxQuoteAge) then Err(StaleObservation)
    else if !(i.plan.zoneLow <= req.underlyingPrice <= i.plan.zoneHigh) then Err(OutsideZone)
    else if i.status.Claimed? && i.revokedAt.Some? then Err(ClaimRevokedBefore)
    else if i.status.Claimed? && i.claim.Some? && i.claim.value.leaseUntil > env.now then Err(LeaseActive)
    else match CapitalReasonFor(s.policy, i, RemainingDailyRisk(s, id, env.day), env)
      case Some(why) => Err(CapitalRefused(why))
      case None =>
        var claim := Claim(env.now, env.day, LeaseEnd(s.policy, i, env.now));
        Ok(s.(intents := s.intents[id := ClaimedIntent(i, claim, env.now)]))
  }

  // ----- quarantine and expiry -----

  function BlockSymbol(s: State, symbol: string, now: int): State {
    s.(intents := map id | id in s.intents ::
         if s.intents[id].info.symbol == symbol then BlockOrRevoke(s.intents[id], now) else s.intents[id])
  }

  /** The sweep behind every listing; a lapsed LIVE window also disarms what it left behind. */
  function ExpireStale(s: State, now: int): State {
    var swept := map id | id in s.intents :: SweptIntent(s.intents[id], now);
    s.(intents :=
         if s.policy.mode.Live? && EffectiveMode(s.policy, now).Simulation? then Disarmed(swept, now) else swept)
  }

  // ----- receipts -----

  datatype Receipt = Receipt(
    status: Status,
    observedAt: int,
    brokerOrderId: string,
    optionId: Option<string>,
    quantity: Option<Positive>,
    price: Option<Positive>,
    pretradeAlerts: bool)

  predicate ReceiptAllowed(from: Status, to: Status) {
    match from
    case Claimed => to.Executed? || to.Rejected? || to.Failed? || to.Cancelled?
    case Cancelled => to.Executed?
    case Executed => to.Closed? || to.Failed?
    case _ => false
  }

  /** What a fill must prove before it is recorded. */
  function FillError(i: Intent, r: Receipt): Option<Error> {
    if r.brokerOrderId == "" then Some(IncompleteFill)
    else if r.price.None? || r.quantity.None? then Some(IncompleteFill)
    else if r.pretradeAlerts then Some(PretradeAlert)
    else if i.selection.None? then None
    else if r.optionId.Some? && r.optionId.value != "" && r.optionId.value != i.selection.value.optionId
    then Some(WrongOption)
    else if r.status.Executed? then
      if r.quantity.value > i.selection.value.quantity then Some(Oversized) else None
    else match FirstEntry(i.trades)
      case None => Some(NoEntry)
      case Some(entry) => if Some(r.quantity.value) != entry.quantity then Some(PartialExit) else None
  }

  function RowKindOf(status: Status): RowKind {
    if status.Executed? then Entry else if status.Closed? then Exit else Report(status)
  }

  function ReceiptRow(i: Intent, r: Receipt, pnl: Option<int>): TradeRow {
    TradeRow(RowKindOf(r.status), false,
             if (r.status.Executed? || r.status.Closed?) && i.selection.Some?
             then Some(i.selection.value.optionId)
             else r.optionId,
             if r.price.Some? then Some(r.price.value) else None,
             if r.quantity.Some? then Some(r.quantity.value) else None,
             pnl)
  }

  /** The profit lookup of a closing receipt; `NoEntry` stands for its failure. */
  function RealizedPnl(rows: seq<TradeRow>, exitPrice: int): Result<int, Error> {
    match FirstEntry(rows)
    case None => Err(NoEntry)
    case Some(entry) =>
      if entry.price.None? || entry.quantity.None? || entry.price.value == 0 then Err(NoEntry)
      else Ok((exitPrice - entry.price.value) * entry.quantity.value)
  }

  function RecordReceipt(s: State, id: string, r: Receipt, env: Env): Result<State, Error> {
    if id !in s.intents then Err(UnknownIntent)
    else
      var i := s.intents[id];
      if !i.info.mode.Live? then Err(WrongMode)
      else if !ReceiptAllowed(i.status, r.status) then Err(InvalidTransition)
      else if r.observedAt > env.now + 5 then Err(FutureReceipt)
      else if (r.status.Executed? || r.status.Closed?) && FillError(i, r).Some? then Err(FillError(i, r).value)
      else if r.status.Closed? then
        match RealizedPnl(i.trades, r.price.value) {
          case Err(e) => Err(e)
          case Ok(pnl) =>
            var row := ReceiptRow(i, r, Some(pnl));
            Ok(s.(intents := s.intents[id := Logged(i, BrokerReceipt, Closed, env.now, Some(row))]))
        }
      else if i.status.Executed? then
        // A failed exit is no proof that the exposure is gone.
        Ok(s.(intents := s.intents[id := Logged(i, BrokerExitFailed, Executed, env.now, Some(ReceiptRow(i, r, None)))]))
      else
        Ok(s.(intents := s.intents[id := Logged(i, BrokerReceipt, r.status, env.now, Some(ReceiptRow(i, r, None)))]))
  }

  datatype SimulationReceipt = SimulationReceipt(
    entry: bool,
    optionId: string,
    observedAt: int,
    bid: nat,
    ask: Positive,
    underlyingPrice: int,
    volume: nat,
    openInterest: nat)

  /** The extra conditions of a simulated entry, after the ones shared with exits. */
  function SimulatedEntryError(p: Policy, i: Intent, sel: Selection, r: SimulationReceipt, now: int): Option<Error> {
    if !Fresh(now, sel.recordedAt, p.maxQuoteAge) then Some(StaleSelection)
    else if sel.selloutAt <= now + 300 then Some(SelloutNear)
    else if r.bid <= 0 then Some(Illiquid)
    else if Spread(r.bid, r.ask) > p.maxSpread then Some(Illiquid)
    else if r.volume < p.minVolume then Some(Illiquid)
    else if r.openInterest < p.minOpenInterest then Some(Illiquid)
    else if !(i.plan.zoneLow <= r.underlyingPrice <= i.plan.zoneHigh) then Some(OutsideZone)
    else None
  }

  function SimulationError(p: Policy, i: Intent, r: SimulationReceipt, env: Env): Option<Error> {
    if !i.info.mode.Simulation? then Some(WrongMode)
    else if i.status != (if r.entry then Shadow else Executed) then Some(WrongStatus)
    else if i.selection.None? then Some(SelectionRequiredFirst)
    else if r.entry && i.info.validUntil <= env.now then Some(AlreadyExpired)
    else if r.entry && env.symbolBlocked then Some(SymbolUnavailable)
    else if r.optionId != i.selection.value.optionId then Some(WrongOption)
    else if !Fresh(env.now, r.observedAt, p.maxQuoteAge) then Some(StaleObservation)
    else if r.ask < r.bid then Some(InvertedMarket)
    else if r.entry then SimulatedEntryError(p, i, i.selection.value, r, env.now)
    else None
  }

  /** Entries are modelled at the ask, exits at the bid. */
  function SimulationRow(sel: Selection, r: SimulationReceipt, pnl: Option<int>): TradeRow {
    TradeRow(if r.entry then Entry else Exit, true, Some(sel.optionId),
             Some(if r.entry then r.ask else r.bid), Some(sel.quantity), pnl)
  }

  function RecordSimulation(s: State, id: string, r: SimulationReceipt, env: Env): Result<State, Error> {
    if id !in s.intents then Err(UnknownIntent)
    else
      var i := s.intents[id];
      match SimulationError(s.policy, i, r, env)
      case Some(e) => Err(e)
      case None =>
        if r.entry then
          Ok(s.(intents := s.intents[id :=
               Logged(i, SimulationEntry, Executed, env.now, Some(SimulationRow(i.selection.value, r, None)))]))
        else match RealizedPnl(i.trades, r.bid)
          case Err(e) => Err(e)
          case Ok(pnl) =>
            Ok(s.(intents := s.intents[id :=
                 Logged(i, SimulationExit, Closed, env.now, Some(SimulationRow(i.selection.value, r, Some(pnl))))]))
  }
}
