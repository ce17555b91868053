/**
 * The intent queue as the program keeps it: intent objects updated in place, held in a dictionary.
 * Every operation is proved to do exactly what its `QueueSpec` function says, errors included.
 */
module AutotradeManager {
  import opened Prelude
  import opened Intents
  import opened OptionChoice
  import opened OptionScreens
  import opened QueueSpec
  import opened QueueTotals

  class ExecutionIntent {
    const info: Info
    var status: Status
    var updatedAt: int
    var plan: OrderPlan
    var claim: Option<Claim>
    var revokedAt: Option<int>
    var check: Option<CapitalCheck>
    var selection: Option<Selection>
    var tradeEvents: seq<TradeRow>
    var events: seq<Event>
    var revision: nat

    function View(): (i: Intent)
      reads this
      ensures i.info == info
    {
      Intent(info, status, updatedAt, plan, claim, revokedAt, check, selection, tradeEvents, events, revision)
    }

    constructor (a: Alert, mode: Mode, initial: Status, env: Env)
      ensures View() == CreatedIntent(a, mode, initial, env)
    {
      info := Info(a.alertId, mode, a.symbol, a.strategy, a.module_, env.now, env.day, a.validUntil,
                   a.confidence, a.dollarRisk);
      status, updatedAt := initial, env.now;
      plan := PlanFor(a);
      claim, revokedAt, check, selection := None, None, None, None;
      tradeEvents := [];
      events := [Event(1, env.now, IntentCreated, None, initial, None)];
      revision := 1;
    }

    method AppendEvent(kind: EventKind, previous: Status, to: Status, now: int, row: Option<TradeRow>)
      modifies this`events
      ensures events == old(events) + [Event(|old(events)| + 1, now, kind, Some(previous), to, row)]
    {
      events := events + [Event(|events| + 1, now, kind, Some(previous), to, row)];
    }

    /** Moves to a status and logs it; the caller has already put `row` in the ledger. */
    method Transition(to: Status, kind: EventKind, now: int, row: Option<TradeRow>)
      modifies this
      ensures View() == Logged(old(View()), kind, to, now, row).(trades := old(tradeEvents))
      ensures row.None? ==> View() == Logged(old(View()), kind, to, now, None)
    {
      var previous := status;
      status := to;
      updatedAt := now;
      revision := revision + 1;
      AppendEvent(kind, previous, to, now, row);
    }

    method MutateBlocked(now: int)
      modifies this
      ensures View() == BlockedIntent(old(View()), now)
    {
      Transition(Blocked, IntentBlocked, now, None);
    }

    method MutateRevokedClaim(now: int)
      modifies this
      ensures View() == RevokedIntent(old(View()), now)
    {
      if revokedAt.Some? {
        return;
      }
      revokedAt := Some(now);
      Transition(status, ClaimRevoked, now, None);
    }

    method BlockIntent(now: int)
      modifies this
      ensures View() == BlockOrRevoke(old(View()), now)
    {
      if Blockable(status) {
        MutateBlocked(now);
      } else if status.Claimed? {
        MutateRevokedClaim(now);
      }
    }

    method ApplySelection(sel: Selection, now: int)
      modifies this
      ensures View() == SelectedIntent(old(View()), sel, now)
    {
      selection := Some(sel);
      plan := plan.(instrument := OptionContract, capitalRequired := Some(sel.plannedDebit));
      check := None;
      Transition(status, OptionSelected, now, None);
    }

    method ApplyCheck(review: CapitalCheck, now: int)
      modifies this
      ensures View() == CheckedIntent(old(View()), review, now)
    {
      check := Some(review);
      Transition(status, CapitalPreflight, now, None);
    }

    method ApplyClaim(granted: Claim, now: int)
      modifies this
      ensures View() == ClaimedIntent(old(View()), granted, now)
    {
      claim, revokedAt := Some(granted), None;
      Transition(Claimed, ClaimAcquired, now, None);
    }

    /** One pass of the expiry sweep. */
    method ExpireIfStale(now: int)
      modifies this
      ensures View() == SweptIntent(old(View()), now)
    {
      if Blockable(status) && info.validUntil <= now {
        Transition(Expired, IntentExpired, now, None);
      } else if status.Claimed? && info.validUntil <= now {
        MutateRevokedClaim(now);
      }
    }

    /** Puts a receipt row into the ledger and logs the status it leads to. */
    method RecordRow(row: TradeRow, to: Status, kind: EventKind, now: int)
      modifies this
      ensures View() == Logged(old(View()), kind, to, now, Some(row))
    {
      tradeEvents := tradeEvents + [row];
      Transition(to, kind, now, Some(row));
    }
  }

  class AutotradeManager {
    var policy: Policy
    var intents: map<string, ExecutionIntent>

    /** No two ids share an intent object. */
    ghost predicate Valid()
      reads this
    {
      forall a, b :: a in intents && b in intents && a != b ==> intents[a] != intents[b]
    }

    ghost function View(): State
      reads this, intents.Values
    {
      State(policy, Views(intents))
    }

    static ghost function Views(m: map<string, ExecutionIntent>): map<string, Intent>
      reads m.Values
    {
      map id | id in m :: m[id].View()
    }

    static lemma ViewsWithout(m: map<string, ExecutionIntent>, id: string)
      ensures Views(m - {id}) == Views(m) - {id}
    {
    }

    constructor (p: Policy)
      ensures Valid() && View() == State(p, map[]) && fresh(intents.Values)
    {
      policy, intents := p, map[];
    }

    /** Updating one intent object in place updates one entry of the queue. */
    twostate lemma OnlyOneChanged(id: string)
      requires old(Valid()) && intents == old(intents) && policy == old(policy) && id in intents
      requires forall k :: k in intents && k != id ==> unchanged(intents[k])
      ensures Valid()
      ensures View() == old(View()).(intents := old(View()).intents[id := intents[id].View()])
    {
      forall k | k in intents && k != id ensures intents[k].View() == old(intents[k].View()) {
      }
    }

    // ----- sums -----

    /** Adds up one measure over a part of the dictionary. */
    method SumOver(m: Measure, part: map<string, ExecutionIntent>) returns (sum: nat)
      ensures sum == Total(m, Views(part))
    {
      hide Weight;
      sum := 0;
      var left := part;
      while left.Keys != {}
        invariant left.Keys <= part.Keys
        invariant forall id :: id in left ==> left[id] == part[id]
        invariant sum + Total(m, Views(left)) == Total(m, Views(part))
        decreases |left.Keys|
      {
        var id :| id in left.Keys;
        TotalRemove(m, Views(left), id);
        ViewsWithout(left, id);
        sum := sum + Weight(m, left[id].View());
        assert (left - {id}).Keys == left.Keys - {id};
        left := left - {id};
      }
      assert Views(left) == map[];
    }

    method RemainingRisk(id: string, day: int) returns (r: nat)
      ensures r == RemainingDailyRisk(View(), id, day)
    {
      hide Total;
      var used := SumOver(Used(day), intents - {id});
      ViewsWithout(intents, id);
      r := if used > policy.maxDailyRisk then 0 else policy.maxDailyRisk - used;
    }

    method OpenOthers(id: string, now: int) returns (n: nat)
      ensures n == Total(OpenLive(now), View().intents - {id})
    {
      hide Total;
      n := SumOver(OpenLive(now), intents - {id});
      ViewsWithout(intents, id);
    }

    // ----- policy -----

    method DisableLiveAuthority(now: int)
      requires Valid()
      modifies intents.Values
      ensures Valid() && intents == old(intents) && policy == old(policy)
      ensures View() == State(old(policy), Disarmed(old(View()).intents, now))
    {
      hide BlockOrRevoke, ExecutionIntent.View;
      ghost var before := View().intents;
      var todo := intents.Keys;
      while todo != {}
        invariant todo <= intents.Keys
        invariant forall id :: id in intents ==>
          intents[id].View() == if id in todo then before[id] else DisarmedIntent(before[id], now)
        decreases |todo|
      {
        var id :| id in todo;
        var intent := intents[id];
        if intent.info.mode.Live? {
          intent.BlockIntent(now);
        }
        todo := todo - {id};
      }
    }

    method SetPolicy(requested: Policy, liveForMinutes: Option<int>, now: int) returns (r: Result<Policy, Error>)
      requires Valid()
      modifies this, intents.Values
      ensures Valid() && intents == old(intents)
      ensures match UpdatePolicy(old(View()), requested, liveForMinutes, now)
              case Ok(t) => View() == t && r == Ok(policy)
              case Err(e) => View() == old(View()) && r == Err(e)
    {
      if requested.mode.Live? && (liveForMinutes.None? || !(1 <= liveForMinutes.value <= 480)) {
        return Err(BadPolicy);
      }
      if !FieldsInBounds(requested) {
        return Err(BadPolicy);
      }
      if requested.mode.Live? && (requested.symbols == {} || requested.strategies == {} || requested.modules == {}) {
        return Err(BadPolicy);
      }
      var liveUntil := if requested.mode.Live? then Some(now + 60 * liveForMinutes.value) else None;
      policy := requested.(revision := policy.revision + 1, updatedAt := now, liveUntil := liveUntil);
      if policy.mode.Simulation? {
        DisableLiveAuthority(now);
      }
      return Ok(policy);
    }

    // ----- alerts -----

    method ReceiveAlert(a: Alert, env: Env) returns (intent: ExecutionIntent)
      requires Valid()
      modifies this`intents, intents.Values
      ensures Valid() && policy == old(policy)
      ensures View() == OnAlert(old(View()), a, env)
      ensures a.alertId in intents && intent == intents[a.alertId]
      ensures forall id :: id in old(intents) ==> id in intents && intents[id] == old(intents[id])
    {
      if a.alertId in intents {
        intent := RecheckIntent(a, env);
      } else {
        intent := CreateIntent(a, env);
      }
    }

    /** A known alert may only block or revoke its intent. */
    method RecheckIntent(a: Alert, env: Env) returns (intent: ExecutionIntent)
      requires Valid() && a.alertId in intents
      modifies intents[a.alertId]
      ensures Valid() && View() == OnAlert(old(View()), a, env) && intent == intents[a.alertId]
    {
      hide Total, AlertEligible, BlockOrRevoke, EffectiveMode;
      intent := intents[a.alertId];
      if !PlanStatusAllowed(a.planStatus, intent.info.mode.Live?) || env.symbolBlocked {
        intent.BlockIntent(env.now);
      }
      OnlyOneChanged(a.alertId);
      assert old(View()).intents[a.alertId := old(View()).intents[a.alertId]] == old(View()).intents;
    }

    method CreateIntent(a: Alert, env: Env) returns (intent: ExecutionIntent)
      requires Valid() && a.alertId !in intents
      modifies this`intents
      ensures Valid() && View() == OnAlert(old(View()), a, env)
      ensures fresh(intent) && intents == old(intents)[a.alertId := intent]
    {
      hide Total, AlertEligible, EffectiveMode, ExecutionIntent.View, CreatedIntent, InitialStatus;
      var mode := EffectiveMode(policy, env.now);
      var eligible := NoReasonAgainst(a, env, mode.Live?);
      intent := new ExecutionIntent(a, mode, InitialStatus(mode, eligible), env);
      intents := intents[a.alertId := intent];
      assert View().intents == old(View()).intents[a.alertId := intent.View()];
    }

    method NoReasonAgainst(a: Alert, env: Env, live: bool) returns (eligible: bool)
      ensures eligible == AlertEligible(View(), a, env, live)
    {
      hide Total, AlertAcceptable;
      var open := SumOver(OpenLive(env.now), intents);
      var reserved := SumOver(Reserved(env.day), intents);
      eligible := AlertAcceptable(policy, a, env, live)
        && (live ==> open < policy.maxOpen)
        && (live ==> reserved + a.dollarRisk <= policy.maxDailyRisk);
    }

    // ----- option selection -----

    method AttestOptionSelection(id: string, req: SelectionRequest, env: Env)
      returns (r: Result<Selection, Error>)
      requires Valid()
      modifies intents.Values
      ensures Valid() && intents == old(intents) && policy == old(policy)
      ensures match AttestSelection(old(View()), id, req, env)
              case Ok(t) => View() == t && r.Ok? && intents[id].selection == Some(r.value)
              case Err(e) => View() == old(View()) && r == Err(e)
    {
      hide Total, OptionChoice.Select, Eligible, CapitalCeiling, Fresh, EffectiveMode, RemainingDailyRisk;
      if req.agent != AGENT { return Err(WrongAgent); }
      if req.buyingPower <= 0 { return Err(BadBuyingPower); }
      if req.accountScope != ACCOUNT_SCOPE { return Err(WrongAccount); }
      if id !in intents { return Err(UnknownIntent); }
      var intent := intents[id];
      if !intent.status.Shadow? && !intent.status.Ready? { return Err(WrongStatus); }
      if intent.info.validUntil <= env.now { return Err(AlreadyExpired); }
      if intent.info.mode.Live? && !EffectiveMode(policy, env.now).Live? { return Err(LiveWindowOver); }
      if intent.plan.request.None? { return Err(NoDynamicSelection); }
      if !Fresh(env.now, req.observedAt, CAPITAL_REVIEW_MAX_AGE) { return Err(StaleObservation); }
      if req.candidates == [] { return Err(NoCandidates); }
      var remaining := RemainingRisk(id, env.day);
      var ceiling := CapitalCeiling(req.buyingPower, policy, remaining);
      if ceiling <= 0 { return Err(NoCapital); }
      var screen := Screen(intent.info.symbol, intent.plan.request.value, env.now, req.observedDay, ceiling, policy);
      var eligible, counts := ScreenCandidates(req.candidates, screen);
      if eligible == [] { return Err(NothingEligible); }
      var sel := OptionChoice.Select(req.candidates, screen, env.now).value;
      intent.ApplySelection(sel, env.now);
      OnlyOneChanged(id);
      return Ok(sel);
    }

    // ----- operator decisions -----

    method ApproveIntent(id: string, env: Env) returns (r: Result<Status, Error>)
      requires Valid()
      modifies intents.Values
      ensures Valid() && intents == old(intents) && policy == old(policy)
      ensures match Approve(old(View()), id, env)
              case Ok(t) => View() == t && r == Ok(intents[id].status)
              case Err(e) => View() == old(View()) && r == Err(e)
    {
      if id !in intents { return Err(UnknownIntent); }
      var intent := intents[id];
      if !intent.status.AwaitingApproval? { return Err(WrongStatus); }
      if intent.info.validUntil <= env.now {
        intent.Transition(Expired, StatusChanged, env.now, None);
      } else if env.symbolBlocked {
        intent.BlockIntent(env.now);
      } else {
        intent.Transition(Ready, OperatorApproved, env.now, None);
      }
      OnlyOneChanged(id);
      return Ok(intent.status);
    }

    method RejectIntent(id: string, env: Env) returns (r: Result<Status, Error>)
      requires Valid()
      modifies intents.Values
      ensures Valid() && intents == old(intents) && policy == old(policy)
      ensures match Reject(old(View()), id, env)
              case Ok(t) => View() == t && r == Ok(intents[id].status)
              case Err(e) => View() == old(View()) && r == Err(e)
    {
      if id !in intents { return Err(UnknownIntent); }
      var intent := intents[id];
      if intent.status.Claimed? {
        intent.MutateRevokedClaim(env.now);
      } else {
        if !Blockable(intent.status) { return Err(WrongStatus); }
        intent.Transition(Rejected, OperatorRejected, env.now, None);
      }
      OnlyOneChanged(id);
      return Ok(intent.status);
    }

    // ----- capital preflight and claims -----

    method AttestBuyingPower(id: string, req: CapitalRequest, env: Env) returns (r: Result<bool, Error>)
      requires Valid()
      modifies intents.Values
      ensures Valid() && intents == old(intents) && policy == old(policy)
      ensures match AttestCapital(old(View()), id, req, env)
              case Ok(t) => View() == t && r == Ok(intents[id].check.value.passed)
              case Err(e) => View() == old(View()) && r == Err(e)
    {
      hide CheckFor, Fresh, BlockOrRevoke, CheckedIntent, Logged;
      if req.agent != AGENT { return Err(WrongAgent); }
      if id !in intents { return Err(UnknownIntent); }
      var intent := intents[id];
      if intent.status.Claimed? {
        if intent.revokedAt.Some? { return Err(ClaimRevokedBefore); }
        if intent.claim.Some? && intent.claim.value.leaseUntil > env.now { return Err(LeaseActive); }
      } else if !intent.status.Ready? {
        return Err(WrongStatus);
      }
      if !intent.info.mode.Live? { return Err(WrongMode); }
      if intent.plan.instrument.SelectionRequired? { return Err(SelectionRequiredFirst); }
      if req.buyingPower <= 0 { return Err(BadBuyingPower); }
      if req.currency != "USD" { return Err(WrongCurrency); }
      if req.accountScope != ACCOUNT_SCOPE { return Err(WrongAccount); }
      if !Fresh(env.now, req.observedAt, CAPITAL_REVIEW_MAX_AGE) { return Err(StaleObservation); }
      if intent.plan.capitalRequired.None? { return Err(CapitalRefused(CapitalMissing)); }
      var check := CheckFor(policy, intent.plan.capitalRequired.value, req);
      intent.ApplyCheck(check, env.now);
      if !check.passed {
        intent.BlockIntent(env.now);
      }
      PreflightKeepsCheck(old(intent.View()), check, env.now);
      OnlyOneChanged(id);
      return Ok(check.passed);
    }

    method AcquireClaim(id: string, req: ClaimRequest, env: Env) returns (r: Result<Status, Error>)
      requires Valid()
      modifies intents.Values
      ensures Valid() && intents == old(intents) && policy == old(policy)
      ensures match AttemptClaim(old(View()), id, req, env)
              case Ok(t) => View() == t && r == Ok(intents[id].status)
              case Err(e) => View() == old(View()) && r == Err(e)
    {
      hide Total, ClaimPolicyAllows, GrantClaim, EffectiveMode, BlockOrRevoke, RevokedIntent, Logged;
      if req.agent != AGENT { return Err(WrongAgent); }
      if id !in intents { return Err(UnknownIntent); }
      var intent := intents[id];
      if !intent.info.mode.Live? { return Err(WrongMode); }
      if !EffectiveMode(policy, env.now).Live? {
        intent.BlockIntent(env.now);
        OnlyOneChanged(id);
        return Ok(intent.status);
      }
      if !intent.status.Ready? && !intent.status.Claimed? { return Err(WrongStatus); }
      if intent.info.validUntil <= env.now {
        if intent.status.Claimed? {
          intent.MutateRevokedClaim(env.now);
        } else {
          intent.Transition(Expired, StatusChanged, env.now, None);
        }
        OnlyOneChanged(id);
        return Ok(intent.status);
      }
      r := ClaimUnderPolicy(id, req, env);
    }

    /** The rest of a claim, on an intent that is LIVE, in time and in a claimable status. */
    method ClaimUnderPolicy(id: string, req: ClaimRequest, env: Env) returns (r: Result<Status, Error>)
      requires Valid() && id in intents && req.agent == AGENT
      requires intents[id].info.mode.Live? && (intents[id].status.Ready? || intents[id].status.Claimed?)
      requires EffectiveMode(policy, env.now).Live? && env.now < intents[id].info.validUntil
      modifies intents[id]
      ensures Valid() && intents == old(intents) && policy == old(policy)
      ensures match AttemptClaim(old(View()), id, req, env)
              case Ok(t) => View() == t && r == Ok(intents[id].status)
              case Err(e) => View() == old(View()) && r == Err(e)
    {
      hide Total, ClaimPolicyAllows, GrantClaim, EffectiveMode, BlockOrRevoke, RevokedIntent, Logged;
      var intent := intents[id];
      var others := OpenOthers(id, env.now);
      if env.symbolBlocked || !ClaimPolicyAllows(policy, intent.View(), env) || others >= policy.maxOpen {
        intent.BlockIntent(env.now);
        OnlyOneChanged(id);
        return Ok(intent.status);
      }
      r := GrantOrRefuse(id, req, env);
    }

    method GrantOrRefuse(id: string, req: ClaimRequest, env: Env) returns (r: Result<Status, Error>)
      requires Valid() && id in intents
      modifies intents[id]
      ensures Valid() && intents == old(intents) && policy == old(policy)
      ensures match GrantClaim(old(View()), id, req, env)
              case Ok(t) => View() == t && r == Ok(intents[id].status)
              case Err(e) => View() == old(View()) && r == Err(e)
    {
      hide Total, CapitalReasonFor, LeaseEnd, Fresh, RemainingDailyRisk, ClaimedIntent, Logged;
      var intent := intents[id];
      if req.underlyingPrice <= 0 { return Err(BadPrice); }
      if !Fresh(env.now, req.observedAt, policy.maxQuoteAge) { return Err(StaleObservation); }
      if !(intent.plan.zoneLow <= req.underlyingPrice <= intent.plan.zoneHigh) { return Err(OutsideZone); }
      if intent.status.Claimed? {
        if intent.revokedAt.Some? { return Err(ClaimRevokedBefore); }
        if intent.claim.Some? && intent.claim.value.leaseUntil > env.now { return Err(LeaseActive); }
      }
      var remaining := RemainingRisk(id, env.day);
      var refusal := CapitalReasonFor(policy, intent.View(), remaining, env);
      if refusal.Some? { return Err(CapitalRefused(refusal.value)); }
      intent.ApplyClaim(Claim(env.now, env.day, LeaseEnd(policy, intent.View(), env.now)), env.now);
      OnlyOneChanged(id);
      return Ok(intent.status);
    }

    // ----- quarantine and expiry -----

    method Quarantine(symbol: string, now: int)
      requires Valid()
      modifies intents.Values
      ensures Valid() && intents == old(intents) && policy == old(policy)
      ensures View() == BlockSymbol(old(View()), symbol, now)
    {
      hide BlockOrRevoke, SweptIntent, ExecutionIntent.View;
      ghost var before := View().intents;
      var todo := intents.Keys;
      while todo != {}
        invariant todo <= intents.Keys
        invariant forall id :: id in intents ==>
          intents[id].View() == if id !in todo && before[id].info.symbol == symbol
                                then BlockOrRevoke(before[id], now) else before[id]
        decreases |todo|
      {
        var id :| id in todo;
        var intent := intents[id];
        if intent.info.symbol == symbol {
          intent.BlockIntent(now);
        }
        todo := todo - {id};
      }
    }

    method Sweep(now: int)
      requires Valid()
      modifies intents.Values
      ensures Valid() && intents == old(intents) && policy == old(policy)
      ensures View() == ExpireStale(old(View()), now)
    {
      hide BlockOrRevoke, SweptIntent, EffectiveMode, ExecutionIntent.View;
      SweepEach(now);
      ghost var before := old(View()).intents;
      ghost var swept := map id | id in before :: SweptIntent(before[id], now);
      assert View().intents == swept;
      if policy.mode.Live? && EffectiveMode(policy, now).Simulation? {
        DisableLiveAuthority(now);
      }
    }

    method SweepEach(now: int)
      requires Valid()
      modifies intents.Values
      ensures Valid() && intents == old(intents) && policy == old(policy)
      ensures forall id :: id in intents ==> intents[id].View() == SweptIntent(old(intents[id].View()), now)
    {
      hide SweptIntent, ExecutionIntent.View;
      var todo := intents.Keys;
      while todo != {}
        invariant todo <= intents.Keys
        invariant forall id :: id in intents ==>
          intents[id].View() == if id in todo then old(intents[id].View())
                                else SweptIntent(old(intents[id].View()), now)
        decreases |todo|
      {
        var id :| id in todo;
        var intent := intents[id];
        intent.ExpireIfStale(now);
        todo := todo - {id};
      }
    }

    // ----- receipts -----

    method RecordBrokerReceipt(id: string, receipt: Receipt, env: Env) returns (r: Result<Status, Error>)
      requires Valid()
      modifies intents.Values
      ensures Valid() && intents == old(intents) && policy == old(policy)
      ensures match RecordReceipt(old(View()), id, receipt, env)
              case Ok(t) => View() == t && r == Ok(intents[id].status)
              case Err(e) => View() == old(View()) && r == Err(e)
    {
      if id !in intents { return Err(UnknownIntent); }
      var intent := intents[id];
      if !intent.info.mode.Live? { return Err(WrongMode); }
      if !ReceiptAllowed(intent.status, receipt.status) { return Err(InvalidTransition); }
      if receipt.observedAt > env.now + 5 { return Err(FutureReceipt); }
      if receipt.status.Executed? || receipt.status.Closed? {
        var problem := FillError(intent.View(), receipt);
        if problem.Some? { return Err(problem.value); }
      }
      if receipt.status.Closed? {
        var pnl := RealizedPnl(intent.tradeEvents, receipt.price.value);
        if pnl.Err? { return Err(pnl.error); }
        intent.RecordRow(ReceiptRow(intent.View(), receipt, Some(pnl.value)), Closed, BrokerReceipt, env.now);
      } else if intent.status.Executed? {
        intent.RecordRow(ReceiptRow(intent.View(), receipt, None), Executed, BrokerExitFailed, env.now);
      } else {
        intent.RecordRow(ReceiptRow(intent.View(), receipt, None), receipt.status, BrokerReceipt, env.now);
      }
      OnlyOneChanged(id);
      return Ok(intent.status);
    }

    method RecordSimulatedFill(id: string, receipt: SimulationReceipt, env: Env) returns (r: Result<Status, Error>)
      requires Valid()
      modifies intents.Values
      ensures Valid() && intents == old(intents) && policy == old(policy)
      ensures match RecordSimulation(old(View()), id, receipt, env)
              case Ok(t) => View() == t && r == Ok(intents[id].status)
              case Err(e) => View() == old(View()) && r == Err(e)
    {
      if id !in intents { return Err(UnknownIntent); }
      var intent := intents[id];
      var problem := SimulationError(policy, intent.View(), receipt, env);
      if problem.Some? { return Err(problem.value); }
      var sel := intent.selection.value;
      if receipt.entry {
        intent.RecordRow(SimulationRow(sel, receipt, None), Executed, SimulationEntry, env.now);
      } else {
        var pnl := RealizedPnl(intent.tradeEvents, receipt.bid);
        if pnl.Err? { return Err(pnl.error); }
        intent.RecordRow(SimulationRow(sel, receipt, Some(pnl.value)), Closed, SimulationExit, env.now);
      }
      OnlyOneChanged(id);
      return Ok(intent.status);
    }
  }
}
