/** What the calls of operators, alerts and the clock do, in the fields of their inputs. */
module QueueOperations {
  import opened Prelude
  import opened Intents
  import opened QueueSpec
  import opened QueueSums
  import opened QueueClaims

  // ----- how an intent leaves the queue -----

  /** Only the status moved, with its event. */
  predicate MovedTo(i: Intent, j: Intent, to: Status, kind: EventKind, now: int) {
    && j == i.(status := to, updatedAt := now, revision := i.revision + 1, events := j.events)
    && j.events == i.events + [Event(|i.events| + 1, now, kind, Some(i.status), to, None)]
  }

  /** Only the authority to place the order is gone; the claim itself stays. */
  predicate LostAuthority(i: Intent, j: Intent, now: int) {
    && j == i.(revokedAt := Some(now), updatedAt := now, revision := i.revision + 1, events := j.events)
    && j.events == i.events + [Event(|i.events| + 1, now, ClaimRevoked, Some(i.status), i.status, None)]
  }

  /** Blocked before a claim, stripped of its authority during one, and left alone after that. */
  predicate StoodDown(i: Intent, j: Intent, now: int) {
    if i.status in {Shadow, AwaitingApproval, Ready} then MovedTo(i, j, Blocked, IntentBlocked, now)
    else if i.status == Claimed && i.revokedAt == None then LostAuthority(i, j, now)
    else j == i
  }

  lemma BlockOrRevokeStandsDown(i: Intent, now: int)
    ensures StoodDown(i, BlockOrRevoke(i, now), now)
  {
  }

  // ----- policy -----

  predicate FieldsAllowed(p: Policy) {
    && 0.50 <= p.minConfidence <= 0.95
    && 0 < p.maxOrderRisk <= p.maxDailyRisk && 1 <= p.maxOpen <= 20
    && 0.0 < p.capitalFraction <= 0.80
    && 0.0 < p.maxSpread <= 0.25 && 5 <= p.maxQuoteAge <= 120
  }

  /** LIVE needs a window of one minute to eight hours and something in every allowlist. */
  predicate PolicyAllowed(p: Policy, minutes: Option<int>) {
    && FieldsAllowed(p)
    && (p.mode == Live ==>
          && minutes.Some? && 1 <= minutes.value <= 480
          && p.symbols != {} && p.strategies != {} && p.modules != {})
  }

  /**
   * A change of policy is taken exactly when it is allowed; the LIVE window then is open for exactly
   * the minutes asked for, and a switch to SIMULATION stands every LIVE intent down.
   */
  lemma PolicyChange(s: State, requested: Policy, minutes: Option<int>, now: int)
    ensures var r := UpdatePolicy(s, requested, minutes, now);
      && (r.Ok? <==> PolicyAllowed(requested, minutes))
      && (r.Ok? ==>
            var p, n := r.value.policy, r.value.intents;
            && (forall at :: now <= at ==>
                  (WindowOpen(p, at) <==> requested.mode == Live && at < now + 60 * minutes.value))
            && p == requested.(liveUntil := p.liveUntil, revision := s.policy.revision + 1, updatedAt := now)
            && n.Keys == s.intents.Keys
            && forall id :: id in s.intents ==>
                 if requested.mode == Simulation && s.intents[id].info.mode == Live
                 then StoodDown(s.intents[id], n[id], now) else n[id] == s.intents[id])
  {
    hide BlockOrRevoke, StoodDown;
    if UpdatePolicy(s, requested, minutes, now).Ok? {
      forall id | id in s.intents ensures StoodDown(s.intents[id], BlockOrRevoke(s.intents[id], now), now) {
        BlockOrRevokeStandsDown(s.intents[id], now);
      }
    }
  }

  // ----- alerts -----

  predicate ScalpAlert(a: Alert) {
    a.strategy == "EMA9_MTF_0DTE" && a.module_ == "0DTE"
  }

  /** Nothing in policy, alert or surroundings speaks against the alert. */
  predicate Unobjectionable(p: Policy, a: Alert, env: Env, live: bool) {
    && (a.planStatus == ActivePlan || (a.planStatus == ShadowPlan && !live))
    && env.now < a.validUntil
    && (p.symbols == {} || a.symbol in p.symbols)
    && (p.strategies == {} || a.strategy in p.strategies)
    && (p.modules == {} || a.module_ in p.modules)
    && a.confidence >= p.minConfidence
    && a.dollarRisk <= p.maxOrderRisk
    && (a.vehicle == OptionVehicle ==> p.allowOptions)
    && (a.action in {EquityBuy, BuyToOpen} || (ScalpAlert(a) && a.action == EquitySell))
    && !env.symbolBlocked
    && (live ==>
          && !a.researchOnly
          && (a.vehicle == OptionVehicle ==> ScalpAlert(a))
          && (p.requireCalibration ==> env.calibrated && env.liveEligible))
  }

  ghost function AllInPlay(s: State, now: int): set<string> {
    set j | j in s.intents
            && s.intents[j].info.mode == Live
            && s.intents[j].status !in {Blocked, Rejected, Failed, Cancelled, Expired, Closed}
            && s.intents[j].info.validUntil > now
  }

  /** The dollar risk that the intents of a day reserve, whatever their mode. */
  ghost function ReservedOn(s: State, day: int): map<string, nat> {
    map j | j in s.intents
            && s.intents[j].info.createdDay == day
            && s.intents[j].status in {AwaitingApproval, Ready, Claimed, Executed, Closed}
      :: s.intents[j].info.dollarRisk
  }

  ghost predicate RoomFor(s: State, a: Alert, env: Env) {
    && |AllInPlay(s, env.now)| < s.policy.maxOpen
    && SumOf(ReservedOn(s, env.day)) + a.dollarRisk <= s.policy.maxDailyRisk
  }

  lemma ReservationsKnown(s: State, env: Env)
    ensures Total(OpenLive(env.now), s.intents) == |AllInPlay(s, env.now)|
    ensures Total(Reserved(env.day), s.intents) == SumOf(ReservedOn(s, env.day))
  {
    TotalIsCount(OpenLive(env.now), s.intents, AllInPlay(s, env.now));
    TotalIsSum(Reserved(env.day), s.intents, ReservedOn(s, env.day));
  }

  /** A call for a falling price below it and a put for a rising one; the scalp is sized later. */
  predicate PlanOfAlert(a: Alert, plan: OrderPlan) {
    && plan.zoneLow == a.zoneLow && plan.zoneHigh == a.zoneHigh
    && (ScalpAlert(a) ==>
          && plan.instrument == SelectionRequired && plan.capitalRequired == None
          && plan.request == Some(if a.stopBelowPrice then CallOption else PutOption))
    && (!ScalpAlert(a) ==>
          && plan.request == None && plan.capitalRequired == Some(a.capitalRequired)
          && plan.instrument == if a.vehicle == EquityVehicle then EquityShares else OptionContract)
  }

  predicate InfoOfAlert(a: Alert, info: Info, env: Env) {
    && info.alertId == a.alertId && info.symbol == a.symbol && info.strategy == a.strategy && info.module_ == a.module_
    && info.createdAt == env.now && info.createdDay == env.day && info.validUntil == a.validUntil
    && info.confidence == a.confidence && info.dollarRisk == a.dollarRisk
  }

  /**
   * A new alert makes exactly one intent: LIVE exactly while the window is open, and then READY
   * exactly when nothing speaks against it and there is room; SHADOW exactly when SIMULATION has
   * nothing against it; BLOCKED otherwise.
   */
  lemma NewAlert(s: State, a: Alert, env: Env)
    requires a.alertId !in s.intents
    ensures var t := OnAlert(s, a, env);
      && a.alertId in t.intents && t == s.(intents := s.intents[a.alertId := t.intents[a.alertId]])
      && var i := t.intents[a.alertId];
      && (i.info.mode == Live <==> WindowOpen(s.policy, env.now))
      && (i.status == Ready <==>
            WindowOpen(s.policy, env.now) && Unobjectionable(s.policy, a, env, true) && RoomFor(s, a, env))
      && (i.status == Shadow <==> !WindowOpen(s.policy, env.now) && Unobjectionable(s.policy, a, env, false))
      && i.status in {Ready, Shadow, Blocked}
      && InfoOfAlert(a, i.info, env) && PlanOfAlert(a, i.plan)
      && i.claim == None && i.revokedAt == None && i.check == None && i.selection == None && i.trades == []
      && i.events == [Event(1, env.now, IntentCreated, None, i.status, None)] && i.revision == 1
      && i.updatedAt == env.now
  {
    hide Total, SumOf;
    ReservationsKnown(s, env);
  }

  /** A known alert leaves its intent as it is exactly while its plan may stand and its symbol is fit. */
  lemma KnownAlert(s: State, a: Alert, env: Env)
    requires a.alertId in s.intents
    ensures var t, i := OnAlert(s, a, env), s.intents[a.alertId];
      && a.alertId in t.intents && t == s.(intents := s.intents[a.alertId := t.intents[a.alertId]])
      && if !env.symbolBlocked
            && (a.planStatus == ActivePlan || (a.planStatus == ShadowPlan && i.info.mode == Simulation))
         then t.intents[a.alertId] == i
         else StoodDown(i, t.intents[a.alertId], env.now)
  {
    assert s.intents == s.intents[a.alertId := s.intents[a.alertId]];
  }

  // ----- operators -----

  /** Rejecting ends what is not claimed yet and revokes a claim; anything later raises. */
  lemma Rejecting(s: State, id: string, env: Env)
    ensures var r := Reject(s, id, env);
      && (r.Ok? <==> id in s.intents && s.intents[id].status in {Shadow, AwaitingApproval, Ready, Claimed})
      && (r.Ok? ==>
            && id in r.value.intents && r.value == s.(intents := s.intents[id := r.value.intents[id]])
            && var i, j := s.intents[id], r.value.intents[id];
            && if i.status != Claimed then MovedTo(i, j, Rejected, OperatorRejected, env.now)
               else if i.revokedAt == None then LostAuthority(i, j, env.now)
               else j == i)
  {
  }

  /** Approval is for what awaits it, imported from older states; it expires, is blocked or becomes ready. */
  lemma Approving(s: State, id: string, env: Env)
    ensures var r := Approve(s, id, env);
      && (r.Ok? <==> id in s.intents && s.intents[id].status == AwaitingApproval)
      && (r.Ok? ==>
            && id in r.value.intents && r.value == s.(intents := s.intents[id := r.value.intents[id]])
            && var i, j := s.intents[id], r.value.intents[id];
            && if env.now >= i.info.validUntil then MovedTo(i, j, Expired, StatusChanged, env.now)
               else if env.symbolBlocked then MovedTo(i, j, Blocked, IntentBlocked, env.now)
               else MovedTo(i, j, Ready, OperatorApproved, env.now))
  {
  }

  // ----- capital reviews -----

  /** A review is taken of a LIVE order that is ready, or whose lease ran out, once it is sized. */
  predicate Reviewable(i: Intent, now: int) {
    && i.info.mode == Live
    && (i.status == Ready
        || (i.status == Claimed && i.revokedAt == None && (i.claim.Some? ==> i.claim.value.leaseUntil <= now)))
    && i.plan.instrument != SelectionRequired && i.plan.capitalRequired.Some?
  }

  predicate ReviewRequestFits(req: CapitalRequest, now: int) {
    && req.agent == "codex" && req.buyingPower > 0
    && req.currency == "USD" && req.accountScope == "ROBINHOOD_AGENTIC_ONLY"
    && -5 <= now - req.observedAt <= 120
  }

  /** The share of the buying power, to the nearest cent. */
  predicate NearestCent(x: real, cents: int) {
    cents as real - 0.5 <= x <= cents as real + 0.5
  }

  predicate RecordsReview(p: Policy, i: Intent, check: CapitalCheck, req: CapitalRequest) {
    && check.buyingPower == req.buyingPower && check.observedAt == req.observedAt
    && Some(check.required) == i.plan.capitalRequired
    && NearestCent(req.buyingPower as real * p.capitalFraction, check.maxCapital)
    && (check.passed <==> check.required <= check.maxCapital)
  }

  lemma ReviewRecorded(p: Policy, i: Intent, req: CapitalRequest)
    requires i.plan.capitalRequired.Some?
    ensures RecordsReview(p, i, CheckFor(p, i.plan.capitalRequired.value, req), req)
  {
  }

  /** A review changes the record alone when it passes, and stands the order down when it does not. */
  lemma Review(s: State, id: string, req: CapitalRequest, env: Env)
    ensures var r := AttestCapital(s, id, req, env);
      && (r.Ok? <==> id in s.intents && Reviewable(s.intents[id], env.now) && ReviewRequestFits(req, env.now))
      && (r.Ok? ==>
            && id in r.value.intents && r.value == s.(intents := s.intents[id := r.value.intents[id]])
            && var i, j := s.intents[id], r.value.intents[id];
            && j.check.Some? && RecordsReview(s.policy, i, j.check.value, req)
            && exists noted :: Noted(i, noted, j.check, CapitalPreflight, env.now)
                 && if j.check.value.passed then j == noted else StoodDown(noted, j, env.now))
  {
    var r := AttestCapital(s, id, req, env);
    if r.Ok? {
      var i := s.intents[id];
      ReviewRecorded(s.policy, i, req);
      var check := CheckFor(s.policy, i.plan.capitalRequired.value, req);
      hide CheckFor;
      var noted := CheckedIntent(i, check, env.now);
      assert Noted(i, noted, Some(check), CapitalPreflight, env.now);
      BlockOrRevokeStandsDown(noted, env.now);
      PreflightKeepsCheck(i, check, env.now);
    }
  }

  /** Only the review on file changed, with its event. */
  predicate Noted(i: Intent, j: Intent, check: Option<CapitalCheck>, kind: EventKind, now: int) {
    && j == i.(check := check, updatedAt := now, revision := i.revision + 1, events := j.events)
    && j.events == i.events + [Event(|i.events| + 1, now, kind, Some(i.status), i.status, None)]
  }

  // ----- claims that are not granted -----

  /**
   * A claim call that is not granted stands the intent down when it may not be placed at all, ends
   * it when its time is up, and otherwise raises and changes nothing.
   */
  lemma RefusedClaim(s: State, id: string, req: ClaimRequest, env: Env)
    requires !Claimable(s, id, req, env)
    ensures var r := AttemptClaim(s, id, req, env);
      var heard := req.agent == "codex" && id in s.intents && s.intents[id].info.mode == Live;
      var pending := heard && s.intents[id].status in {Ready, Claimed};
      && (r.Ok? <==>
            || (heard && !WindowOpen(s.policy, env.now))
            || (pending && (s.intents[id].info.validUntil <= env.now || !Placeable(s, id, env))))
      && (r.Ok? ==>
            && id in r.value.intents && r.value == s.(intents := s.intents[id := r.value.intents[id]])
            && var i, j := s.intents[id], r.value.intents[id];
            if WindowOpen(s.policy, env.now) && i.info.validUntil <= env.now && i.status == Ready
            then MovedTo(i, j, Expired, StatusChanged, env.now)
            else StoodDown(i, j, env.now))
  {
    hide Total, SumOf, CapitalReasonFor, RiskFits, ContractFits, ReviewFits, RemainingDailyRisk, OthersInPlay,
      OthersAtRisk;
    OthersKnown(s, id, env);
    if id in s.intents {
      BlockOrRevokeStandsDown(s.intents[id], env.now);
    }
  }

  // ----- sweeps -----

  /** Quarantine stands down exactly the symbol's intents. */
  lemma Quarantined(s: State, symbol: string, now: int)
    ensures var t := BlockSymbol(s, symbol, now);
      && t.policy == s.policy && t.intents.Keys == s.intents.Keys
      && forall id :: id in s.intents ==>
           if s.intents[id].info.symbol == symbol then StoodDown(s.intents[id], t.intents[id], now)
           else t.intents[id] == s.intents[id]
  {
    hide BlockOrRevoke, StoodDown;
    forall id | id in s.intents ensures StoodDown(s.intents[id], BlockOrRevoke(s.intents[id], now), now) {
      BlockOrRevokeStandsDown(s.intents[id], now);
    }
  }

  /** Past its validity an intent expires, or loses its claim's authority; in time it is untouched. */
  predicate AgedTo(i: Intent, j: Intent, now: int) {
    if now < i.info.validUntil then j == i
    else if i.status in {Shadow, AwaitingApproval, Ready} then MovedTo(i, j, Expired, IntentExpired, now)
    else if i.status == Claimed && i.revokedAt == None then LostAuthority(i, j, now)
    else j == i
  }

  /** Aged, and then stood down if the LIVE window of the stored policy has lapsed. */
  predicate AgedThrough(p: Policy, i: Intent, aged: Intent, j: Intent, now: int) {
    && AgedTo(i, aged, now)
    && if p.mode == Live && !WindowOpen(p, now) && aged.info.mode == Live then StoodDown(aged, j, now) else j == aged
  }

  lemma SweptAges(i: Intent, now: int)
    ensures AgedTo(i, SweptIntent(i, now), now)
  {
  }

  /** The sweep ages every intent; if the LIVE window has lapsed it also stands down the LIVE ones. */
  lemma Swept(s: State, now: int)
    ensures var t := ExpireStale(s, now);
      && t.policy == s.policy && t.intents.Keys == s.intents.Keys
      && forall id :: id in s.intents ==> exists aged :: AgedThrough(s.policy, s.intents[id], aged, t.intents[id], now)
  {
    hide BlockOrRevoke, SweptIntent, StoodDown, AgedTo;
    var t := ExpireStale(s, now);
    forall id | id in s.intents
      ensures exists aged :: AgedThrough(s.policy, s.intents[id], aged, t.intents[id], now)
    {
      var aged := SweptIntent(s.intents[id], now);
      SweptAges(s.intents[id], now);
      BlockOrRevokeStandsDown(aged, now);
      assert AgedThrough(s.policy, s.intents[id], aged, t.intents[id], now);
    }
  }
}
