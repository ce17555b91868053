/** When a claim call hands out a claim, in the fields of policy, intent, request and clock. */
module QueueClaims {
  import opened Prelude
  import opened Intents
  import opened IntentRules
  import opened QueueSpec
  import opened QueueSteps
  import opened QueueRuns
  import opened QueueTheorems
  import opened QueueSums

  // ----- the other intents -----

  /** The LIVE intents beside one that are neither settled nor past their validity. */
  ghost function OthersInPlay(s: State, id: string, now: int): set<string> {
    set j | j in s.intents && j != id
            && s.intents[j].info.mode == Live
            && s.intents[j].status !in {Blocked, Rejected, Failed, Cancelled, Expired, Closed}
            && s.intents[j].info.validUntil > now
  }

  /** What the other LIVE intents of a day put at risk: their premium once sized, else the alert's figure. */
  ghost function OthersAtRisk(s: State, id: string, day: int): map<string, nat> {
    map j | j in s.intents && j != id
            && s.intents[j].info.mode == Live
            && s.intents[j].info.createdDay == day
            && s.intents[j].status in {Ready, Claimed, Executed, Closed}
      :: if s.intents[j].selection.Some? && s.intents[j].selection.value.plannedDebit > 0
         then s.intents[j].selection.value.plannedDebit
         else s.intents[j].info.dollarRisk
  }

  lemma OthersCounted(s: State, id: string, now: int)
    ensures Total(OpenLive(now), s.intents - {id}) == |OthersInPlay(s, id, now)|
  {
    TotalIsCount(OpenLive(now), s.intents - {id}, OthersInPlay(s, id, now));
  }

  lemma OthersAdded(s: State, id: string, day: int)
    ensures Total(Used(day), s.intents - {id}) == SumOf(OthersAtRisk(s, id, day))
  {
    TotalIsSum(Used(day), s.intents - {id}, OthersAtRisk(s, id, day));
  }

  // ----- the guards, one by one -----

  predicate WindowOpen(p: Policy, now: int) {
    p.mode == Live && p.liveUntil.Some? && now < p.liveUntil.value
  }

  /** A LIVE intent in time, waiting for its order or with an order whose lease ran out. */
  predicate MayBeClaimed(i: Intent, now: int) {
    && i.info.mode == Live
    && now < i.info.validUntil
    && (i.status == Ready
        || (i.status == Claimed && i.revokedAt == None && (i.claim.Some? ==> i.claim.value.leaseUntil <= now)))
  }

  predicate UsesOptions(i: Intent) {
    i.plan.instrument in {OptionContract, SelectionRequired} || i.selection.Some?
  }

  /** The policy of now admits the intent, whatever it was when the alert came. */
  predicate StillAdmitted(p: Policy, i: Intent, env: Env) {
    && i.info.symbol in p.symbols && i.info.strategy in p.strategies && i.info.module_ in p.modules
    && i.info.confidence >= p.minConfidence
    && (UsesOptions(i) ==> p.allowOptions)
    && (i.plan.instrument == OptionContract ==> i.selection.Some?)
    && (p.requireCalibration ==> env.calibrated && env.liveEligible)
  }

  predicate QuoteFits(p: Policy, i: Intent, req: ClaimRequest, now: int) {
    && req.underlyingPrice > 0
    && -5 <= now - req.observedAt <= p.maxQuoteAge
    && i.plan.zoneLow <= req.underlyingPrice <= i.plan.zoneHigh
  }

  predicate ScalpOption(i: Intent) {
    i.info.strategy == "EMA9_MTF_0DTE" && i.info.module_ == "0DTE"
  }

  /** The order's risk: the whole premium of the scalp option, the alert's figure of anything else. */
  predicate RiskFits(p: Policy, i: Intent, used: nat) {
    && i.plan.capitalRequired.Some? && i.plan.capitalRequired.value > 0
    && var risk := if ScalpOption(i) then i.plan.capitalRequired.value else i.info.dollarRisk;
       risk <= p.maxOrderRisk && (risk == 0 || used + risk <= p.maxDailyRisk)
  }

  /** The selected contract is the one ordered, and still meets every threshold of now. */
  predicate ContractFits(p: Policy, i: Intent, env: Env) {
    ScalpOption(i) ==>
      && i.selection.Some?
      && var sel := i.selection.value;
      && -5 <= env.now - sel.quoteAt <= p.maxQuoteAge
      && sel.selloutAt > env.now + 300
      && Some(sel.plannedDebit) == i.plan.capitalRequired
      && sel.expirationDay - env.day in p.expiryDays
      && sel.spread <= p.maxSpread
      && sel.volume >= p.minVolume
      && sel.openInterest >= p.minOpenInterest
  }

  /** The last buying-power review passed, is fresh, is of this amount and still covers it. */
  predicate ReviewFits(p: Policy, i: Intent, now: int) {
    && i.check.Some?
    && var check := i.check.value;
    && check.passed
    && -5 <= now - check.observedAt <= 120
    && Some(check.required) == i.plan.capitalRequired
    && check.required as real <= check.buyingPower as real * p.capitalFraction
  }

  /** Up to the checks that block an intent instead of refusing the call. */
  ghost predicate Placeable(s: State, id: string, env: Env)
    requires id in s.intents
  {
    && WindowOpen(s.policy, env.now)
    && !env.symbolBlocked
    && StillAdmitted(s.policy, s.intents[id], env)
    && |OthersInPlay(s, id, env.now)| < s.policy.maxOpen
  }

  ghost predicate Claimable(s: State, id: string, req: ClaimRequest, env: Env) {
    && req.agent == "codex"
    && id in s.intents
    && var i := s.intents[id];
    && MayBeClaimed(i, env.now)
    && Placeable(s, id, env)
    && QuoteFits(s.policy, i, req, env.now)
    && RiskFits(s.policy, i, SumOf(OthersAtRisk(s, id, env.day)))
    && ContractFits(s.policy, i, env)
    && ReviewFits(s.policy, i, env.now)
  }

  /** The claim is of this moment, and its lease ends with the first of three ends. */
  predicate Leased(p: Policy, i: Intent, claim: Claim, env: Env) {
    && claim.claimedAt == env.now && claim.claimedDay == env.day
    && claim.leaseUntil <= env.now + 120
    && claim.leaseUntil <= i.info.validUntil
    && (p.liveUntil.Some? ==> claim.leaseUntil <= p.liveUntil.value)
    && (claim.leaseUntil == env.now + 120 || claim.leaseUntil == i.info.validUntil
        || p.liveUntil == Some(claim.leaseUntil))
  }

  // ----- the theorem -----

  lemma CapitalExactly(p: Policy, i: Intent, used: nat, env: Env)
    ensures CapitalReasonFor(p, i, if used > p.maxDailyRisk then 0 else p.maxDailyRisk - used, env).None?
      <==> RiskFits(p, i, used) && ContractFits(p, i, env) && ReviewFits(p, i, env.now)
  {
  }

  lemma OthersKnown(s: State, id: string, env: Env)
    ensures Total(OpenLive(env.now), s.intents - {id}) == |OthersInPlay(s, id, env.now)|
    ensures id in s.intents ==>
      var i := s.intents[id];
      CapitalReasonFor(s.policy, i, RemainingDailyRisk(s, id, env.day), env).None?
      <==> RiskFits(s.policy, i, SumOf(OthersAtRisk(s, id, env.day))) && ContractFits(s.policy, i, env)
           && ReviewFits(s.policy, i, env.now)
  {
    hide CapitalReasonFor, RiskFits, ContractFits, ReviewFits;
    OthersCounted(s, id, env.now);
    OthersAdded(s, id, env.day);
    if id in s.intents {
      CapitalExactly(s.policy, s.intents[id], SumOf(OthersAtRisk(s, id, env.day)), env);
    }
  }

  lemma ClaimableIsGranted(s: State, id: string, req: ClaimRequest, env: Env)
    requires Claimable(s, id, req, env)
    ensures AttemptClaim(s, id, req, env) == Ok(s.(intents := s.intents[id :=
      ClaimedIntent(s.intents[id], Claim(env.now, env.day, LeaseEnd(s.policy, s.intents[id], env.now)), env.now)]))
  {
    hide Total, SumOf, CapitalReasonFor, RiskFits, ContractFits, ReviewFits, RemainingDailyRisk, OthersInPlay,
      OthersAtRisk, LeaseEnd, ClaimedIntent;
    OthersKnown(s, id, env);
  }

  lemma OthersKeepTheirClaim(s: State, id: string, req: ClaimRequest, env: Env)
    requires id in s.intents && !Claimable(s, id, req, env) && AttemptClaim(s, id, req, env).Ok?
    ensures var t := AttemptClaim(s, id, req, env).value;
      id in t.intents && t.intents[id].claim == s.intents[id].claim
  {
    hide Total, SumOf, CapitalReasonFor, RiskFits, ContractFits, ReviewFits, RemainingDailyRisk, OthersInPlay,
      OthersAtRisk;
    OthersKnown(s, id, env);
  }

  lemma LeaseIsFirstEnd(p: Policy, i: Intent, env: Env)
    ensures Leased(p, i, Claim(env.now, env.day, LeaseEnd(p, i, env.now)), env)
  {
  }

  /** An active intent's next claim starts after its last one ended, so it is another one. */
  lemma NextClaimDiffers(i: Intent, c: Claim)
    requires AuthorityInv(i) && MayBeClaimed(i, c.claimedAt)
    ensures i.claim != Some(c)
  {
  }

  /**
   * In every run, a call gives an intent a new claim if and only if it is a claim call for it that
   * passes every guard; the claim is then of this moment, ends with the first of the two minutes,
   * the intent's validity and the LIVE window, and nothing else about queue or policy changes.
   */
  lemma ClaimedExactly(p: Policy, calls: seq<Call>, c: Call, id: string)
    requires id in Run(Init(p), calls).intents
    ensures var s := Run(Init(p), calls);
      var t := Exec(s, c);
      && id in t.intents
      && (t.intents[id].claim != s.intents[id].claim <==>
            c.op.OpClaim? && c.op.id == id && Claimable(s, id, c.op.claim, c.env))
      && (t.intents[id].claim != s.intents[id].claim ==>
            var i, j := s.intents[id], t.intents[id];
            && t == s.(intents := s.intents[id := j])
            && j.claim.Some? && Leased(s.policy, i, j.claim.value, c.env)
            && j == i.(status := Claimed, claim := j.claim, revokedAt := None, events := j.events,
                       revision := i.revision + 1, updatedAt := c.env.now)
            && j.events == i.events + [Event(|i.events| + 1, c.env.now, ClaimAcquired, Some(i.status), Claimed, None)])
  {
    hide StateInv, Run, Claimable, AttemptClaim, Acquires, CalmQueue;
    var s := Run(Init(p), calls);
    EveryRunGood(p, calls);
    ClaimsChangeOnlyByAcquisition(p, calls, c, id);
    if c.op.OpClaim? && c.op.id == id {
      if Claimable(s, id, c.op.claim, c.env) {
        ClaimableIsGranted(s, id, c.op.claim, c.env);
        LeaseIsFirstEnd(s.policy, s.intents[id], c.env);
        ClaimableMayBeClaimed(s, id, c.op.claim, c.env);
        AuthorityOf(s, id);
        NextClaimDiffers(s.intents[id], Claim(c.env.now, c.env.day, LeaseEnd(s.policy, s.intents[id], c.env.now)));
      } else if AttemptClaim(s, id, c.op.claim, c.env).Ok? {
        OthersKeepTheirClaim(s, id, c.op.claim, c.env);
      }
    }
  }

  lemma ClaimableMayBeClaimed(s: State, id: string, req: ClaimRequest, env: Env)
    requires Claimable(s, id, req, env)
    ensures id in s.intents && MayBeClaimed(s.intents[id], env.now)
  {
  }
}
