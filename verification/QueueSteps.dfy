/** What each operation does to the whole queue: which intents it moves, and how. */
module QueueSteps {
  import opened Prelude
  import opened Intents
  import opened IntentRules
  import opened IntentSteps
  import opened OptionChoice
  import opened QueueSpec

  /** Once the stored mode is SIMULATION, no LIVE intent can be placed any more. */
  ghost predicate ModeSafe(s: State) {
    s.policy.mode.Simulation? ==>
      forall id :: id in s.intents && s.intents[id].info.mode.Live? ==>
        && !Blockable(s.intents[id].status)
        && (s.intents[id].status.Claimed? ==> s.intents[id].revokedAt.Some?)
  }

  ghost predicate IntentsGood(intents: map<string, Intent>) {
    forall id :: id in intents ==> intents[id].info.alertId == id && IntentInv(intents[id])
  }

  ghost predicate StateInv(s: State) {
    IntentsGood(s.intents) && ModeSafe(s)
  }

  /** Every intent is still there and only moved forward. */
  ghost predicate Onward(m: map<string, Intent>, n: map<string, Intent>) {
    forall id :: id in m ==> id in n && Evolves(m[id], n[id])
  }

  /** No intent was added and none took on market exposure. */
  ghost predicate CalmQueue(m: map<string, Intent>, n: map<string, Intent>) {
    n.Keys == m.Keys && forall id :: id in m ==> GoodStep(m[id], n[id]) && Calm(m[id], n[id])
  }

  lemma StayPut(i: Intent)
    requires IntentInv(i)
    ensures GoodStep(i, i) && Calm(i, i)
  {
  }

  lemma CalmUpdate(m: map<string, Intent>, id: string, j: Intent)
    requires IntentsGood(m) && id in m && GoodStep(m[id], j) && Calm(m[id], j)
    ensures CalmQueue(m, m[id := j])
  {
    hide IntentInv, Evolves, Calm, Steady;
    forall k | k in m ensures GoodStep(m[k], m[id := j][k]) && Calm(m[k], m[id := j][k]) {
      if k != id {
        StayPut(m[k]);
      }
    }
  }

  lemma CalmKeepsGood(m: map<string, Intent>, n: map<string, Intent>)
    requires IntentsGood(m) && CalmQueue(m, n)
    ensures IntentsGood(n) && Onward(m, n)
  {
  }

  lemma CalmKeepsModeSafe(s: State, t: State)
    requires StateInv(s) && CalmQueue(s.intents, t.intents) && t.policy == s.policy
    ensures StateInv(t)
  {
    forall id | id in t.intents && t.intents[id].info.mode.Live? && s.policy.mode.Simulation?
      ensures !Blockable(t.intents[id].status)
      ensures t.intents[id].status.Claimed? ==> t.intents[id].revokedAt.Some?
    {
      var i, j := s.intents[id], t.intents[id];
      assert GoodStep(i, j) && Calm(i, j);
    }
  }

  lemma DisarmEffect(m: map<string, Intent>, now: int)
    requires IntentsGood(m)
    ensures CalmQueue(m, Disarmed(m, now))
    ensures forall id :: id in m && m[id].info.mode.Live? ==>
      && !Blockable(Disarmed(m, now)[id].status)
      && (Disarmed(m, now)[id].status.Claimed? ==> Disarmed(m, now)[id].revokedAt.Some?)
  {
    forall id | id in m
      ensures GoodStep(m[id], Disarmed(m, now)[id]) && Calm(m[id], Disarmed(m, now)[id])
      ensures m[id].info.mode.Live? ==>
        && !Blockable(Disarmed(m, now)[id].status)
        && (Disarmed(m, now)[id].status.Claimed? ==> Disarmed(m, now)[id].revokedAt.Some?)
    {
      DisarmStep(m[id], now);
    }
  }

  lemma PolicyEffect(s: State, requested: Policy, liveFor: Option<int>, now: int)
    requires StateInv(s) && UpdatePolicy(s, requested, liveFor, now).Ok?
    ensures CalmQueue(s.intents, UpdatePolicy(s, requested, liveFor, now).value.intents)
    ensures StateInv(UpdatePolicy(s, requested, liveFor, now).value)
  {
    var t := UpdatePolicy(s, requested, liveFor, now).value;
    if t.policy.mode.Simulation? {
      DisarmEffect(s.intents, now);
    } else {
      forall id | id in s.intents ensures GoodStep(s.intents[id], s.intents[id]) && Calm(s.intents[id], s.intents[id]) {
        StayPut(s.intents[id]);
      }
    }
    CalmKeepsGood(s.intents, t.intents);
  }

  lemma KnownAlertEffect(s: State, a: Alert, env: Env)
    requires StateInv(s) && a.alertId in s.intents
    ensures CalmQueue(s.intents, OnAlert(s, a, env).intents)
  {
    hide IntentInv, Evolves, Calm, Steady;
    StayPut(s.intents[a.alertId]);
    BlockOrRevokeStep(s.intents[a.alertId], env.now);
    CalmUpdate(s.intents, a.alertId, BlockOrRevoke(s.intents[a.alertId], env.now));
    CalmUpdate(s.intents, a.alertId, s.intents[a.alertId]);
    assert s.intents == s.intents[a.alertId := s.intents[a.alertId]];
  }

  lemma NewAlertEffect(s: State, a: Alert, env: Env)
    requires StateInv(s) && a.alertId !in s.intents
    ensures StateInv(OnAlert(s, a, env))
    ensures Onward(s.intents, OnAlert(s, a, env).intents)
  {
    hide IntentInv, Evolves, Calm, Steady;
    var mode := EffectiveMode(s.policy, env.now);
    var status := InitialStatus(mode, AlertEligible(s, a, env, mode.Live?));
    CreatedStep(a, mode, status, env);
    forall id | id in s.intents ensures Evolves(s.intents[id], s.intents[id]) {
      StayPut(s.intents[id]);
    }
  }

  lemma SelectionEffect(s: State, id: string, req: SelectionRequest, env: Env)
    requires StateInv(s) && AttestSelection(s, id, req, env).Ok?
    ensures CalmQueue(s.intents, AttestSelection(s, id, req, env).value.intents)
  {
    hide IntentInv, Evolves, Calm, Steady, SelectedIntent, Select;
    var screen := SelectionScreen(s, id, req, env);
    var sel := Select(req.candidates, screen, env.now).value;
    SelectionFitsCeiling(req.candidates, screen, env.now);
    SelectStep(s.intents[id], sel, env.now);
    CalmUpdate(s.intents, id, SelectedIntent(s.intents[id], sel, env.now));
  }

  /** No intent of this contract version ever waits for approval, so there is nothing to approve. */
  lemma ApproveEffect(s: State, id: string, env: Env)
    requires StateInv(s)
    ensures Approve(s, id, env) == Err(if id in s.intents then WrongStatus else UnknownIntent)
  {
  }

  lemma RejectEffect(s: State, id: string, env: Env)
    requires StateInv(s) && Reject(s, id, env).Ok?
    ensures CalmQueue(s.intents, Reject(s, id, env).value.intents)
  {
    hide Evolves, Calm, Steady, LogInv, LedgerInv, PlanInv;
    var i := s.intents[id];
    if i.status.Claimed? {
      RevokeStep(i, env.now);
      CalmUpdate(s.intents, id, RevokedIntent(i, env.now));
    } else {
      RetireStep(i, OperatorRejected, Rejected, env.now);
      CalmUpdate(s.intents, id, Logged(i, OperatorRejected, Rejected, env.now, None));
    }
  }

  lemma CapitalEffect(s: State, id: string, req: CapitalRequest, env: Env)
    requires StateInv(s) && AttestCapital(s, id, req, env).Ok?
    ensures CalmQueue(s.intents, AttestCapital(s, id, req, env).value.intents)
  {
    hide Evolves, Calm, Steady, LogInv, LedgerInv;
    var i := s.intents[id];
    var check := CheckFor(s.policy, i.plan.capitalRequired.value, req);
    PreflightStep(i, check, env.now);
    CalmUpdate(s.intents, id, PreflightIntent(i, check, env.now));
  }

  /** The one way a claim comes about, and everything that was checked for it. */
  ghost predicate Acquires(s: State, id: string, env: Env, t: State) {
    && id in s.intents
    && var i := s.intents[id];
    && i.info.mode.Live?
    && (i.status.Ready? || (i.status.Claimed? && i.revokedAt.None?
                            && (i.claim.Some? ==> i.claim.value.leaseUntil <= env.now)))
    && EffectiveMode(s.policy, env.now).Live?
    && i.info.validUntil > env.now
    && Total(OpenLive(env.now), s.intents - {id}) < s.policy.maxOpen
    && CapitalReasonFor(s.policy, i, RemainingDailyRisk(s, id, env.day), env).None?
    && !(i.plan.instrument.OptionContract? && i.selection.None?)
    && t == s.(intents := s.intents[id :=
         ClaimedIntent(i, Claim(env.now, env.day, LeaseEnd(s.policy, i, env.now)), env.now)])
  }

  lemma ClaimCases(s: State, id: string, req: ClaimRequest, env: Env)
    requires StateInv(s) && AttemptClaim(s, id, req, env).Ok?
    ensures var t := AttemptClaim(s, id, req, env).value;
      CalmQueue(s.intents, t.intents) || Acquires(s, id, env, t)
    ensures AttemptClaim(s, id, req, env).value.policy == s.policy
  {
    hide IntentInv, Evolves, Calm, Steady;
    var i := s.intents[id];
    if !EffectiveMode(s.policy, env.now).Live? {
      BlockOrRevokeStep(i, env.now);
      CalmUpdate(s.intents, id, BlockOrRevoke(i, env.now));
    } else if i.info.validUntil <= env.now {
      if i.status.Claimed? {
        RevokeStep(i, env.now);
        CalmUpdate(s.intents, id, RevokedIntent(i, env.now));
      } else {
        RetireStep(i, StatusChanged, Expired, env.now);
        CalmUpdate(s.intents, id, Logged(i, StatusChanged, Expired, env.now, None));
      }
    } else if env.symbolBlocked || !ClaimPolicyAllows(s.policy, i, env)
              || Total(OpenLive(env.now), s.intents - {id}) >= s.policy.maxOpen {
      BlockOrRevokeStep(i, env.now);
      CalmUpdate(s.intents, id, BlockOrRevoke(i, env.now));
    }
  }

  lemma AcquireAllowed(s: State, id: string, env: Env, t: State)
    requires StateInv(s) && Acquires(s, id, env, t)
    ensures var i := s.intents[id];
      var claim := Claim(env.now, env.day, LeaseEnd(s.policy, i, env.now));
      && i.revokedAt.None?
      && (i.claim.Some? ==> i.claim.value.leaseUntil <= claim.claimedAt)
      && GoodLease(claim, i.info)
      && !i.plan.instrument.SelectionRequired?
      && i.check.Some? && i.check.value.passed && Some(i.check.value.required) == i.plan.capitalRequired
  {
    hide LogInv, LedgerInv;
    assert IntentInv(s.intents[id]);
  }

  lemma AcquireEffect(s: State, id: string, env: Env, t: State)
    requires StateInv(s) && Acquires(s, id, env, t)
    ensures StateInv(t) && Onward(s.intents, t.intents)
    ensures GoodStep(s.intents[id], t.intents[id]) && Steady(s.intents[id], t.intents[id])
  {
    hide IntentInv, Evolves, Steady, Calm, ClaimedIntent, GoodLease, CapitalReasonFor;
    AcquireAllowed(s, id, env, t);
    ClaimStep(s.intents[id], Claim(env.now, env.day, LeaseEnd(s.policy, s.intents[id], env.now)), env.now);
    forall k | k in s.intents ensures Evolves(s.intents[k], t.intents[k]) && IntentInv(t.intents[k]) {
      if k != id {
        StayPut(s.intents[k]);
      }
    }
    InfoFixed(s.intents[id], t.intents[id]);
  }

  lemma InfoFixed(i: Intent, j: Intent)
    requires Evolves(i, j)
    ensures j.info == i.info
  {
  }

  lemma BlockSymbolEffect(s: State, symbol: string, now: int)
    requires StateInv(s)
    ensures CalmQueue(s.intents, BlockSymbol(s, symbol, now).intents)
  {
    hide IntentInv, Evolves, Calm, Steady;
    var n := BlockSymbol(s, symbol, now).intents;
    forall id | id in s.intents ensures GoodStep(s.intents[id], n[id]) && Calm(s.intents[id], n[id]) {
      StayPut(s.intents[id]);
      BlockOrRevokeStep(s.intents[id], now);
    }
  }

  lemma ExpireEffect(s: State, now: int)
    requires StateInv(s)
    ensures CalmQueue(s.intents, ExpireStale(s, now).intents)
  {
    hide IntentInv, Evolves, Calm, Steady;
    var swept := map id | id in s.intents :: SweptIntent(s.intents[id], now);
    forall id | id in s.intents ensures GoodStep(s.intents[id], swept[id]) && Calm(s.intents[id], swept[id]) {
      SweepStep(s.intents[id], now);
    }
    CalmKeepsGood(s.intents, swept);
    DisarmEffect(swept, now);
    forall id | id in s.intents
      ensures GoodStep(s.intents[id], ExpireStale(s, now).intents[id])
      ensures Calm(s.intents[id], ExpireStale(s, now).intents[id])
    {
      CalmTransitive(s.intents[id], swept[id], Disarmed(swept, now)[id]);
    }
  }

  /** A fill arriving for an order whose cancellation was already recorded. */
  ghost predicate FillsLate(s: State, id: string, t: State) {
    && id in s.intents
    && id in t.intents
    && t.policy == s.policy
    && t.intents == s.intents[id := t.intents[id]]
    && s.intents[id].info.mode.Live?
    && s.intents[id].status.Cancelled?
    && GoodStep(s.intents[id], t.intents[id])
    && t.intents[id].status.Executed?
    && t.intents[id].claim == s.intents[id].claim
    && LateFilled(t.intents[id])
  }

  /** A closing receipt always finds the entry it closes: the lookup cannot fail. */
  lemma ReceiptNeverMissesEntry(s: State, id: string, r: Receipt, env: Env)
    requires StateInv(s)
    ensures RecordReceipt(s, id, r, env) != Err(NoEntry)
  {
  }

  lemma SimulationNeverMissesEntry(s: State, id: string, r: SimulationReceipt, env: Env)
    requires StateInv(s)
    ensures RecordSimulation(s, id, r, env) != Err(NoEntry)
  {
    if id in s.intents {
      assert IntentInv(s.intents[id]);
    }
  }

  lemma ReceiptCloses(s: State, id: string, r: Receipt, env: Env)
    requires StateInv(s) && RecordReceipt(s, id, r, env).Ok? && r.status.Closed?
    ensures CalmQueue(s.intents, RecordReceipt(s, id, r, env).value.intents)
  {
    hide Evolves, Calm, Steady, LogInv, PlanInv, AuthorityInv, CalmQueue;
    var i := s.intents[id];
    assert IntentInv(i);
    var row := ReceiptRow(i, r, Some(RealizedPnl(i.trades, r.price.value).value));
    ExitStep(i, BrokerReceipt, env.now, row);
    CalmUpdate(s.intents, id, Logged(i, BrokerReceipt, Closed, env.now, Some(row)));
  }

  lemma ReceiptFills(s: State, id: string, r: Receipt, env: Env)
    requires StateInv(s) && RecordReceipt(s, id, r, env).Ok? && r.status.Executed?
    ensures var t := RecordReceipt(s, id, r, env).value;
      CalmQueue(s.intents, t.intents) || FillsLate(s, id, t)
  {
    hide IntentInv, Evolves, Calm, Steady, CalmQueue;
    var i := s.intents[id];
    var row := ReceiptRow(i, r, None);
    var j := Logged(i, BrokerReceipt, Executed, env.now, Some(row));
    EntryStep(i, BrokerReceipt, env.now, row);
    if i.status.Cancelled? {
      var last := |j.events| - 1;
      assert j.events[last].from == Some(Cancelled) && j.events[last].to.Executed?;
    } else {
      CalmUpdate(s.intents, id, j);
    }
  }

  lemma ReceiptReports(s: State, id: string, r: Receipt, env: Env)
    requires StateInv(s) && RecordReceipt(s, id, r, env).Ok? && !r.status.Closed? && !r.status.Executed?
    ensures CalmQueue(s.intents, RecordReceipt(s, id, r, env).value.intents)
  {
    hide IntentInv, Evolves, Calm, Steady, CalmQueue;
    var i := s.intents[id];
    var row := ReceiptRow(i, r, None);
    if i.status.Executed? {
      ReportStep(i, BrokerExitFailed, Executed, env.now, row);
      CalmUpdate(s.intents, id, Logged(i, BrokerExitFailed, Executed, env.now, Some(row)));
    } else {
      ReportStep(i, BrokerReceipt, r.status, env.now, row);
      CalmUpdate(s.intents, id, Logged(i, BrokerReceipt, r.status, env.now, Some(row)));
    }
  }

  lemma ReceiptCases(s: State, id: string, r: Receipt, env: Env)
    requires StateInv(s) && RecordReceipt(s, id, r, env).Ok?
    ensures var t := RecordReceipt(s, id, r, env).value;
      CalmQueue(s.intents, t.intents) || FillsLate(s, id, t)
    ensures RecordReceipt(s, id, r, env).value.policy == s.policy
  {
    hide StateInv, CalmQueue, FillsLate;
    if r.status.Closed? {
      ReceiptCloses(s, id, r, env);
    } else if r.status.Executed? {
      ReceiptFills(s, id, r, env);
    } else {
      ReceiptReports(s, id, r, env);
    }
  }

  lemma LateFillEffect(s: State, id: string, t: State)
    requires StateInv(s) && FillsLate(s, id, t)
    ensures StateInv(t) && Onward(s.intents, t.intents)
  {
    hide IntentInv, Calm;
    forall k | k in s.intents ensures Evolves(s.intents[k], t.intents[k]) {
      if k != id {
        StayPut(s.intents[k]);
      }
    }
    forall k | k in t.intents ensures t.intents[k].info.alertId == k && IntentInv(t.intents[k]) {
    }
  }

  lemma SimulationEffect(s: State, id: string, r: SimulationReceipt, env: Env)
    requires StateInv(s) && RecordSimulation(s, id, r, env).Ok?
    ensures CalmQueue(s.intents, RecordSimulation(s, id, r, env).value.intents)
  {
    hide Evolves, Calm, Steady, LogInv, PlanInv, AuthorityInv, CalmQueue;
    var i := s.intents[id];
    assert IntentInv(i);
    if r.entry {
      var row := SimulationRow(i.selection.value, r, None);
      assert i.selection.value.quantity > 0 by { SelectedIsPositive(i); }
      EntryStep(i, SimulationEntry, env.now, row);
      CalmUpdate(s.intents, id, Logged(i, SimulationEntry, Executed, env.now, Some(row)));
    } else {
      var row := SimulationRow(i.selection.value, r, Some(RealizedPnl(i.trades, r.bid).value));
      ExitStep(i, SimulationExit, env.now, row);
      CalmUpdate(s.intents, id, Logged(i, SimulationExit, Closed, env.now, Some(row)));
    }
  }

  lemma SelectedIsPositive(i: Intent)
    requires IntentInv(i) && i.selection.Some?
    ensures i.selection.value.quantity > 0
  {
  }
}
