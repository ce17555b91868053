/** What holds of the intent queue in every run from an empty queue. */
module QueueTheorems {
  import opened Prelude
  import opened Intents
  import opened IntentRules
  import opened IntentSteps
  import opened OptionChoice
  import opened QueueSpec
  import opened QueueSteps
  import opened QueueRuns

  lemma EveryRunGood(p: Policy, calls: seq<Call>)
    ensures StateInv(Run(Init(p), calls))
  {
    RunOnward(Init(p), calls);
  }

  // ----- one intent, over a whole run -----

  /**
   * The audit log of every intent: numbered 1..n, chained from status to status by legal arcs only,
   * ending in the current status, one entry per revision, and carrying exactly the ledger rows.
   */
  lemma EventLogRefinesLifecycle(p: Policy, calls: seq<Call>, id: string)
    requires id in Run(Init(p), calls).intents
    ensures var i := Run(Init(p), calls).intents[id];
      && i.events != []
      && i.events[0].kind.IntentCreated? && i.events[0].from.None?
      && (forall k :: 0 <= k < |i.events| ==> i.events[k].seqNo == k + 1)
      && (forall k :: 0 < k < |i.events| ==>
            && i.events[k].from == Some(i.events[k - 1].to)
            && LegalStep(i.info.mode, i.events[k].kind, i.events[k - 1].to, i.events[k].to))
      && i.events[|i.events| - 1].to == i.status
      && i.revision == |i.events|
      && RowsOf(i.events) == i.trades
  {
    EveryRunGood(p, calls);
  }

  /** Terminal statuses absorb, except that a cancelled order may still turn out filled. */
  lemma TerminalAbsorbs(p: Policy, calls: seq<Call>, more: seq<Call>, id: string)
    requires id in Run(Init(p), calls).intents
    ensures var s, t := Run(Init(p), calls), Run(Run(Init(p), calls), more);
      && id in t.intents
      && var i, j := s.intents[id], t.intents[id];
      && j.info == i.info
      && i.events <= j.events
      && (Terminal(i.status) && !i.status.Cancelled? ==> j == i)
      && (i.status.Cancelled? && j != i ==> Exposed(j.status))
  {
    hide IntentInv, ModeSafe, Run;
    EveryRunGood(p, calls);
    RunOnward(Run(Init(p), calls), more);
  }

  /** An exposure is never lost from view: a filled order stays filled until it is closed. */
  lemma ExposureIsKept(p: Policy, calls: seq<Call>, more: seq<Call>, id: string)
    requires id in Run(Init(p), calls).intents && Exposed(Run(Init(p), calls).intents[id].status)
    ensures var t := Run(Run(Init(p), calls), more); id in t.intents && Exposed(t.intents[id].status)
  {
    hide IntentInv, ModeSafe, Run;
    EveryRunGood(p, calls);
    RunOnward(Run(Init(p), calls), more);
  }

  /**
   * Trade ledger: one entry row exactly when the order filled, one exit row exactly when it closed,
   * the exit last, at the price difference times the entered quantity; an option exit closes the
   * whole entry, which never exceeds the selected quantity.
   */
  lemma LedgerShape(p: Policy, calls: seq<Call>, id: string)
    requires id in Run(Init(p), calls).intents
    ensures var i := Run(Init(p), calls).intents[id];
      && CountKind(i.trades, Entry) == (if Exposed(i.status) then 1 else 0)
      && CountKind(i.trades, Exit) == (if i.status.Closed? then 1 else 0)
      && (Exposed(i.status) ==> FirstEntry(i.trades).Some?
                                && GoodEntry(FirstEntry(i.trades).value, i.selection))
      && (i.status.Closed? ==>
            ExitMatches(FirstEntry(i.trades).value, i.trades[|i.trades| - 1], i.selection))
  {
    hide LogInv, PlanInv, AuthorityInv, ModeSafe, Run;
    EveryRunGood(p, calls);
  }

  /** In no run can the profit lookup of a closing receipt miss its entry. */
  lemma ClosingLookupNeverFails(p: Policy, calls: seq<Call>, id: string, r: Receipt, sim: SimulationReceipt, env: Env)
    ensures RecordReceipt(Run(Init(p), calls), id, r, env) != Err(NoEntry)
    ensures RecordSimulation(Run(Init(p), calls), id, sim, env) != Err(NoEntry)
  {
    hide StateInv, RecordReceipt, RecordSimulation, Run;
    EveryRunGood(p, calls);
    ReceiptNeverMissesEntry(Run(Init(p), calls), id, r, env);
    SimulationNeverMissesEntry(Run(Init(p), calls), id, sim, env);
  }

  // ----- modes -----

  /** Under a stored SIMULATION mode every LIVE intent is out of play or its claim revoked. */
  lemma SimulationModeIsSafe(p: Policy, calls: seq<Call>, id: string)
    requires id in Run(Init(p), calls).intents
    ensures var s := Run(Init(p), calls);
      s.policy.mode.Simulation? && s.intents[id].info.mode.Live? ==>
        && !Blockable(s.intents[id].status)
        && (s.intents[id].status.Claimed? ==> s.intents[id].revokedAt.Some?)
  {
    hide IntentInv, Run;
    EveryRunGood(p, calls);
  }

  /** A SIMULATION intent never becomes claimable, and nothing ever waits for approval. */
  lemma SimulationNeverPlaced(p: Policy, calls: seq<Call>, id: string)
    requires id in Run(Init(p), calls).intents
    ensures var i := Run(Init(p), calls).intents[id];
      && !i.status.AwaitingApproval?
      && (i.info.mode.Simulation? ==> !i.status.Ready? && !i.status.Claimed? && i.claim.None?)
  {
    hide LogInv, LedgerInv, PlanInv, ModeSafe, Run;
    EveryRunGood(p, calls);
  }

  // ----- claims -----

  /** A lease ends within two minutes, within the intent's validity and within the LIVE window. */
  lemma LeaseWithinBounds(s: State, id: string, env: Env, t: State)
    requires Acquires(s, id, env, t)
    ensures t.intents[id].claim.Some?
    ensures var c := t.intents[id].claim.value;
      && c.claimedAt == env.now < c.leaseUntil <= env.now + 120
      && c.leaseUntil <= s.intents[id].info.validUntil
      && s.policy.liveUntil.Some? && c.leaseUntil <= s.policy.liveUntil.value
  {
  }

  /** A claim only ever changes by an acquisition, that is by a claim call passing every check. */
  lemma ClaimsChangeOnlyByAcquisition(p: Policy, calls: seq<Call>, c: Call, id: string)
    requires id in Run(Init(p), calls).intents
    ensures var s := Run(Init(p), calls);
      var t := Exec(s, c);
      && id in t.intents
      && (t.intents[id].claim != s.intents[id].claim ==>
            c.op.OpClaim? && c.op.id == id && Acquires(s, id, c.env, t))
  {
    hide StateInv, GoodStep, Steady, Attempt, Run, AlertEligible, CapitalReasonFor, Total, EffectiveMode, LeaseEnd;
    EveryRunGood(p, calls);
    StepCases(Run(Init(p), calls), c);
  }

  /** Every claim acquired in a run was checked against the capital its last review passed. */
  lemma ClaimUsesReviewedCapital(p: Policy, calls: seq<Call>, id: string, env: Env, t: State)
    requires Acquires(Run(Init(p), calls), id, env, t)
    ensures var i := Run(Init(p), calls).intents[id];
      && i.check.Some? && i.check.value.passed
      && i.plan.capitalRequired == Some(i.check.value.required)
      && t.intents[id].check == i.check && t.intents[id].plan == i.plan
  {
    hide StateInv, Run;
    EveryRunGood(p, calls);
    AcquireAllowed(Run(Init(p), calls), id, env, t);
  }

  /** While claimed, the reviewed amount is the planned one, and a failed review revokes the claim. */
  lemma ClaimedStaysReviewed(p: Policy, calls: seq<Call>, id: string)
    requires id in Run(Init(p), calls).intents && Run(Init(p), calls).intents[id].status.Claimed?
    ensures var i := Run(Init(p), calls).intents[id];
      && i.check.Some?
      && i.plan.capitalRequired == Some(i.check.value.required)
      && (!i.check.value.passed ==> i.revokedAt.Some?)
  {
    hide LogInv, LedgerInv, PlanInv, ModeSafe, Run;
    EveryRunGood(p, calls);
  }

  /** Two claims of one intent, anywhere in a run, hold disjoint leases. */
  lemma LeasesAreDisjoint(p: Policy, calls: seq<Call>, id: string, env: Env, t: State, more: seq<Call>, later: Env,
                          u: State)
    requires Acquires(Run(Init(p), calls), id, env, t)
    requires id in Run(t, more).intents && Acquires(Run(t, more), id, later, u)
    ensures t.intents[id].claim.Some? && u.intents[id].claim.Some?
    ensures t.intents[id].claim.value.leaseUntil <= u.intents[id].claim.value.claimedAt
  {
    hide IntentInv, ModeSafe, Run, CapitalReasonFor, Total, EffectiveMode, LeaseEnd;
    EveryRunGood(p, calls);
    AcquireEffect(Run(Init(p), calls), id, env, t);
    RunOnward(t, more);
    AuthorityOf(Run(t, more), id);
  }

  /** Revocation is final: no later call acquires a claim on the intent. */
  lemma NoClaimAfterRevocation(p: Policy, calls: seq<Call>, id: string, more: seq<Call>, env: Env, u: State)
    requires id in Run(Init(p), calls).intents && Run(Init(p), calls).intents[id].revokedAt.Some?
    ensures !Acquires(Run(Run(Init(p), calls), more), id, env, u)
  {
    hide IntentInv, ModeSafe, Run, CapitalReasonFor, Total, EffectiveMode, LeaseEnd;
    EveryRunGood(p, calls);
    RunOnward(Run(Init(p), calls), more);
    AuthorityOf(Run(Run(Init(p), calls), more), id);
  }

  /** What was claimed stays selected, at the same size, for ever after. */
  lemma SelectionFixedByClaim(p: Policy, calls: seq<Call>, id: string, more: seq<Call>)
    requires id in Run(Init(p), calls).intents && Run(Init(p), calls).intents[id].claim.Some?
    ensures var i := Run(Init(p), calls).intents[id];
      var t := Run(Run(Init(p), calls), more);
      && id in t.intents
      && t.intents[id].selection == i.selection && t.intents[id].plan == i.plan
      && EffectiveRisk(t.intents[id]) == EffectiveRisk(i)
  {
    hide IntentInv, ModeSafe, Run;
    EveryRunGood(p, calls);
    RunOnward(Run(Init(p), calls), more);
  }

  /**
   * A selection is the largest whole number of contracts within the rounded least of the three
   * ceilings, so it fits the order cap, what is left of the day's cap, and the share of buying power
   * up to the half cent that rounding may add.
   */
  lemma SelectionFitsBudgets(s: State, id: string, req: SelectionRequest, env: Env, t: State)
    requires AttestSelection(s, id, req, env) == Ok(t)
    ensures id in t.intents && t.intents[id].selection.Some?
    ensures var sel := t.intents[id].selection.value;
      && sel.quantity >= 1
      && sel.plannedDebit == sel.quantity * sel.contractDebit
      && sel.plannedDebit <= s.policy.maxOrderRisk
      && sel.plannedDebit <= RemainingDailyRisk(s, id, env.day)
      && sel.plannedDebit as real <= req.buyingPower as real * s.policy.capitalFraction + 0.5
      && sel.plannedDebit + sel.contractDebit
           > CapitalCeiling(req.buyingPower, s.policy, RemainingDailyRisk(s, id, env.day))
      && t.intents[id].plan.capitalRequired == Some(sel.plannedDebit)
  {
    hide Select, RemainingDailyRisk, CapitalCeiling;
    SelectionFitsCeiling(req.candidates, SelectionScreen(s, id, req, env), env.now);
  }
}
