/**
 * Risk and concurrency caps over whole runs. A late fill re-enters the counted sets without asking,
 * so the caps bind every intent without one, and bind all intents exactly until one does not fit.
 */
module QueueBudgets {
  import opened Prelude
  import opened Intents
  import opened IntentRules
  import opened IntentSteps
  import opened QueueSpec
  import opened QueueSteps
  import opened QueueTotals
  import opened QueueRuns

  /** The caps in force never exceed the given ones, from here to the end of the run. */
  ghost predicate CapsWithin(s: State, calls: seq<Call>, daily: nat, open: nat)
    decreases |calls|
  {
    && s.policy.maxDailyRisk <= daily
    && s.policy.maxOpen <= open
    && (calls != [] ==> CapsWithin(Exec(s, calls[0]), calls[1..], daily, open))
  }

  // ----- committed daily risk -----

  /** A claim takes what the day has left, counted over everything reserved or committed so far. */
  lemma ClaimFitsBudget(m: Measure, s: State, id: string, env: Env, t: State, day: int, cap: nat)
    requires m == Committed(day) || m == CommittedOnTime(day)
    requires StateInv(s) && Acquires(s, id, env, t)
    requires Total(m, s.intents) <= cap && s.policy.maxDailyRisk <= cap
    ensures Total(m, t.intents) <= cap
  {
    hide Total, Weight, EffectiveRisk, StateInv, CapitalReasonFor, ClaimedIntent;
    var j := t.intents[id];
    TotalUpdate(m, s.intents, id, j);
    TotalRemove(m, s.intents, id);
    ClaimWeight(m, s, id, env, t, day);
    if day == env.day {
      ClaimedRisk(s, id, env, t);
      CommittedIsUsed(m, s.intents - {id}, day);
    }
  }

  lemma ClaimWeight(m: Measure, s: State, id: string, env: Env, t: State, day: int)
    requires m == Committed(day) || m == CommittedOnTime(day)
    requires Acquires(s, id, env, t)
    ensures Weight(m, t.intents[id]) <= if day == env.day then EffectiveRisk(t.intents[id]) else 0
  {
    hide LateFilled, CapitalReasonFor, Total;
  }

  /** The risk a claim is checked for is the risk the intent is later counted with. */
  lemma ClaimedRisk(s: State, id: string, env: Env, t: State)
    requires StateInv(s) && Acquires(s, id, env, t)
    ensures EffectiveRisk(t.intents[id]) <= RemainingDailyRisk(s, id, env.day)
  {
    hide LogInv, LedgerInv, AuthorityInv, Total;
    assert IntentInv(s.intents[id]);
    var i := s.intents[id];
    assert t.intents[id].selection == i.selection && t.intents[id].info == i.info;
  }

  lemma CommittedIsUsed(m: Measure, intents: map<string, Intent>, day: int)
    requires m == Committed(day) || m == CommittedOnTime(day)
    ensures Total(m, intents) <= Total(Used(day), intents)
  {
    hide LateFilled;
    TotalMonotone(m, intents, Used(day), intents);
  }

  /** Only an order can be committed, so an intent just created adds nothing. */
  lemma NewIntentUncommitted(m: Measure, s: State, a: Alert, env: Env, t: State, day: int)
    requires m == Committed(day) || m == CommittedOnTime(day)
    requires Creates(s, a, env, t)
    ensures Total(m, t.intents) == Total(m, s.intents)
  {
    hide Total, LateFilled, AlertEligible;
    TotalUpdate(m, s.intents, a.alertId, t.intents[a.alertId]);
    assert s.intents - {a.alertId} == s.intents;
  }

  lemma LateFillUncounted(m: Measure, s: State, id: string, t: State)
    requires m.CommittedOnTime? || m.ReservedOnTime? || m.OpenOnTime?
    requires FillsLate(s, id, t)
    ensures Total(m, t.intents) <= Total(m, s.intents)
  {
    hide Total, LateFilled, GoodStep;
    TotalUpdate(m, s.intents, id, t.intents[id]);
    TotalRemove(m, s.intents, id);
  }

  lemma CommittedStep(s: State, c: Call, day: int, cap: nat)
    requires StateInv(s)
    requires Total(CommittedOnTime(day), s.intents) <= cap && s.policy.maxDailyRisk <= cap
    ensures Total(CommittedOnTime(day), Exec(s, c).intents) <= cap
  {
    hide StateInv, CalmQueue, Acquires, FillsLate, Creates, Exec, Total;
    var m, t := CommittedOnTime(day), Exec(s, c);
    StepCases(s, c);
    if CalmQueue(s.intents, t.intents) {
      CalmTotal(m, s.intents, t.intents);
    } else if c.op.OpAlert? {
      NewIntentUncommitted(m, s, c.op.alert, c.env, t, day);
    } else if c.op.OpClaim? {
      ClaimFitsBudget(m, s, c.op.id, c.env, t, day, cap);
    } else {
      LateFillUncounted(m, s, c.op.id, t);
    }
  }

  lemma {:induction false} CommittedRun(s: State, calls: seq<Call>, day: int, daily: nat, open: nat)
    requires StateInv(s) && CapsWithin(s, calls, daily, open)
    requires Total(CommittedOnTime(day), s.intents) <= daily
    ensures Total(CommittedOnTime(day), Run(s, calls).intents) <= daily
    decreases |calls|
  {
    hide StateInv, Total, Exec;
    if calls != [] {
      StepCases(s, calls[0]);
      CommittedStep(s, calls[0], day, daily);
      CommittedRun(Exec(s, calls[0]), calls[1..], day, daily, open);
    }
  }

  /**
   * Committed daily risk: on every day, the effective risk of the LIVE intents created and claimed
   * that day, claimed, executed or closed by now and without a late fill, is at most the daily cap.
   */
  lemma DailyRiskNeverExceedsCap(p: Policy, calls: seq<Call>, day: int, daily: nat, open: nat)
    requires CapsWithin(Init(p), calls, daily, open)
    ensures Total(CommittedOnTime(day), Run(Init(p), calls).intents) <= daily
  {
    hide CapsWithin;
    CommittedRun(Init(p), calls, day, daily, open);
  }

  // ----- late fills, counted -----

  /** A late fill adds the whole effective risk of its intent back to the day it was claimed on. */
  lemma LateFillAdds(s: State, id: string, t: State, day: int)
    requires StateInv(s) && FillsLate(s, id, t)
    ensures Total(Committed(day), t.intents) == Total(Committed(day), s.intents)
         + (if ClaimedOnCreationDay(s.intents[id], day) then EffectiveRisk(s.intents[id]) else 0)
  {
    hide Total, IntentInv, LateFilled;
    TotalUpdate(Committed(day), s.intents, id, t.intents[id]);
    TotalRemove(Committed(day), s.intents, id);
    AuthorityOf(s, id);
  }

  /** What `record_receipt` asks of a fill reported for a cancelled order. */
  predicate ReceiptGuards(i: Intent, r: Receipt, now: int) {
    i.info.mode.Live? && i.status.Cancelled? && r.status.Executed? && r.observedAt <= now + 5 && FillError(i, r).None?
  }

  /** The guards are exactly when a receipt for a cancelled order is accepted. */
  lemma GuardsAdmitReceipt(s: State, id: string, r: Receipt, env: Env)
    requires id in s.intents && s.intents[id].status.Cancelled?
    ensures RecordReceipt(s, id, r, env).Ok? <==> ReceiptGuards(s.intents[id], r, env.now)
  {
    hide FillError;
  }

  /** An acceptable receipt that fills a cancelled order whose risk exceeds what the day has left. */
  ghost predicate Overflows(s: State, c: Call, day: int, cap: nat) {
    && c.op.OpReceipt?
    && c.op.id in s.intents
    && ReceiptGuards(s.intents[c.op.id], c.op.receipt, c.env.now)
    && ClaimedOnCreationDay(s.intents[c.op.id], day)
    && EffectiveRisk(s.intents[c.op.id]) > cap - Total(Committed(day), s.intents)
  }

  /** With late fills counted, a call keeps the day within its cap if and only if it does not overflow it. */
  lemma CapHoldsUnlessLateFillOverflows(s: State, c: Call, day: int, cap: nat)
    requires StateInv(s)
    requires Total(Committed(day), s.intents) <= cap && s.policy.maxDailyRisk <= cap
    ensures Total(Committed(day), Exec(s, c).intents) <= cap
      <==> !Overflows(s, c, day, cap)
  {
    hide StateInv, CalmQueue, Acquires, Creates, Total, EffectiveRisk, ClaimedOnCreationDay, ReceiptGuards,
      RecordReceipt;
    if c.op.OpReceipt? && c.op.id in s.intents && s.intents[c.op.id].status.Cancelled? {
      GuardsAdmitReceipt(s, c.op.id, c.op.receipt, c.env);
    }
    CapOrLateFill(s, c, day, cap);
    GuardsNeedCancelled(s, c);
  }

  lemma GuardsNeedCancelled(s: State, c: Call)
    ensures c.op.OpReceipt? && c.op.id in s.intents && ReceiptGuards(s.intents[c.op.id], c.op.receipt, c.env.now) ==>
      s.intents[c.op.id].status.Cancelled?
    ensures c.op.OpReceipt? && c.op.id !in s.intents ==> Attempt(s, c).Err?
  {
  }

  lemma CapOrLateFill(s: State, c: Call, day: int, cap: nat)
    requires StateInv(s)
    requires Total(Committed(day), s.intents) <= cap && s.policy.maxDailyRisk <= cap
    ensures Total(Committed(day), Exec(s, c).intents) <= cap
      <==> !(&& Attempt(s, c).Ok?
             && c.op.OpReceipt?
             && s.intents[c.op.id].status.Cancelled?
             && ClaimedOnCreationDay(s.intents[c.op.id], day)
             && EffectiveRisk(s.intents[c.op.id]) > cap - Total(Committed(day), s.intents))
  {
    hide StateInv, CalmQueue, Acquires, Creates, Total, EffectiveRisk, ClaimedOnCreationDay;
    var m, t := Committed(day), Exec(s, c);
    StepCases(s, c);
    if c.op.OpReceipt? && Attempt(s, c).Ok? && s.intents[c.op.id].status.Cancelled? {
      CancelledReceiptFillsLate(s, c.op.id, c.op.receipt, c.env);
      LateFillAdds(s, c.op.id, t, day);
    } else if CalmQueue(s.intents, t.intents) {
      CalmTotal(m, s.intents, t.intents);
    } else if c.op.OpAlert? {
      NewIntentUncommitted(m, s, c.op.alert, c.env, t, day);
    } else {
      ClaimFitsBudget(m, s, c.op.id, c.env, t, day, cap);
    }
  }

  /** The day is within its cap now and after each of the calls. */
  ghost predicate StaysWithin(s: State, calls: seq<Call>, day: int, cap: nat)
    decreases |calls|
  {
    && Total(Committed(day), s.intents) <= cap
    && (calls != [] ==> StaysWithin(Exec(s, calls[0]), calls[1..], day, cap))
  }

  ghost predicate NoneOverflows(s: State, calls: seq<Call>, day: int, cap: nat)
    decreases |calls|
  {
    calls != [] ==> !Overflows(s, calls[0], day, cap) && NoneOverflows(Exec(s, calls[0]), calls[1..], day, cap)
  }

  lemma {:induction false} StaysWithinExactly(s: State, calls: seq<Call>, day: int, daily: nat, open: nat)
    requires StateInv(s) && CapsWithin(s, calls, daily, open) && Total(Committed(day), s.intents) <= daily
    ensures StaysWithin(s, calls, day, daily) <==> NoneOverflows(s, calls, day, daily)
    decreases |calls|
  {
    hide StateInv, Total, Exec, Overflows;
    if calls != [] {
      StepCases(s, calls[0]);
      CapHoldsUnlessLateFillOverflows(s, calls[0], day, daily);
      if Total(Committed(day), Exec(s, calls[0]).intents) <= daily {
        StaysWithinExactly(Exec(s, calls[0]), calls[1..], day, daily, open);
      }
    }
  }

  /** A day's committed risk, late fills counted, stays within the cap exactly if no call overflows it. */
  lemma CapHeldExactly(p: Policy, calls: seq<Call>, day: int, daily: nat, open: nat)
    requires CapsWithin(Init(p), calls, daily, open)
    ensures StaysWithin(Init(p), calls, day, daily) <==> NoneOverflows(Init(p), calls, day, daily)
  {
    hide CapsWithin, StaysWithin, NoneOverflows;
    StaysWithinExactly(Init(p), calls, day, daily, open);
  }

  lemma CancelledReceiptFillsLate(s: State, id: string, r: Receipt, env: Env)
    requires StateInv(s) && RecordReceipt(s, id, r, env).Ok? && s.intents[id].status.Cancelled?
    ensures FillsLate(s, id, RecordReceipt(s, id, r, env).value)
  {
    hide IntentInv, Evolves, Calm, Steady;
    var i := s.intents[id];
    var row := ReceiptRow(i, r, None);
    var j := Logged(i, BrokerReceipt, Executed, env.now, Some(row));
    EntryStep(i, BrokerReceipt, env.now, row);
    var last := |j.events| - 1;
    assert j.events[last].from == Some(Cancelled) && j.events[last].to.Executed?;
  }

  // ----- caps at creation time -----

  lemma CreationFitsBudget(s: State, a: Alert, env: Env, t: State, day: int, cap: nat)
    requires Creates(s, a, env, t)
    requires Total(ReservedOnTime(day), s.intents) <= cap && s.policy.maxDailyRisk <= cap
    ensures Total(ReservedOnTime(day), t.intents) <= cap
  {
    hide Total, AlertAcceptable, LateFilled;
    var i := t.intents[a.alertId];
    TotalUpdate(ReservedOnTime(day), s.intents, a.alertId, i);
    assert s.intents - {a.alertId} == s.intents;
    if Weight(ReservedOnTime(day), i) > 0 {
      TotalMonotone(ReservedOnTime(day), s.intents, Reserved(day), s.intents);
    }
  }

  lemma AcquireKeeps(m: Measure, s: State, id: string, env: Env, t: State)
    requires m.ReservedOnTime? || m.OpenOnTime?
    requires StateInv(s) && Acquires(s, id, env, t)
    ensures Total(m, t.intents) <= Total(m, s.intents)
  {
    hide Total, GoodStep, Steady, StateInv, Weight, CapitalReasonFor;
    AcquireEffect(s, id, env, t);
    SteadyWeight(m, s.intents[id], t.intents[id]);
    TotalUpdate(m, s.intents, id, t.intents[id]);
    TotalRemove(m, s.intents, id);
  }

  lemma ReservedStep(s: State, c: Call, day: int, cap: nat)
    requires StateInv(s)
    requires Total(ReservedOnTime(day), s.intents) <= cap && s.policy.maxDailyRisk <= cap
    ensures Total(ReservedOnTime(day), Exec(s, c).intents) <= cap
  {
    hide StateInv, CalmQueue, Acquires, FillsLate, Creates, Exec, Total;
    var m, t := ReservedOnTime(day), Exec(s, c);
    StepCases(s, c);
    if CalmQueue(s.intents, t.intents) {
      CalmTotal(m, s.intents, t.intents);
    } else if c.op.OpAlert? {
      CreationFitsBudget(s, c.op.alert, c.env, t, day, cap);
    } else if c.op.OpClaim? {
      AcquireKeeps(m, s, c.op.id, c.env, t);
    } else {
      LateFillUncounted(m, s, c.op.id, t);
    }
  }

  lemma {:induction false} ReservedRun(s: State, calls: seq<Call>, day: int, daily: nat, open: nat)
    requires StateInv(s) && CapsWithin(s, calls, daily, open)
    requires Total(ReservedOnTime(day), s.intents) <= daily
    ensures Total(ReservedOnTime(day), Run(s, calls).intents) <= daily
    decreases |calls|
  {
    hide StateInv, Total, Exec;
    if calls != [] {
      StepCases(s, calls[0]);
      ReservedStep(s, calls[0], day, daily);
      ReservedRun(Exec(s, calls[0]), calls[1..], day, daily, open);
    }
  }

  /** Dollar risk reserved by the LIVE intents of one creation day, late fills aside. */
  lemma ReservedRiskNeverExceedsCap(p: Policy, calls: seq<Call>, day: int, daily: nat, open: nat)
    requires CapsWithin(Init(p), calls, daily, open)
    ensures Total(ReservedOnTime(day), Run(Init(p), calls).intents) <= daily
  {
    hide CapsWithin;
    ReservedRun(Init(p), calls, day, daily, open);
  }

  // ----- open intents -----

  lemma CreationFitsOpenCap(s: State, a: Alert, env: Env, t: State, cap: nat)
    requires Creates(s, a, env, t)
    requires Total(OpenOnTime(env.now), s.intents) <= cap && s.policy.maxOpen <= cap
    ensures Total(OpenOnTime(env.now), t.intents) <= cap
  {
    hide Total, AlertAcceptable, LateFilled;
    var i := t.intents[a.alertId];
    TotalUpdate(OpenOnTime(env.now), s.intents, a.alertId, i);
    assert s.intents - {a.alertId} == s.intents;
    if Weight(OpenOnTime(env.now), i) > 0 {
      TotalMonotone(OpenOnTime(env.now), s.intents, OpenLive(env.now), s.intents);
    }
  }

  lemma OpenStep(s: State, c: Call, cap: nat)
    requires StateInv(s)
    requires Total(OpenOnTime(c.env.now), s.intents) <= cap && s.policy.maxOpen <= cap
    ensures Total(OpenOnTime(c.env.now), Exec(s, c).intents) <= cap
  {
    hide StateInv, CalmQueue, Acquires, FillsLate, Creates, Exec, Total;
    var m, t := OpenOnTime(c.env.now), Exec(s, c);
    StepCases(s, c);
    if CalmQueue(s.intents, t.intents) {
      CalmTotal(m, s.intents, t.intents);
    } else if c.op.OpAlert? {
      CreationFitsOpenCap(s, c.op.alert, c.env, t, cap);
    } else if c.op.OpClaim? {
      AcquireKeeps(m, s, c.op.id, c.env, t);
    } else {
      LateFillUncounted(m, s, c.op.id, t);
    }
  }

  ghost predicate TimeOrdered(start: int, calls: seq<Call>) {
    && (forall k :: 0 <= k < |calls| ==> start <= calls[k].env.now)
    && (forall k, l :: 0 <= k < l < |calls| ==> calls[k].env.now <= calls[l].env.now)
  }

  lemma {:induction false} OpenRun(s: State, start: int, calls: seq<Call>, daily: nat, open: nat, now: int)
    requires StateInv(s) && CapsWithin(s, calls, daily, open)
    requires TimeOrdered(start, calls) && start <= now
    requires forall k :: 0 <= k < |calls| ==> calls[k].env.now <= now
    requires Total(OpenOnTime(start), s.intents) <= open
    ensures Total(OpenOnTime(now), Run(s, calls).intents) <= open
    decreases |calls|
  {
    hide StateInv, Total, Exec;
    if calls == [] {
      OnlyLaterExpires(s.intents, start, now);
    } else {
      var c := calls[0];
      OnlyLaterExpires(s.intents, start, c.env.now);
      StepCases(s, c);
      OpenStep(s, c, open);
      OpenRun(Exec(s, c), c.env.now, calls[1..], daily, open, now);
    }
  }

  /** LIVE intents that are neither terminal nor out of validity, late fills aside. */
  lemma OpenIntentsNeverExceedCap(p: Policy, start: int, calls: seq<Call>, daily: nat, open: nat, now: int)
    requires CapsWithin(Init(p), calls, daily, open)
    requires TimeOrdered(start, calls) && start <= now
    requires forall k :: 0 <= k < |calls| ==> calls[k].env.now <= now
    ensures Total(OpenOnTime(now), Run(Init(p), calls).intents) <= open
  {
    hide CapsWithin;
    OpenRun(Init(p), start, calls, daily, open, now);
  }
}
