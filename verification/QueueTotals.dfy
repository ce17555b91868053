/** Totals over the intent map: independent of any order, and monotone in each intent. */
module QueueTotals {
  import opened Prelude
  import opened Intents
  import opened IntentRules
  import opened IntentSteps
  import opened QueueSpec
  import opened QueueSteps

  lemma {:induction false} TotalRemove(m: Measure, intents: map<string, Intent>, id: string)
    requires id in intents
    ensures Total(m, intents) == Weight(m, intents[id]) + Total(m, intents - {id})
    decreases |intents|
  {
    hide Weight;
    var first := AnyId(intents);
    if first != id {
      SmallerMap(intents, first);
      SmallerMap(intents, id);
      TotalRemove(m, intents - {first}, id);
      TotalRemove(m, intents - {id}, first);
      assert (intents - {first}) - {id} == (intents - {id}) - {first};
    }
  }

  lemma SmallerMap(intents: map<string, Intent>, id: string)
    requires id in intents
    ensures |intents - {id}| == |intents| - 1
  {
    assert (intents - {id}).Keys == intents.Keys - {id};
    assert |(intents - {id}).Keys| == |intents - {id}|;
    assert |intents.Keys| == |intents|;
  }

  lemma TotalUpdate(m: Measure, intents: map<string, Intent>, id: string, i: Intent)
    ensures Total(m, intents[id := i]) == Total(m, intents - {id}) + Weight(m, i)
  {
    hide Weight;
    TotalRemove(m, intents[id := i], id);
    assert intents[id := i] - {id} == intents - {id};
  }

  lemma {:induction false} TotalMonotone(m: Measure, a: map<string, Intent>, n: Measure, b: map<string, Intent>)
    requires a.Keys == b.Keys
    requires forall id :: id in a ==> Weight(m, a[id]) <= Weight(n, b[id])
    ensures Total(m, a) <= Total(n, b)
    decreases |a|
  {
    hide Weight;
    if |a| > 0 {
      var id :| id in a;
      TotalRemove(m, a, id);
      TotalRemove(n, b, id);
      SmallerMap(a, id);
      TotalMonotone(m, a - {id}, n, b - {id});
    } else {
      assert |b| == |b.Keys| == |a.Keys| == 0;
    }
  }

  // ----- what one intent contributes, before and after a step -----

  /** The totals that only a new commitment can raise. */
  predicate Guarded(m: Measure) {
    m.ReservedOnTime? || m.OpenOnTime? || m.Committed? || m.CommittedOnTime?
  }

  lemma LateIsForGood(i: Intent, j: Intent)
    requires i.events <= j.events && LateFilled(i)
    ensures LateFilled(j)
  {
    var k :| 0 <= k < |i.events| && i.events[k].from == Some(Cancelled) && i.events[k].to.Executed?;
    assert j.events[k] == i.events[k];
  }

  lemma CalmWeight(m: Measure, i: Intent, j: Intent)
    requires Guarded(m) && GoodStep(i, j) && Calm(i, j)
    ensures Weight(m, j) <= Weight(m, i)
  {
    hide IntentInv, LateFilled;
    if LateFilled(i) {
      LateIsForGood(i, j);
    }
  }

  lemma CalmTotal(m: Measure, a: map<string, Intent>, b: map<string, Intent>)
    requires Guarded(m) && CalmQueue(a, b)
    ensures Total(m, b) <= Total(m, a)
  {
    hide GoodStep, Calm, Weight;
    forall id | id in a ensures Weight(m, b[id]) <= Weight(m, a[id]) {
      CalmWeight(m, a[id], b[id]);
    }
    TotalMonotone(m, b, m, a);
  }

  /** Claiming changes neither the reserved dollar risk nor the number of open intents. */
  lemma SteadyWeight(m: Measure, i: Intent, j: Intent)
    requires (m.ReservedOnTime? || m.OpenOnTime?) && GoodStep(i, j) && Steady(i, j)
    ensures Weight(m, j) <= Weight(m, i)
  {
    hide IntentInv, LateFilled;
    if LateFilled(i) {
      LateIsForGood(i, j);
    }
  }

  lemma OnlyLaterExpires(a: map<string, Intent>, before: int, after: int)
    requires before <= after
    ensures Total(OpenOnTime(after), a) <= Total(OpenOnTime(before), a)
  {
    TotalMonotone(OpenOnTime(after), a, OpenOnTime(before), a);
  }
}
