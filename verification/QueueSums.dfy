/** The totals over the intent map, as plain sums and counts over the intents that matter. */
module QueueSums {
  import opened Intents
  import opened QueueSpec
  import opened QueueTotals

  /** The values of a map, added up. */
  ghost function SumOf(parts: map<string, nat>): nat
    decreases |parts|
  {
    if parts == map[] then 0
    else
      var k :| k in parts;
      assert |(parts - {k}).Keys| < |parts.Keys|;
      parts[k] + SumOf(parts - {k})
  }

  lemma SmallerParts(parts: map<string, nat>, k: string)
    requires k in parts
    ensures |parts - {k}| < |parts|
  {
    assert (parts - {k}).Keys == parts.Keys - {k};
  }

  lemma {:induction false} SumRemove(parts: map<string, nat>, k: string)
    requires k in parts
    ensures SumOf(parts) == parts[k] + SumOf(parts - {k})
    decreases |parts|
  {
    var first: string :| first in parts && SumOf(parts) == parts[first] + SumOf(parts - {first});
    if first != k {
      SmallerParts(parts, first);
      SmallerParts(parts, k);
      SumRemove(parts - {first}, k);
      SumRemove(parts - {k}, first);
      assert (parts - {first}) - {k} == (parts - {k}) - {first};
    }
  }

  /** A total is the sum over any part of the map outside which nothing weighs. */
  lemma {:induction false} TotalIsSum(m: Measure, intents: map<string, Intent>, parts: map<string, nat>)
    requires parts.Keys <= intents.Keys
    requires forall id :: id in intents ==> Weight(m, intents[id]) == if id in parts then parts[id] else 0
    ensures Total(m, intents) == SumOf(parts)
    decreases |intents|
  {
    hide Weight, SumOf;
    if |intents| == 0 {
      NothingToSum(parts);
    } else {
      var id := AnyId(intents);
      TotalRemove(m, intents, id);
      SmallerMap(intents, id);
      if id in parts {
        SumRemove(parts, id);
        TotalIsSum(m, intents - {id}, parts - {id});
      } else {
        TotalIsSum(m, intents - {id}, parts);
      }
    }
  }

  lemma NothingToSum(parts: map<string, nat>)
    requires parts.Keys == {}
    ensures SumOf(parts) == 0
  {
    assert parts == map[];
  }

  /** A total of ones is the number of intents that weigh. */
  lemma {:induction false} TotalIsCount(m: Measure, intents: map<string, Intent>, ids: set<string>)
    requires ids <= intents.Keys
    requires forall id :: id in intents ==> Weight(m, intents[id]) == if id in ids then 1 else 0
    ensures Total(m, intents) == |ids|
    decreases |intents|
  {
    hide Weight;
    if |intents| == 0 {
      assert ids == {};
    } else {
      var id := AnyId(intents);
      TotalRemove(m, intents, id);
      SmallerMap(intents, id);
      TotalIsCount(m, intents - {id}, ids - {id});
    }
  }
}
