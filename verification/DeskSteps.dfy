/** What each part of a desk step does to the counters and the ledger. */
module DeskSteps {
  import opened Market
  import opened PaperTrades
  import opened Controls
  import opened DeskSpec

  // ----- settlement and the counters -----

  /** How many of some settled trades were counted on a plane in a slot. */
  function Held(settled: seq<Trade>, research: bool, slot: Slot): nat {
    if settled == [] then 0
    else
      var p := settled[|settled| - 1].plan;
      Held(settled[..|settled| - 1], research, slot) + One(p.researchOnly == research && InSlot(p.key, slot))
  }

  lemma TallyAppend(ts: seq<Trade>, t: Trade, research: bool, slot: Slot)
    ensures Tally(ts + [t], research, slot) == Tally(ts, research, slot) + One(Holds(t, research, slot))
  {
    assert (ts + [t])[..|ts|] == ts;
  }

  lemma HeldAppend(ts: seq<Trade>, t: Trade, research: bool, slot: Slot)
    ensures Held(ts + [t], research, slot)
         == Held(ts, research, slot) + One(t.plan.researchOnly == research && InSlot(t.plan.key, slot))
  {
    assert (ts + [t])[..|ts|] == ts;
  }

  /** One more trade, before and after the bar. */
  lemma SettleTallyStep(ts: seq<Trade>, fed: seq<Trade>, gone: seq<Trade>, last: Trade, next: Trade, research: bool,
                        slot: Slot)
    requires Tally(fed, research, slot) + Held(gone, research, slot) == Tally(ts, research, slot)
    requires next.plan == last.plan && (!Active(last) ==> next == last)
    ensures var out := if Active(last) && !Active(next) then gone + [next] else gone;
      Tally(fed + [next], research, slot) + Held(out, research, slot) == Tally(ts + [last], research, slot)
  {
    hide Tally, Held, InSlot;
    TallyAppend(ts, last, research, slot);
    TallyAppend(fed, next, research, slot);
    HeldAppend(gone, next, research, slot);
  }

  lemma {:induction false} SettleTally(ts: seq<Trade>, b: Bar, research: bool, slot: Slot)
    requires AllSound(ts)
    ensures Tally(FeedEach(ts, b), research, slot) + Held(SettledBy(ts, b), research, slot) == Tally(ts, research, slot)
  {
    hide Feed, Holds, InSlot;
    if ts != [] {
      var front, last, next := ts[..|ts| - 1], ts[|ts| - 1], Feed(ts[|ts| - 1], b);
      SettleTally(front, b, research, slot);
      FeedPlan(last, b);
      SettleTallyStep(front, FeedEach(front, b), SettledBy(front, b), last, next, research, slot);
      assert front + [last] == ts;
      assert SettledBy(ts, b)
          == if Active(last) && !Active(next) then SettledBy(front, b) + [next] else SettledBy(front, b);
    }
  }

  /** A settled trade stays settled, and a bar never changes the plan. */
  lemma FeedPlan(t: Trade, b: Bar)
    requires Sound(t)
    ensures Feed(t, b).plan == t.plan
    ensures !Active(t) ==> Feed(t, b) == t
  {
    hide Advance;
  }

  /** Closing what is counted takes away exactly its number: the floor at zero is never reached. */
  lemma {:induction false} CloseAllCounts(c: Counters, settled: seq<Trade>, research: bool, slot: Slot)
    requires Count(c, slot) >= Held(settled, research, slot)
    ensures Count(CloseAll(c, settled, research), slot) == Count(c, slot) - Held(settled, research, slot)
  {
    hide Count, InSlot, RegisterClose;
    if settled != [] {
      var front, p := settled[..|settled| - 1], settled[|settled| - 1].plan;
      CloseAllCounts(c, front, research, slot);
      if p.researchOnly == research {
        CloseCounts(CloseAll(c, front, research), p.key, slot);
      }
    }
  }

  lemma SettleMirrors(c: Counters, ts: seq<Trade>, b: Bar, research: bool)
    requires AllSound(ts) && Mirrors(c, ts, research)
    ensures Mirrors(CloseAll(c, SettledBy(ts, b), research), FeedEach(ts, b), research)
  {
    hide Count;
    forall slot ensures Count(CloseAll(c, SettledBy(ts, b), research), slot) == Tally(FeedEach(ts, b), research, slot) {
      SettleTally(ts, b, research, slot);
      CloseAllCounts(c, SettledBy(ts, b), research, slot);
    }
  }

  // ----- settlement and the ledger -----

  lemma {:induction false} WithoutHolds(ledger: seq<Trade>, alertId: string)
    ensures forall r :: r in Without(ledger, alertId) <==> r in ledger && r.plan.alertId != alertId
  {
    if ledger != [] {
      WithoutHolds(ledger[..|ledger| - 1], alertId);
    }
  }

  lemma {:induction false} WithoutSeparate(ledger: seq<Trade>, alertId: string)
    requires Separate(ledger)
    ensures Separate(Without(ledger, alertId))
  {
    if ledger != [] {
      var front := ledger[..|ledger| - 1];
      WithoutSeparate(front, alertId);
      WithoutHolds(front, alertId);
      assert forall k :: 0 <= k < |Without(front, alertId)| ==> Without(front, alertId)[k] in front;
    }
  }

  /** Two lists name plans alike: a shared alert id is a shared plan key and the other way round. */
  ghost predicate Agree(xs: seq<Trade>, ys: seq<Trade>) {
    forall x, y :: x in xs && y in ys ==> (x.plan.alertId == y.plan.alertId <==> x.plan.key == y.plan.key)
  }

  lemma UpsertHolds(ledger: seq<Trade>, row: Trade)
    requires Separate(ledger) && Agree(ledger, [row])
    ensures forall r :: r in Upsert(ledger, row) <==> r == row || (r in ledger && r.plan.alertId != row.plan.alertId)
    ensures Separate(Upsert(ledger, row))
  {
    WithoutHolds(ledger, row.plan.alertId);
    WithoutSeparate(ledger, row.plan.alertId);
    var rest := Without(ledger, row.plan.alertId);
    forall k | 0 <= k < |rest| ensures rest[k].plan.alertId != row.plan.alertId && rest[k].plan.key != row.plan.key {
      assert rest[k] in rest;
    }
  }

  lemma {:induction false} UpsertAllHolds(ledger: seq<Trade>, rows: seq<Trade>)
    requires Separate(ledger) && Separate(rows) && Agree(ledger, rows)
    ensures var r := UpsertAll(ledger, rows);
      && Separate(r)
      && (forall x :: x in r <==>
            x in rows || (x in ledger && forall y :: y in rows ==> x.plan.alertId != y.plan.alertId))
  {
    hide Upsert;
    if rows != [] {
      var front, last := rows[..|rows| - 1], rows[|rows| - 1];
      assert rows == front + [last];
      UpsertAllHolds(ledger, front);
      var before := UpsertAll(ledger, front);
      forall x | x in before ensures x.plan.alertId == last.plan.alertId <==> x.plan.key == last.plan.key {
        if x in front {
          var k :| 0 <= k < |front| && front[k] == x;
          assert rows[k] == x;
        }
      }
      UpsertHolds(before, last);
    }
  }

  /** Two trades of a separate list with the same alert id or key are one. */
  lemma SeparateSame(ts: seq<Trade>, x: Trade, y: Trade)
    requires Separate(ts) && x in ts && y in ts
    ensures x.plan.alertId == y.plan.alertId ==> x == y
    ensures x.plan.key == y.plan.key ==> x == y
  {
    var j :| 0 <= j < |ts| && ts[j] == x;
    var k :| 0 <= k < |ts| && ts[k] == y;
  }

  /** What settles is exactly the fed form of the unresolved trades that the bar resolves. */
  lemma {:induction false} SettledContains(ts: seq<Trade>, b: Bar, k: nat)
    requires AllSound(ts) && k < |ts| && Active(ts[k]) && !Active(Feed(ts[k], b))
    ensures Feed(ts[k], b) in SettledBy(ts, b)
  {
    hide Feed;
    if k < |ts| - 1 {
      SettledContains(ts[..|ts| - 1], b, k);
    }
  }

  predicate Settles(t: Trade, b: Bar, x: Trade)
    requires Sound(t)
  {
    Active(t) && Feed(t, b) == x
  }

  lemma {:induction false} SettledComesFrom(ts: seq<Trade>, b: Bar, x: Trade) returns (k: nat)
    requires AllSound(ts) && x in SettledBy(ts, b)
    ensures k < |ts| && Settles(ts[k], b, x) && !Active(x) && x.plan == ts[k].plan
  {
    hide Feed;
    var front, last := ts[..|ts| - 1], ts[|ts| - 1];
    FeedPlan(last, b);
    if x in SettledBy(front, b) {
      k := SettledComesFrom(front, b, x);
    } else {
      k := |ts| - 1;
    }
  }

  lemma {:induction false} SettledSeparate(ts: seq<Trade>, b: Bar)
    requires AllSound(ts) && Separate(ts)
    ensures Separate(SettledBy(ts, b))
  {
    hide Feed, Settles;
    if ts != [] {
      var front, last := ts[..|ts| - 1], ts[|ts| - 1];
      SettledSeparate(front, b);
      FeedPlan(last, b);
      var gone := SettledBy(front, b);
      forall k | 0 <= k < |gone|
        ensures gone[k].plan.alertId != last.plan.alertId && gone[k].plan.key != last.plan.key
      {
        var j := SettledComesFrom(front, b, gone[k]);
      }
    }
  }
}
