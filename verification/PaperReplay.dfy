/** Replaying bars over a trade restored from the ledger gives the state of the uninterrupted run. */
module PaperReplay {
  import opened Market
  import opened PaperTrades

  /** The bars that can move a plan: its symbol, strictly after its creation. */
  function Relevant(bars: seq<Bar>, p: Plan): seq<Bar> {
    if bars == [] then []
    else (if bars[0].symbol == p.key.symbol && bars[0].ts > p.key.createdAt then [bars[0]] else [])
         + Relevant(bars[1..], p)
  }

  /** An open trade was filled after its plan was made. */
  predicate Clocked(t: Trade) {
    t.outcome.Open? ==> t.filledAt.Some? && t.filledAt.value > t.plan.key.createdAt
  }

  /** What the ledger holds for a plan: its first row, or its final state once it settled. */
  function LedgerRow(t: Trade): Trade {
    if Active(t) then NewTrade(t.plan) else t
  }

  /** Settled beats open beats pending. */
  function Rank(t: Trade): nat {
    if !Active(t) then 3 else if t.outcome.Open? then 2 else 1
  }

  /** Where a plan's row stands in a deduplicated list, or its length. */
  function IndexOf(rows: seq<Trade>, key: PlanKey): (n: nat)
    ensures n <= |rows|
    ensures n < |rows| ==> rows[n].plan.key == key
    ensures forall k :: 0 <= k < n ==> rows[k].plan.key != key
  {
    if rows == [] then 0 else if rows[0].plan.key == key then 0 else 1 + IndexOf(rows[1..], key)
  }

  function Merge(kept: seq<Trade>, row: Trade): seq<Trade> {
    var n := IndexOf(kept, row.plan.key);
    if n == |kept| then kept + [row]
    else if Rank(row) >= Rank(kept[n]) then kept[n := row]
    else kept
  }

  /** One row per plan, the latest of the most advanced ones, in order of first appearance. */
  function Dedupe(rows: seq<Trade>): seq<Trade> {
    if rows == [] then [] else Merge(Dedupe(rows[..|rows| - 1]), rows[|rows| - 1])
  }

  /** Whether a list keeps, for a row's plan, a row at least as advanced. */
  ghost predicate Covers(kept: seq<Trade>, row: Trade) {
    exists k :: 0 <= k < |kept| && kept[k].plan.key == row.plan.key && Rank(kept[k]) >= Rank(row)
  }

  /** Deduplication keeps one of the rows of each plan and never goes back on a plan's progress. */
  lemma {:induction false} DedupeNeverRegresses(rows: seq<Trade>)
    ensures forall r :: r in rows ==> Covers(Dedupe(rows), r)
    ensures forall t :: t in Dedupe(rows) ==> t in rows
    ensures forall j, k :: 0 <= j < k < |Dedupe(rows)| ==> Dedupe(rows)[j].plan.key != Dedupe(rows)[k].plan.key
  {
    hide Rank;
    if rows != [] {
      var front, last := rows[..|rows| - 1], rows[|rows| - 1];
      DedupeNeverRegresses(front);
      var before, after := Dedupe(front), Dedupe(rows);
      var n := IndexOf(before, last.plan.key);
      assert after[n].plan.key == last.plan.key && Rank(after[n]) >= Rank(last);
      forall r | r in front ensures Covers(after, r) {
        var k :| 0 <= k < |before| && before[k].plan.key == r.plan.key && Rank(before[k]) >= Rank(r);
        assert after[k].plan.key == r.plan.key && Rank(after[k]) >= Rank(r);
      }
    }
  }

  /** Settled is further along than open or pending, and open than pending. */
  predicate Further(t: Trade, than: Trade) {
    || (t.outcome !in {Pending, Open} && than.outcome in {Pending, Open})
    || (t.outcome == Open && than.outcome == Pending)
  }

  /** No row of the same plan is further along, and every later one is less far. */
  ghost predicate Survives(rows: seq<Trade>, k: int)
    requires 0 <= k < |rows|
  {
    && (forall j :: 0 <= j < |rows| && rows[j].plan.key == rows[k].plan.key ==> !Further(rows[j], rows[k]))
    && forall j :: k < j < |rows| && rows[j].plan.key == rows[k].plan.key ==> Further(rows[k], rows[j])
  }

  lemma FurtherIsRank(t: Trade, u: Trade)
    ensures Further(t, u) <==> Rank(t) > Rank(u)
  {
  }

  lemma SurvivesMore(front: seq<Trade>, last: Trade, k: int)
    requires 0 <= k < |front|
    ensures Survives(front + [last], k)
      <==> Survives(front, k) && (front[k].plan.key == last.plan.key ==> Further(front[k], last))
  {
    hide Further;
    var rows := front + [last];
    FurtherIsRank(front[k], last);
    FurtherIsRank(last, front[k]);
    assert rows[|front|] == last;
    assert forall j :: 0 <= j < |front| ==> rows[j] == front[j];
  }

  lemma KeptIsFurthest(front: seq<Trade>, kept: Trade, r: Trade)
    requires kept in Dedupe(front) && r in front && r.plan.key == kept.plan.key
    ensures Rank(r) <= Rank(kept)
  {
    hide Rank, Dedupe;
    DedupeNeverRegresses(front);
    assert Covers(Dedupe(front), r);
  }

  /** The last row of a plan survives if the one kept before it is not further along. */
  lemma LastSurvives(front: seq<Trade>, last: Trade, kept: Trade)
    requires kept in Dedupe(front) && kept in front && kept.plan.key == last.plan.key
    ensures Survives(front + [last], |front|) <==> !Further(kept, last)
  {
    hide Rank, Further, Dedupe;
    var rows, m := front + [last], |front|;
    assert rows[m] == last;
    var i :| 0 <= i < m && front[i] == kept;
    assert rows[i] == kept;
    FurtherIsRank(kept, last);
    FurtherIsRank(last, last);
    if !Further(kept, last) {
      forall j | 0 <= j < |rows| && rows[j].plan.key == last.plan.key ensures !Further(rows[j], last) {
        FurtherIsRank(rows[j], last);
        if j < m {
          KeptIsFurthest(front, kept, front[j]);
        }
      }
    }
  }

  lemma FirstOfPlan(front: seq<Trade>, last: Trade)
    requires forall t :: t in Dedupe(front) ==> t.plan.key != last.plan.key
    ensures Survives(front + [last], |front|)
  {
    hide Rank, Further, Dedupe;
    DedupeNeverRegresses(front);
    var rows := front + [last];
    FurtherIsRank(last, last);
    forall j | 0 <= j < |front| ensures rows[j].plan.key != last.plan.key {
      assert rows[j] in front && Covers(Dedupe(front), rows[j]);
    }
  }

  ghost predicate SurvivesAs(rows: seq<Trade>, t: Trade) {
    exists k :: 0 <= k < |rows| && Survives(rows, k) && rows[k] == t
  }

  /** One row more: it survives unless its plan's row so far is further along, and then replaces that one. */
  lemma SurvivorsMore(front: seq<Trade>, last: Trade, t: Trade)
    ensures SurvivesAs(front + [last], t)
      <==> (t == last && Survives(front + [last], |front|))
           || (SurvivesAs(front, t) && (t.plan.key == last.plan.key ==> Further(t, last)))
  {
    hide Survives, Further;
    var rows, m := front + [last], |front|;
    assert rows[m] == last;
    forall k | 0 <= k < m ensures rows[k] == front[k]
      && (Survives(rows, k) <==> Survives(front, k) && (front[k].plan.key == last.plan.key ==> Further(front[k], last)))
    {
      SurvivesMore(front, last, k);
    }
    if k :| 0 <= k < |rows| && Survives(rows, k) && rows[k] == t {
      assert k == m || Survives(front, k);
    }
    if k :| 0 <= k < m && Survives(front, k) && front[k] == t {
      assert rows[k] == t;
    }
  }

  /** What deduplication keeps are exactly the surviving rows: the last one of the furthest of each plan. */
  lemma {:induction false} DedupeExactly(rows: seq<Trade>)
    ensures forall t :: t in Dedupe(rows) <==> SurvivesAs(rows, t)
  {
    if rows == [] {
      assert forall t :: !SurvivesAs([], t);
    } else {
      var front, last := rows[..|rows| - 1], rows[|rows| - 1];
      assert rows == front + [last];
      DedupeExactly(front);
      DedupeNeverRegresses(front);
      hide Rank, Further, Survives, SurvivesAs, Dedupe, Covers;
      forall t ensures t in Merge(Dedupe(front), last) <==> SurvivesAs(rows, t) {
        SurvivorsMore(front, last, t);
        Merges(Dedupe(front), last, t);
        MergeOfLast(front, last, t);
      }
      DedupeStep(rows);
    }
  }

  lemma DedupeStep(rows: seq<Trade>)
    requires rows != []
    ensures Dedupe(rows) == Merge(Dedupe(rows[..|rows| - 1]), rows[|rows| - 1])
  {
  }

  /** Merging a row in, one row per plan: it goes in unless its plan's row is further along. */
  lemma Merges(kept: seq<Trade>, last: Trade, t: Trade)
    requires forall j, k :: 0 <= j < k < |kept| ==> kept[j].plan.key != kept[k].plan.key
    ensures t in Merge(kept, last) <==>
      || (t == last && !exists u :: u in kept && u.plan.key == last.plan.key && Further(u, last))
      || (t in kept && (t.plan.key == last.plan.key ==> Further(t, last)))
  {
    hide Rank, Further;
    var n := IndexOf(kept, last.plan.key);
    if n < |kept| {
      FurtherIsRank(kept[n], last);
      assert kept[n] in kept;
      if Rank(last) >= Rank(kept[n]) {
        var after := kept[n := last];
        assert after[n] == last;
        if t in kept && t.plan.key != last.plan.key {
          var k :| 0 <= k < |kept| && kept[k] == t;
          assert after[k] == t;
        }
      }
    }
  }

  lemma MergeOfLast(front: seq<Trade>, last: Trade, t: Trade)
    ensures Survives(front + [last], |front|)
      <==> !exists u :: u in Dedupe(front) && u.plan.key == last.plan.key && Further(u, last)
  {
    hide Further, Survives, Rank, Dedupe;
    DedupeNeverRegresses(front);
    if kept :| kept in Dedupe(front) && kept.plan.key == last.plan.key {
      LastSurvives(front, last, kept);
      forall u | u in Dedupe(front) && u.plan.key == last.plan.key ensures u == kept {
        assert exists j :: 0 <= j < |Dedupe(front)| && Dedupe(front)[j] == u;
      }
    } else {
      FirstOfPlan(front, last);
    }
  }

  lemma FeedClocked(t: Trade, b: Bar)
    requires Playable(t.plan) && t.tranches <= |t.plan.targets| && Clocked(t)
    ensures Clocked(Feed(t, b))
    ensures b.symbol != t.plan.key.symbol || b.ts <= t.plan.key.createdAt ==> Feed(t, b) == t
  {
  }

  lemma {:induction false} FeedSettled(t: Trade, bars: seq<Bar>)
    requires Playable(t.plan) && t.tranches <= |t.plan.targets| && !Active(t)
    ensures FeedAll(t, bars) == t
    decreases |bars|
  {
    if bars != [] {
      FeedSettled(t, bars[1..]);
    }
  }

  lemma {:induction false} FeedSplit(t: Trade, before: seq<Bar>, after: seq<Bar>)
    requires Playable(t.plan) && t.tranches <= |t.plan.targets|
    ensures FeedAll(t, before + after) == FeedAll(FeedAll(t, before), after)
    decreases |before|
  {
    hide Feed;
    if before == [] {
      assert [] + after == after;
    } else {
      assert (before + after)[1..] == before[1..] + after;
      FeedSplit(Feed(t, before[0]), before[1..], after);
    }
  }

  /** Bars from before the plan existed, or of other symbols, change nothing. */
  lemma {:induction false} FeedRelevant(t: Trade, bars: seq<Bar>)
    requires Playable(t.plan) && t.tranches <= |t.plan.targets| && Clocked(t)
    ensures FeedAll(t, bars) == FeedAll(t, Relevant(bars, t.plan))
    ensures Clocked(FeedAll(t, bars))
    decreases |bars|
  {
    if bars != [] {
      var b := bars[0];
      FeedClocked(t, b);
      FeedRelevant(Feed(t, b), bars[1..]);
      var rest := Relevant(bars[1..], t.plan);
      if b.symbol == t.plan.key.symbol && b.ts > t.plan.key.createdAt {
        assert Relevant(bars, t.plan) == [b] + rest;
        assert ([b] + rest)[1..] == rest;
      } else {
        assert Relevant(bars, t.plan) == rest;
      }
    }
  }

  /**
   * Crash and replay: the trade as the ledger remembers it after `seen`, replayed over a window that
   * holds the same relevant bars as the whole history, ends as if nothing had happened; one that
   * was settled by then does so over any window.
   */
  lemma ReplayIsUninterruptedRun(p: Plan, seen: seq<Bar>, later: seq<Bar>, window: seq<Bar>)
    requires Playable(p)
    requires Active(FeedAll(NewTrade(p), seen)) ==> Relevant(window, p) == Relevant(seen + later, p)
    ensures var row := LedgerRow(FeedAll(NewTrade(p), seen));
      FeedAll(row, window) == FeedAll(NewTrade(p), seen + later)
  {
    var atCrash := FeedAll(NewTrade(p), seen);
    FeedSplit(NewTrade(p), seen, later);
    if Active(atCrash) {
      FeedRelevant(NewTrade(p), window);
      FeedRelevant(NewTrade(p), seen + later);
    } else {
      FeedSettled(atCrash, window);
      FeedSettled(atCrash, later);
    }
  }

  ghost predicate Increasing(bars: seq<Bar>) {
    forall j, k :: 0 <= j < k < |bars| ==> bars[j].ts < bars[k].ts
  }

  /** In time order, a window is determined by which bars it contains. */
  lemma {:induction false} SameBarsSameOrder(xs: seq<Bar>, ys: seq<Bar>)
    requires Increasing(xs) && Increasing(ys)
    requires forall b :: b in xs <==> b in ys
    ensures xs == ys
    decreases |xs|
  {
    assert ys != [] ==> ys[0] in ys;
    if xs != [] {
      assert xs[0] in xs && xs[0] in ys;
      assert ys[0] in ys && ys[0] in xs;
      assert xs[0] == ys[0];
      forall b ensures b in xs[1..] <==> b in ys[1..] {
        if b in xs[1..] {
          assert b in xs && b != xs[0];
        }
        if b in ys[1..] {
          assert b in ys && b != ys[0];
        }
      }
      SameBarsSameOrder(xs[1..], ys[1..]);
    }
  }

  /** The same for any ordered window that contains every later bar of the plan's symbol. */
  lemma OrderedWindowReplays(p: Plan, seen: seq<Bar>, later: seq<Bar>, window: seq<Bar>)
    requires Playable(p)
    requires Increasing(Relevant(window, p)) && Increasing(Relevant(seen + later, p))
    requires forall b :: b in Relevant(window, p) <==> b in Relevant(seen + later, p)
    ensures var row := LedgerRow(FeedAll(NewTrade(p), seen));
      FeedAll(row, window) == FeedAll(NewTrade(p), seen + later)
  {
    SameBarsSameOrder(Relevant(window, p), Relevant(seen + later, p));
    ReplayIsUninterruptedRun(p, seen, later, window);
  }
}
