/** The roller objects: five-minute bars, symbol by symbol, rolled into all derived timeframes at once. */
module Roller {
  import opened Prelude
  import opened Market
  import opened Rollup
  import opened RollupWindows

  datatype Accumulator = Accumulator(key: Bucket, bar: Bar)

  datatype RollerError = WrongStream

  type Emitted = seq<(Timeframe, Bar)>

  /** The bars of one timeframe among those emitted. */
  function Of(tf: Timeframe, out: Emitted): seq<Bar> {
    if out == [] then []
    else Of(tf, out[..|out| - 1]) + (if out[|out| - 1].0 == tf then [out[|out| - 1].1] else [])
  }

  /** Each timeframe at most once, finer before coarser, and all bars of one symbol. */
  predicate Listed(out: Emitted, symbol: string) {
    && (forall n :: 0 <= n < |out| ==> out[n].0 in DERIVED && out[n].1.symbol == symbol)
    && (forall m, n :: 0 <= m < n < |out| ==> Seconds(out[m].0) < Seconds(out[n].0))
  }

  predicate AllOf(symbol: string, bars: seq<Bar>) {
    forall k :: 0 <= k < |bars| ==> bars[k].symbol == symbol
  }

  /** Derived bars are of the symbol they are rolled from. */
  lemma {:induction false} FoldSymbol(tf: Timeframe, bars: seq<Bar>, symbol: string)
    requires AllOf(symbol, bars)
    ensures AllOf(symbol, Fold(tf, bars).emitted)
    ensures Fold(tf, bars).acc.Some? ==> Fold(tf, bars).acc.value.symbol == symbol
  {
    hide BucketKey;
    if bars != [] {
      FoldSymbol(tf, bars[..|bars| - 1], symbol);
    }
  }

  lemma OfAppend(tf: Timeframe, out: Emitted, coarse: Timeframe, b: Bar)
    ensures Of(tf, out + [(coarse, b)]) == Of(tf, out) + (if coarse == tf then [b] else [])
  {
    assert (out + [(coarse, b)])[..|out|] == out;
  }

  /** The accumulator of one timeframe is the bucket in progress after some bars. */
  predicate Synced(acc: map<Timeframe, Accumulator>, tf: Timeframe, bars: seq<Bar>) {
    var progress := Fold(tf, bars).acc;
    if tf in acc then progress == Some(acc[tf].bar) && acc[tf].key == BucketKey(acc[tf].bar, tf) else progress.None?
  }

  class TimeframeRoller {
    const symbol: string
    var acc: map<Timeframe, Accumulator>
    /** The bars since the last flush. */
    ghost var fed: seq<Bar>

    ghost predicate Valid()
      reads this
    {
      && (forall tf :: tf in acc ==> tf in DERIVED)
      && (forall tf :: tf in DERIVED ==> Synced(acc, tf, fed))
      && AllOf(symbol, fed)
    }

    constructor (symbol: string)
      ensures Valid() && fed == [] && this.symbol == symbol
    {
      this.symbol := symbol;
      acc, fed := map[], [];
    }

    /** Feeds one timeframe, emitting the bucket that the bar completes. */
    method UpdateOne(k: nat, b: Bar, out: Emitted, ghost before: seq<Bar>) returns (more: Emitted)
      requires k < |DERIVED| && Reached(acc, before, b, out, k)
      requires AllOf(symbol, before) && Listed(out, symbol) && UpTo(out, k)
      modifies this`acc
      ensures acc.Keys == old(acc).Keys + {DERIVED[k]}
      ensures Reached(acc, before, b, more, k + 1)
      ensures Listed(more, symbol) && UpTo(more, k + 1)
    {
      ghost var was := acc;
      var tf := DERIVED[k];
      FoldSymbol(tf, before, symbol);
      assert tf in acc ==> acc[tf].bar.symbol == symbol;
      var done := Advance(tf, b, before);
      more := if done.Some? then out + [(tf, done.value)] else out;
      hide *;
      ListedMore(out, more, symbol, k);
      ReachedNext(was, acc, before, b, out, k, done);
    }

    /** The bucket that the bar completes, if any; the bar joins or starts a bucket. */
    method Advance(tf: Timeframe, b: Bar, ghost before: seq<Bar>) returns (done: Option<Bar>)
      requires Synced(acc, tf, before)
      modifies this`acc
      ensures Synced(acc, tf, before + [b])
      ensures acc.Keys == old(acc).Keys + {tf}
      ensures forall other :: other in old(acc) && other != tf ==> acc[other] == old(acc)[other]
      ensures Fold(tf, before + [b]).emitted == Fold(tf, before).emitted + (if done.Some? then [done.value] else [])
      ensures done.Some? ==> tf in old(acc) && done.value == old(acc)[tf].bar
    {
      hide BucketKey, Fold;
      FoldAppend(tf, before, b);
      var key := BucketKey(b, tf);
      done := None;
      if tf in acc && acc[tf].key != key {
        done := Some(acc[tf].bar);
        acc := acc - {tf};
      }
      if tf !in acc {
        acc := acc[tf := Accumulator(key, b)];
      } else {
        MergeKey(tf, acc[tf].bar, b);
        acc := acc[tf := Accumulator(key, Merge(acc[tf].bar, b))];
      }
    }

    method Update(timeframe: Timeframe, b: Bar) returns (r: Result<Emitted, RollerError>)
      requires Valid()
      modifies this
      ensures Valid()
      ensures r.Err? <==> !timeframe.M5? || b.symbol != symbol
      ensures r.Err? ==> fed == old(fed) && acc == old(acc)
      ensures r.Ok? ==> fed == old(fed) + [b] && Listed(r.value, symbol)
      ensures r.Ok? ==> forall tf :: tf in DERIVED ==>
        && Fold(tf, fed).emitted == Fold(tf, old(fed)).emitted + Of(tf, r.value)
        && Completes(tf, old(fed), b, Of(tf, r.value))
    {
      if !timeframe.M5? || b.symbol != symbol {
        return Err(WrongStream);
      }
      var out: Emitted := [];
      assert Listed(out, symbol) && UpTo(out, 0);
      hide Synced, Fold, Of, Reached, Listed, UpTo, AllOf;
      AllWaiting(acc, fed, b);
      for k := 0 to |DERIVED|
        invariant forall tf :: tf in acc ==> tf in DERIVED
        invariant fed == old(fed) && AllOf(symbol, fed)
        invariant Listed(out, symbol) && UpTo(out, k)
        invariant Reached(acc, fed, b, out, k)
      {
        out := UpdateOne(k, b, out, fed);
      }
      AllAdvanced(acc, fed, b, out);
      hide Completes;
      forall tf | tf in DERIVED ensures Completes(tf, fed, b, Of(tf, out)) {
        FoldCompletes(tf, fed, b, Of(tf, out));
      }
      fed := fed + [b];
      return Ok(out);
    }

    /** Emits every bucket in progress, in the dictionary's order. */
    method Flush() returns (out: Emitted)
      requires Valid()
      modifies this
      ensures Valid() && fed == [] && acc == map[]
      ensures forall n :: 0 <= n < |out| ==> out[n].0 in DERIVED && out[n].1.symbol == symbol
      ensures forall tf :: tf in DERIVED ==>
        Fold(tf, old(fed)).emitted + Of(tf, out) == Roll(tf, old(fed))
    {
      hide Synced, Fold, Of, Drained;
      ghost var was := acc;
      out := [];
      NothingDrained(was);
      while acc.Keys != {}
        invariant fed == old(fed)
        invariant forall tf :: tf in acc ==> tf in was && acc[tf] == was[tf]
        invariant forall n :: 0 <= n < |out| ==> out[n].0 in was && out[n].1 == was[out[n].0].bar
        invariant forall tf :: Drained(was, acc, tf, out)
        decreases |acc.Keys|
      {
        var tf :| tf in acc.Keys;
        DrainOne(was, acc, tf, out);
        out := out + [(tf, acc[tf].bar)];
        ghost var keys := acc.Keys;
        acc := acc - {tf};
        assert acc.Keys == keys - {tf};
      }
      assert acc == map[];
      AllDrained(was, fed, out);
      AccSymbol(was, fed, symbol);
      fed := [];
      NothingFed();
    }
  }

  /** Not fed the bar yet, nothing emitted. */
  predicate Waiting(acc: map<Timeframe, Accumulator>, tf: Timeframe, before: seq<Bar>, out: Emitted) {
    Synced(acc, tf, before) && Of(tf, out) == []
  }

  /** Fed the bar; what it completed is among the emitted. */
  predicate Advanced(acc: map<Timeframe, Accumulator>, tf: Timeframe, before: seq<Bar>, b: Bar, out: Emitted) {
    Synced(acc, tf, before + [b]) && Fold(tf, before + [b]).emitted == Fold(tf, before).emitted + Of(tf, out)
  }

  lemma AdvancedOne(acc: map<Timeframe, Accumulator>, tf: Timeframe, before: seq<Bar>, b: Bar, out: Emitted,
                    done: Option<Bar>)
    requires Synced(acc, tf, before + [b]) && Of(tf, out) == []
    requires Fold(tf, before + [b]).emitted == Fold(tf, before).emitted + (if done.Some? then [done.value] else [])
    ensures Advanced(acc, tf, before, b, if done.Some? then out + [(tf, done.value)] else out)
  {
    hide Synced, Fold, Of;
    if done.Some? {
      OfAppend(tf, out, tf, done.value);
    }
  }

  lemma OthersKeep(was: map<Timeframe, Accumulator>, acc: map<Timeframe, Accumulator>, tf: Timeframe,
                   before: seq<Bar>, b: Bar, out: Emitted, done: Option<Bar>)
    requires acc.Keys == was.Keys + {tf} && forall other :: other in was && other != tf ==> acc[other] == was[other]
    ensures var more := if done.Some? then out + [(tf, done.value)] else out;
      && (forall other :: other != tf && Waiting(was, other, before, out) ==> Waiting(acc, other, before, more))
      && (forall other :: other != tf && Advanced(was, other, before, b, out) ==> Advanced(acc, other, before, b, more))
  {
    hide Fold, Of, BucketKey;
    var more := if done.Some? then out + [(tf, done.value)] else out;
    forall other | other != tf
      ensures Of(other, more) == Of(other, out)
      ensures Synced(was, other, before) == Synced(acc, other, before)
      ensures Synced(was, other, before + [b]) == Synced(acc, other, before + [b])
    {
      assert other in acc <==> other in was;
      if done.Some? {
        OfAppend(other, out, tf, done.value);
      }
    }
  }

  /** The first `k` timeframes have been fed the bar, and the others wait for it. */
  ghost predicate Reached(acc: map<Timeframe, Accumulator>, before: seq<Bar>, b: Bar, out: Emitted, k: nat) {
    && (forall n :: 0 <= n < k && n < |DERIVED| ==> Advanced(acc, DERIVED[n], before, b, out))
    && (forall n :: k <= n < |DERIVED| ==> Waiting(acc, DERIVED[n], before, out))
  }

  lemma ReachedNext(was: map<Timeframe, Accumulator>, acc: map<Timeframe, Accumulator>, before: seq<Bar>, b: Bar,
                    out: Emitted, k: nat, done: Option<Bar>)
    requires k < |DERIVED| && Reached(was, before, b, out, k)
    requires acc.Keys == was.Keys + {DERIVED[k]}
    requires forall other :: other in was && other != DERIVED[k] ==> acc[other] == was[other]
    requires Synced(acc, DERIVED[k], before + [b])
    requires Fold(DERIVED[k], before + [b]).emitted
      == Fold(DERIVED[k], before).emitted + (if done.Some? then [done.value] else [])
    ensures Reached(acc, before, b, if done.Some? then out + [(DERIVED[k], done.value)] else out, k + 1)
  {
    hide Synced, Fold, Of, Advanced;
    DerivedDiffer();
    AdvancedOne(acc, DERIVED[k], before, b, out, done);
    hide Waiting;
    OthersKeep(was, acc, DERIVED[k], before, b, out, done);
  }

  lemma AllWaiting(acc: map<Timeframe, Accumulator>, before: seq<Bar>, b: Bar)
    requires forall tf :: tf in DERIVED ==> Synced(acc, tf, before)
    ensures Reached(acc, before, b, [], 0)
  {
    hide Synced, Fold;
  }

  lemma NothingDrained(was: map<Timeframe, Accumulator>)
    ensures forall tf :: Drained(was, was, tf, [])
  {
  }

  lemma AllAdvanced(acc: map<Timeframe, Accumulator>, before: seq<Bar>, b: Bar, out: Emitted)
    requires Reached(acc, before, b, out, |DERIVED|)
    ensures forall tf :: tf in DERIVED ==> Synced(acc, tf, before + [b])
    ensures forall tf :: tf in DERIVED ==> Fold(tf, before + [b]).emitted == Fold(tf, before).emitted + Of(tf, out)
  {
    hide Synced, Fold, Of;
    forall tf | tf in DERIVED ensures Advanced(acc, tf, before, b, out) {
      var n :| 0 <= n < |DERIVED| && DERIVED[n] == tf;
    }
  }

  /** What has left the dictionary has been emitted. */
  predicate Drained(was: map<Timeframe, Accumulator>, acc: map<Timeframe, Accumulator>, tf: Timeframe, out: Emitted) {
    Of(tf, out) == if tf in was && tf !in acc then [was[tf].bar] else []
  }

  lemma DrainOne(was: map<Timeframe, Accumulator>, acc: map<Timeframe, Accumulator>, tf: Timeframe, out: Emitted)
    requires tf in acc && tf in was && acc[tf] == was[tf]
    requires forall other :: Drained(was, acc, other, out)
    ensures forall other :: Drained(was, acc - {tf}, other, out + [(tf, acc[tf].bar)])
  {
    hide Of;
    forall other ensures Drained(was, acc - {tf}, other, out + [(tf, acc[tf].bar)]) {
      assert Drained(was, acc, other, out);
      OfAppend(other, out, tf, acc[tf].bar);
    }
  }

  lemma AllDrained(was: map<Timeframe, Accumulator>, fed: seq<Bar>, out: Emitted)
    requires forall tf :: tf in DERIVED ==> Synced(was, tf, fed)
    requires forall tf :: Drained(was, map[], tf, out)
    ensures forall tf :: tf in DERIVED ==> Fold(tf, fed).emitted + Of(tf, out) == Roll(tf, fed)
  {
    hide Of, Fold, BucketKey;
    forall tf | tf in DERIVED ensures Fold(tf, fed).emitted + Of(tf, out) == Roll(tf, fed) {
      assert Drained(was, map[], tf, out);
    }
  }

  lemma NothingFed()
    ensures forall tf :: tf in DERIVED ==> Synced(map[], tf, [])
  {
  }

  lemma AccSymbol(acc: map<Timeframe, Accumulator>, fed: seq<Bar>, symbol: string)
    requires AllOf(symbol, fed) && forall tf :: tf in DERIVED ==> Synced(acc, tf, fed)
    ensures forall tf :: tf in DERIVED && tf in acc ==> acc[tf].bar.symbol == symbol
  {
    hide Fold, BucketKey;
    forall tf | tf in DERIVED && tf in acc ensures acc[tf].bar.symbol == symbol {
      FoldSymbol(tf, fed, symbol);
    }
  }

  /** Only the first `k` timeframes have been emitted. */
  ghost predicate UpTo(out: Emitted, k: int) {
    forall n :: 0 <= n < |out| ==> exists m :: 0 <= m < k && m < |DERIVED| && DERIVED[m] == out[n].0
  }

  /** What is emitted next is of a coarser timeframe. */
  lemma ListedMore(out: Emitted, more: Emitted, symbol: string, k: nat)
    requires k < |DERIVED| && Listed(out, symbol) && UpTo(out, k)
    requires more == out || (|more| == |out| + 1 && more[..|out|] == out && more[|out|].0 == DERIVED[k]
                             && more[|out|].1.symbol == symbol)
    ensures Listed(more, symbol) && UpTo(more, k + 1)
  {
    forall n | 0 <= n < |more| ensures more[n] == if n < |out| then out[n] else more[|out|] {
      assert n < |out| ==> more[..|out|][n] == out[n];
    }
    assert DERIVED[k] in DERIVED;
  }

  lemma DerivedDiffer()
    ensures forall j, k :: 0 <= j < k < |DERIVED| ==> DERIVED[j] != DERIVED[k]
    ensures forall tf :: tf in DERIVED ==> exists k :: 0 <= k < |DERIVED| && DERIVED[k] == tf
  {
  }

  // ----- a whole series -----

  /** One symbol's bars among a series. */
  function BarsOf(series: seq<(Timeframe, Bar)>, symbol: string): seq<Bar> {
    if series == [] then []
    else
      var last := series[|series| - 1].1;
      BarsOf(series[..|series| - 1], symbol) + (if last.symbol == symbol then [last] else [])
  }

  /** One symbol's bars of one timeframe among those emitted. */
  function OfSymbol(tf: Timeframe, symbol: string, out: Emitted): seq<Bar> {
    if out == [] then []
    else
      var last := out[|out| - 1];
      OfSymbol(tf, symbol, out[..|out| - 1]) + (if last.0 == tf && last.1.symbol == symbol then [last.1] else [])
  }

  lemma {:induction false} OfSymbolConcat(tf: Timeframe, symbol: string, xs: Emitted, ys: Emitted)
    ensures OfSymbol(tf, symbol, xs + ys) == OfSymbol(tf, symbol, xs) + OfSymbol(tf, symbol, ys)
  {
    if ys == [] {
      assert xs + ys == xs;
    } else {
      OfSymbolConcat(tf, symbol, xs, ys[..|ys| - 1]);
      assert (xs + ys)[..|xs + ys| - 1] == xs + ys[..|ys| - 1];
    }
  }

  /** All of one symbol: that symbol gets them all, and the others nothing. */
  lemma {:induction false} OfOneSymbol(tf: Timeframe, symbol: string, out: Emitted, other: string)
    requires forall n :: 0 <= n < |out| ==> out[n].1.symbol == symbol
    ensures OfSymbol(tf, other, out) == if other == symbol then Of(tf, out) else []
  {
    if out != [] {
      OfOneSymbol(tf, symbol, out[..|out| - 1], other);
    }
  }

  /** Every symbol has what its bars completed. */
  ghost predicate Collected(series: seq<(Timeframe, Bar)>, out: Emitted) {
    forall tf, symbol :: tf in DERIVED ==> OfSymbol(tf, symbol, out) == Fold(tf, BarsOf(series, symbol)).emitted
  }

  /** The flushed symbols have their whole series. */
  ghost predicate Finished(series: seq<(Timeframe, Bar)>, todo: set<string>, out: Emitted) {
    forall tf, symbol :: tf in DERIVED ==>
      OfSymbol(tf, symbol, out)
      == if symbol in todo then Fold(tf, BarsOf(series, symbol)).emitted else Roll(tf, BarsOf(series, symbol))
  }

  lemma BarsOfMore(series: seq<(Timeframe, Bar)>, next: (Timeframe, Bar), symbol: string)
    ensures BarsOf(series + [next], symbol)
      == BarsOf(series, symbol) + (if next.1.symbol == symbol then [next.1] else [])
  {
    assert (series + [next])[..|series|] == series;
  }

  lemma CollectedMore(series: seq<(Timeframe, Bar)>, next: (Timeframe, Bar), out: Emitted, more: Emitted)
    requires Collected(series, out) && Listed(more, next.1.symbol)
    requires forall tf :: tf in DERIVED ==>
      var fed := BarsOf(series, next.1.symbol);
      Fold(tf, fed + [next.1]).emitted == Fold(tf, fed).emitted + Of(tf, more)
    ensures Collected(series + [next], out + more)
  {
    hide Fold, Of, OfSymbol, BarsOf;
    forall tf, symbol | tf in DERIVED
      ensures OfSymbol(tf, symbol, out + more) == Fold(tf, BarsOf(series + [next], symbol)).emitted
    {
      OfSymbolConcat(tf, symbol, out, more);
      OfOneSymbol(tf, next.1.symbol, more, symbol);
      BarsOfMore(series, next, symbol);
      if symbol != next.1.symbol {
        assert BarsOf(series, symbol) + [] == BarsOf(series, symbol);
        assert OfSymbol(tf, symbol, out) + [] == OfSymbol(tf, symbol, out);
      }
    }
  }

  lemma FinishedMore(series: seq<(Timeframe, Bar)>, todo: set<string>, symbol: string, out: Emitted, rest: Emitted)
    requires Finished(series, todo, out) && symbol in todo
    requires forall n :: 0 <= n < |rest| ==> rest[n].1.symbol == symbol
    requires forall tf :: tf in DERIVED ==>
      Fold(tf, BarsOf(series, symbol)).emitted + Of(tf, rest) == Roll(tf, BarsOf(series, symbol))
    ensures Finished(series, todo - {symbol}, out + rest)
  {
    hide Fold, Of, OfSymbol, BarsOf, Roll;
    forall tf, other | tf in DERIVED
      ensures OfSymbol(tf, other, out + rest)
        == if other in todo - {symbol} then Fold(tf, BarsOf(series, other)).emitted else Roll(tf, BarsOf(series, other))
    {
      OfSymbolConcat(tf, other, out, rest);
      OfOneSymbol(tf, symbol, rest, other);
      assert other != symbol ==> OfSymbol(tf, other, out) + [] == OfSymbol(tf, other, out);
    }
  }

  lemma NothingCollected()
    ensures Collected([], [])
    ensures forall symbol :: BarsOf([], symbol) == []
  {
  }

  lemma NothingFlushed(series: seq<(Timeframe, Bar)>, todo: set<string>, out: Emitted)
    requires Collected(series, out) && forall symbol :: symbol !in todo ==> BarsOf(series, symbol) == []
    ensures Finished(series, todo, out)
  {
    hide OfSymbol, BarsOf;
  }

  lemma AllFlushed(series: seq<(Timeframe, Bar)>, out: Emitted)
    requires Finished(series, {}, out)
    ensures forall tf, symbol :: tf in DERIVED ==> OfSymbol(tf, symbol, out) == Roll(tf, BarsOf(series, symbol))
  {
    hide OfSymbol, BarsOf, Roll;
  }

  /** One roller per symbol seen, each fed its own bars. */
  ghost predicate Rolling(rollers: map<string, TimeframeRoller>, series: seq<(Timeframe, Bar)>)
    reads rollers.Values
  {
    && (forall s :: s in rollers ==> RollsFor(rollers[s], s, series))
    && (forall s :: s !in rollers ==> BarsOf(series, s) == [])
  }

  ghost predicate RollsFor(roller: TimeframeRoller, symbol: string, series: seq<(Timeframe, Bar)>)
    reads roller
  {
    roller.symbol == symbol && roller.Valid() && roller.fed == BarsOf(series, symbol)
  }

  lemma AllByWindow(series: seq<(Timeframe, Bar)>)
    ensures forall tf, symbol :: tf in DERIVED && InClockOrder(BarsOf(series, symbol)) ==>
      forall d :: d in Roll(tf, BarsOf(series, symbol)) ==> IsWindow(tf, BarsOf(series, symbol), d)
  {
    hide *;
    forall tf, symbol | tf in DERIVED && InClockOrder(BarsOf(series, symbol))
      ensures forall d :: d in Roll(tf, BarsOf(series, symbol)) ==> IsWindow(tf, BarsOf(series, symbol), d)
    {
      RollIsByWindow(tf, BarsOf(series, symbol));
    }
  }

  /** Flushes every roller in turn. */
  method FlushAll(rollers: map<string, TimeframeRoller>, out: Emitted, ghost series: seq<(Timeframe, Bar)>)
    returns (all: Emitted)
    requires Finished(series, rollers.Keys, out)
    requires forall s :: s in rollers ==> RollsFor(rollers[s], s, series)
    modifies rollers.Values
    ensures forall tf, symbol :: tf in DERIVED ==> OfSymbol(tf, symbol, all) == Roll(tf, BarsOf(series, symbol))
  {
    hide Fold, Of, OfSymbol, BarsOf, Roll, Finished, TimeframeRoller.Valid;
    all := out;
    var todo := rollers.Keys;
    while todo != {}
      invariant todo <= rollers.Keys && Finished(series, todo, all)
      invariant forall s :: s in todo ==> RollsFor(rollers[s], s, series)
      decreases |todo|
    {
      var symbol :| symbol in todo;
      var rest := rollers[symbol].Flush();
      FinishedMore(series, todo, symbol, all, rest);
      all := all + rest;
      todo := todo - {symbol};
    }
    AllFlushed(series, all);
  }

  /** The whole derived series of every symbol: all bars fed in turn, then all rollers flushed. */
  method RollSeries(series: seq<(Timeframe, Bar)>) returns (r: Result<Emitted, RollerError>)
    ensures r.Err? <==> exists k :: 0 <= k < |series| && !series[k].0.M5?
    ensures r.Ok? ==> forall tf, symbol :: tf in DERIVED ==>
      && OfSymbol(tf, symbol, r.value) == Roll(tf, BarsOf(series, symbol))
      && (InClockOrder(BarsOf(series, symbol)) ==>
            forall d :: d in OfSymbol(tf, symbol, r.value) ==> IsWindow(tf, BarsOf(series, symbol), d))
  {
    var rollers: map<string, TimeframeRoller> := map[];
    var out: Emitted := [];
    NothingCollected();
    hide Fold, Of, OfSymbol, BarsOf, Roll, Collected, Finished, Listed, Completes, IsWindow, InClockOrder,
      TimeframeRoller.Valid;
    for k := 0 to |series|
      invariant forall s :: s in rollers ==> fresh(rollers[s])
      invariant Rolling(rollers, series[..k]) && Collected(series[..k], out)
      invariant forall j :: 0 <= j < k ==> series[j].0.M5?
    {
      var (timeframe, bar) := series[k];
      if bar.symbol !in rollers {
        var started := new TimeframeRoller(bar.symbol);
        rollers := rollers[bar.symbol := started];
      }
      var roller := rollers[bar.symbol];
      var emitted := roller.Update(timeframe, bar);
      if emitted.Err? {
        return Err(emitted.error);
      }
      assert series[..k + 1] == series[..k] + [series[k]];
      forall s ensures BarsOf(series[..k + 1], s) == BarsOf(series[..k], s) + (if bar.symbol == s then [bar] else []) {
        BarsOfMore(series[..k], series[k], s);
      }
      CollectedMore(series[..k], series[k], out, emitted.value);
      out := out + emitted.value;
    }
    assert series[..|series|] == series;
    NothingFlushed(series, rollers.Keys, out);
    out := FlushAll(rollers, out, series);
    AllByWindow(series);
    return Ok(out);
  }
}
