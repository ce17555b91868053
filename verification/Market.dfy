/** Closed price bars. */
module Market {

  /**
   * One bar of one symbol, keyed by its close. `ts` is the close instant in seconds; `day` and
   * `elapsed` are the same instant as an exchange-calendar day and seconds since 09:30 that day.
   */
  datatype Bar = Bar(
    symbol: string,
    ts: int,
    day: int,
    elapsed: int,
    open: real,
    high: real,
    low: real,
    close: real,
    volume: real)

  datatype Timeframe = M1 | M5 | M15 | M30 | H1 | H4 | D1 | W1 | MN1

  function Seconds(tf: Timeframe): (n: nat)
    ensures n > 0
  {
    match tf
    case M1 => 60
    case M5 => 300
    case M15 => 900
    case M30 => 1800
    case H1 => 3600
    case H4 => 14400
    case D1 => 86400
    case W1 => 604800
    case MN1 => 2592000
  }

  /** The check every bar passes when it is built. */
  predicate Sane(b: Bar) {
    && b.low <= b.open <= b.high
    && b.low <= b.close <= b.high
    && b.volume >= 0.0
  }

  ghost predicate AllSane(bars: seq<Bar>) {
    forall k :: 0 <= k < |bars| ==> Sane(bars[k])
  }

  /** All the volume of some bars. */
  function Volume(bars: seq<Bar>): real {
    if bars == [] then 0.0 else Volume(bars[..|bars| - 1]) + bars[|bars| - 1].volume
  }

  // ----- bars in order of their close -----

  ghost predicate InOrder(bars: seq<Bar>) {
    forall j, k :: 0 <= j < k < |bars| ==> bars[j].ts <= bars[k].ts
  }

  /** The bars of one instant, in the order in which they come. */
  function ClosedAt(bars: seq<Bar>, ts: int): seq<Bar> {
    if bars == [] then []
    else ClosedAt(bars[..|bars| - 1], ts) + (if bars[|bars| - 1].ts == ts then [bars[|bars| - 1]] else [])
  }

  /** Puts a bar behind all that close no later. */
  function Inserted(bars: seq<Bar>, b: Bar): seq<Bar> {
    if bars == [] || bars[|bars| - 1].ts <= b.ts then bars + [b]
    else Inserted(bars[..|bars| - 1], b) + [bars[|bars| - 1]]
  }

  /** A stable sort by closing time. */
  function ByTime(bars: seq<Bar>): seq<Bar> {
    if bars == [] then [] else Inserted(ByTime(bars[..|bars| - 1]), bars[|bars| - 1])
  }

  lemma {:induction false} InsertedPermutes(bars: seq<Bar>, b: Bar)
    ensures multiset(Inserted(bars, b)) == multiset(bars) + multiset{b}
  {
    if bars != [] && bars[|bars| - 1].ts > b.ts {
      InsertedPermutes(bars[..|bars| - 1], b);
      assert bars == bars[..|bars| - 1] + [bars[|bars| - 1]];
    }
  }

  /** Sorting neither loses nor adds a bar. */
  lemma {:induction false} ByTimePermutes(bars: seq<Bar>)
    ensures multiset(ByTime(bars)) == multiset(bars)
  {
    if bars != [] {
      var front, last := bars[..|bars| - 1], bars[|bars| - 1];
      ByTimePermutes(front);
      InsertedPermutes(ByTime(front), last);
      assert bars == front + [last];
    }
  }

  lemma {:induction false} InsertedInOrder(bars: seq<Bar>, b: Bar)
    requires InOrder(bars)
    ensures InOrder(Inserted(bars, b))
    ensures forall x :: x in Inserted(bars, b) ==> x == b || x in bars
  {
    if bars != [] && bars[|bars| - 1].ts > b.ts {
      InsertedInOrder(bars[..|bars| - 1], b);
      var front := Inserted(bars[..|bars| - 1], b);
      forall k | 0 <= k < |front| ensures front[k].ts <= bars[|bars| - 1].ts {
        assert front[k] in front;
      }
    }
  }

  lemma ClosedAtAppend(bars: seq<Bar>, b: Bar, ts: int)
    ensures ClosedAt(bars + [b], ts) == ClosedAt(bars, ts) + (if b.ts == ts then [b] else [])
  {
    assert (bars + [b])[..|bars|] == bars;
  }

  lemma {:induction false} InsertedClosedAt(bars: seq<Bar>, b: Bar, ts: int)
    ensures ClosedAt(Inserted(bars, b), ts) == ClosedAt(bars, ts) + (if b.ts == ts then [b] else [])
  {
    if bars == [] || bars[|bars| - 1].ts <= b.ts {
      ClosedAtAppend(bars, b, ts);
    } else {
      var front, last := bars[..|bars| - 1], bars[|bars| - 1];
      assert front + [last] == bars;
      assert Inserted(bars, b) == Inserted(front, b) + [last];
      hide Inserted, ClosedAt;
      InsertedClosedAt(front, b, ts);
      ClosedAtAppend(front, last, ts);
      ClosedAtAppend(Inserted(front, b), last, ts);
    }
  }

  /** Sorting puts the bars in order and leaves those of one instant in theirs. */
  lemma {:induction false} ByTimeSorts(bars: seq<Bar>)
    ensures InOrder(ByTime(bars)) && multiset(ByTime(bars)) == multiset(bars)
    ensures forall ts :: ClosedAt(ByTime(bars), ts) == ClosedAt(bars, ts)
  {
    if bars != [] {
      var front, last := bars[..|bars| - 1], bars[|bars| - 1];
      ByTimeSorts(front);
      ByTimePermutes(bars);
      InsertedInOrder(ByTime(front), last);
      forall ts ensures ClosedAt(ByTime(bars), ts) == ClosedAt(bars, ts) {
        InsertedClosedAt(ByTime(front), last, ts);
      }
    }
  }

  lemma InsertedLast(bars: seq<Bar>, b: Bar)
    requires bars != [] ==> bars[|bars| - 1].ts <= b.ts
    ensures Inserted(bars, b) == bars + [b]
  {
  }

  lemma ByTimeAppend(bars: seq<Bar>, b: Bar)
    ensures ByTime(bars + [b]) == Inserted(ByTime(bars), b)
  {
    hide Inserted;
    assert (bars + [b])[..|bars|] == bars;
  }

  lemma FrontInOrder(bars: seq<Bar>)
    requires InOrder(bars) && bars != []
    ensures var front := bars[..|bars| - 1];
      InOrder(front) && (front != [] ==> front[|front| - 1].ts <= bars[|bars| - 1].ts)
  {
  }

  /** Bars that are in order already stay as they are. */
  lemma {:induction false} ByTimeKeepsOrder(bars: seq<Bar>)
    requires InOrder(bars)
    ensures ByTime(bars) == bars
  {
    if bars != [] {
      hide *;
      var front, last := bars[..|bars| - 1], bars[|bars| - 1];
      FrontInOrder(bars);
      ByTimeKeepsOrder(front);
      InsertedLast(front, last);
      ByTimeAppend(front, last);
      assert front + [last] == bars;
    }
  }

  function Max(a: real, b: real): real {
    if a < b then b else a
  }

  function Min(a: real, b: real): real {
    if b < a then b else a
  }

  function Abs(x: real): real {
    if x < 0.0 then -x else x
  }
}
