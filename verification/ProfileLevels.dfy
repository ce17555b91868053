/** Ticks, levels, periods, the peak and the steps of the value area, told from prices and volumes. */
module ProfileLevels {
  import opened Market
  import opened ValueArea
  import opened Profile
  import Rounding

  // ----- ticks, levels and periods -----

  /** A whole number of cents: the one nearest to 5 basis points of the close, and at least one. */
  ghost predicate IsTick(tick: real, close: real) {
    exists cents :: IsCents(tick, close, cents)
  }

  predicate IsCents(tick: real, close: real, cents: int) {
    && tick * 100.0 == cents as real && cents >= 1
    && (cents as real - 0.5 <= close * 0.05 || cents == 1)
    && close * 0.05 <= cents as real + 0.5
  }

  lemma TickTold(close: real)
    ensures IsTick(TickOf(close), close)
  {
    var x := close * 0.0005;
    var n := Rounding.RoundHalfEven(x * 100.0);
    assert x * 100.0 == close * 0.05;
    var t := Rounding.RoundTo(x, 100.0);
    assert t * 100.0 == n as real;
    var cents := if n < 1 then 1 else n;
    assert IsCents(TickOf(close), close, cents);
  }

  /** The level nearest to a price. */
  predicate IsLevel(k: int, price: real, tick: real)
    requires tick > 0.0
  {
    (k as real - 0.5) * tick <= price <= (k as real + 0.5) * tick
  }

  lemma LevelTold(price: real, tick: real)
    requires tick > 0.0
    ensures IsLevel(Level(price, tick), price, tick)
  {
    var x, k := price / tick, Level(price, tick);
    assert x * tick == price;
    Rounding.ProductNonNegative(x - (k as real - 0.5), tick);
    Rounding.ProductNonNegative(k as real + 0.5 - x, tick);
  }

  lemma LevelsInOrder(b: Bar, tick: real)
    requires tick > 0.0 && Sane(b)
    ensures Level(b.low, tick) <= Level(b.high, tick)
  {
    Rounding.DivMonotone(b.low, b.high, tick);
    Rounding.RoundMonotone(b.low / tick, b.high / tick);
  }

  /** From the level of the low to that of the high, each gets the same share of the bar's volume. */
  ghost predicate Spreads(b: Bar, tick: real, lo: int, hi: int)
    requires tick > 0.0
  {
    && IsLevel(lo, b.low, tick) && IsLevel(hi, b.high, tick) && lo <= hi
    && (forall k :: Covers(b, tick, k) <==> lo <= k <= hi)
    && forall k :: PartAt(b, tick, k) * (hi - lo + 1) as real == if lo <= k <= hi then b.volume else 0.0
  }

  lemma SpreadTold(b: Bar, tick: real)
    requires tick > 0.0 && Sane(b)
    ensures Spreads(b, tick, Level(b.low, tick), Level(b.high, tick))
  {
    LevelTold(b.low, tick);
    LevelTold(b.high, tick);
    LevelsInOrder(b, tick);
    hide Level, IsLevel;
    var n := Width(b, tick) as real;
    assert b.volume / n * n == b.volume;
  }

  lemma LevelMore(bars: seq<Bar>, b: Bar, tick: real, k: int)
    requires tick > 0.0
    ensures var all := bars + [b];
      && VolumeAt(all, tick, k) == VolumeAt(bars, tick, k) + PartAt(b, tick, k)
      && PeriodsAt(all, tick, k) == PeriodsAt(bars, tick, k) + (if Covers(b, tick, k) then {PeriodOf(b)} else {})
      && (Touched(all, tick, k) <==> Touched(bars, tick, k) || Covers(b, tick, k))
  {
    hide Covers, PartAt, PeriodOf;
    var all := bars + [b];
    assert all[..|bars|] == bars && all[|bars|] == b;
    if n :| 0 <= n < |bars| && Covers(bars[n], tick, k) {
      assert Covers(all[n], tick, k);
    }
    if n :| 0 <= n < |all| && Covers(all[n], tick, k) {
      assert n == |bars| || (all[n] == bars[n] && Covers(bars[n], tick, k));
    }
  }

  lemma NothingAt(tick: real, k: int)
    requires tick > 0.0
    ensures VolumeAt([], tick, k) == 0.0 && PeriodsAt([], tick, k) == {} && !Touched([], tick, k)
  {
  }

  /** One bar more adds this much at a level, in this half hour. */
  ghost predicate Adds(bars: seq<Bar>, b: Bar, tick: real, k: int, part: real, p: int)
    requires tick > 0.0
  {
    var lo, hi, all := Level(b.low, tick), Level(b.high, tick), bars + [b];
    && InPeriod(b, p)
    && VolumeAt(all, tick, k) == VolumeAt(bars, tick, k) + part
    && part * (hi - lo + 1) as real == (if lo <= k <= hi then b.volume else 0.0)
    && PeriodsAt(all, tick, k) == PeriodsAt(bars, tick, k) + (if lo <= k <= hi then {p} else {})
    && (Touched(all, tick, k) <==> Touched(bars, tick, k) || lo <= k <= hi)
  }

  /**
   * A session's profile at a level, bar by bar: a bar adds its share to the levels that it spans, and
   * its half hour to the periods seen there; half hours are counted from 09:30 and hold their end.
   */
  lemma ProfileTold(bars: seq<Bar>, b: Bar, tick: real, k: int)
    requires tick > 0.0 && Sane(b)
    ensures VolumeAt([], tick, k) == 0.0 && PeriodsAt([], tick, k) == {} && !Touched([], tick, k)
    ensures IsLevel(Level(b.low, tick), b.low, tick) && IsLevel(Level(b.high, tick), b.high, tick)
    ensures exists part, p :: Adds(bars, b, tick, k, part, p)
  {
    hide Level, IsLevel, PartAt, Covers, PeriodOf, InPeriod, VolumeAt, PeriodsAt, Touched;
    NothingAt(tick, k);
    LevelMore(bars, b, tick, k);
    SpreadTold(b, tick);
    PeriodTold(b);
    assert Adds(bars, b, tick, k, PartAt(b, tick, k), PeriodOf(b));
  }

  /** The minute of the bar's close lies in its half hour, which ends with its thirtieth minute. */
  predicate InPeriod(b: Bar, p: int) {
    p >= 0 && b.elapsed < 1800 * (p + 1) + 60 && (p > 0 ==> 1800 * p + 60 <= b.elapsed)
  }

  lemma PeriodTold(b: Bar)
    ensures InPeriod(b, PeriodOf(b))
  {
  }

  // ----- the peak -----

  function Apart(x: int, y: int): int {
    if x < y then y - x else x - y
  }

  /** No level is heavier; of the heaviest it is the nearest to the middle one, and the first of those. */
  predicate IsPeak(prices: seq<int>, vols: seq<real>, p: nat)
    requires |prices| == |vols|
  {
    && p < |prices|
    && var middle := prices[|prices| / 2];
    && (forall k :: 0 <= k < |prices| ==> vols[k] <= vols[p])
    && (forall k :: 0 <= k < |prices| && vols[k] == vols[p] ==> Apart(prices[p], middle) <= Apart(prices[k], middle))
    && (forall k :: 0 <= k < p && vols[k] == vols[p] ==> Apart(prices[p], middle) < Apart(prices[k], middle))
  }

  lemma PeakTold(prices: seq<int>, vols: seq<real>, p: nat)
    requires |prices| == |vols|
    ensures Peak(prices, vols, p) <==> IsPeak(prices, vols, p)
  {
    if Peak(prices, vols, p) {
      forall k | 0 <= k < |prices|
        ensures vols[k] <= vols[p]
        ensures vols[k] == vols[p] ==> FromMiddle(prices, p) <= FromMiddle(prices, k)
      {
        assert !Beats(prices, vols, k, p);
      }
      forall k | 0 <= k < p && vols[k] == vols[p] ensures FromMiddle(prices, p) < FromMiddle(prices, k) {
        assert Beats(prices, vols, p, k);
      }
    }
  }

  // ----- growing the area -----

  function Least(x: int, y: int): int {
    if x < y then x else y
  }

  function Most(x: int, y: int): int {
    if x > y then x else y
  }

  /** The area with the next two levels above it, or with what there is of them. */
  predicate Upwards(vols: seq<real>, a: Area, b: Area) {
    b.low == a.low && b.high == Least(a.high + 2, |vols| - 1) && b.high > a.high
  }

  predicate Downwards(a: Area, b: Area) {
    b.high == a.high && b.low == Most(a.low - 2, 0) && b.low < a.low
  }

  /** Up, unless there is nothing above or what lies next below holds more. */
  ghost predicate IsStep(vols: seq<real>, a: Area, b: Area)
    requires a.low <= a.high < |vols|
  {
    var above := Slice(vols, a.high + 1, Least(a.high + 3, |vols|));
    var below := Slice(vols, Most(a.low - 2, 0), a.low);
    if a.high < |vols| - 1 && above >= below then Upwards(vols, a, b)
    else if a.low > 0 then Downwards(a, b)
    else Upwards(vols, a, b)
  }

  lemma StepTold(vols: seq<real>, a: Area)
    requires Inside(vols, a) && !Whole(vols, a)
    ensures IsStep(vols, a, Wider(vols, a))
  {
    SliceOf(vols, a.high + 1, Least(a.high + 3, |vols|));
    SliceOf(vols, Most(a.low - 2, 0), a.low);
    hide Slice;
  }

  /** Step by step from the first area to the last, each step taken with less than the target in hand. */
  ghost predicate Steps(vols: seq<real>, areas: seq<Area>, target: real) {
    && (forall n :: 0 <= n < |areas| ==> areas[n].low <= areas[n].high < |vols|)
    && forall n :: 0 <= n < |areas| - 1 ==>
         && Slice(vols, areas[n].low, areas[n].high + 1) < target
         && areas[n] != Area(0, |vols| - 1)
         && IsStep(vols, areas[n], areas[n + 1])
  }

  /** The grown area is reached by such steps, and holds the target or everything. */
  lemma {:induction false} GrownBySteps(vols: seq<real>, a: Area, target: real) returns (areas: seq<Area>)
    requires Inside(vols, a)
    ensures areas != [] && areas[0] == a && areas[|areas| - 1] == Grow(vols, a, target)
    ensures Steps(vols, areas, target)
    ensures var b := Grow(vols, a, target);
      Slice(vols, b.low, b.high + 1) >= target || b == Area(0, |vols| - 1)
    decreases a.low + (|vols| - a.high)
  {
    hide Slice, IsStep, Wider;
    if Held(vols, a) < target && !Whole(vols, a) {
      var rest := GrownBySteps(vols, Wider(vols, a), target);
      StepTold(vols, a);
      areas := [a] + rest;
    } else {
      areas := [a];
    }
  }

  /**
   * The area that is read off a session: grown by such steps from its peak for 70% of the volume;
   * the peak stands out if it holds more than two and a half times the mean.
   */
  lemma AreaTold(prices: seq<int>, vols: seq<real>, peak: nat) returns (areas: seq<Area>)
    requires |prices| == |vols| && Peak(prices, vols, peak)
    ensures IsPeak(prices, vols, peak)
    ensures areas != [] && areas[0] == Area(peak, peak)
    ensures Steps(vols, areas, Slice(vols, 0, |vols|) * 0.70)
    ensures areas[|areas| - 1] == Grow(vols, Area(peak, peak), Slice(vols, 0, |vols|) * 0.70)
  {
    hide Slice, Steps, Grow, IsPeak, Peak;
    PeakTold(prices, vols, peak);
    PeakInside(prices, vols, peak);
    areas := GrownBySteps(vols, Area(peak, peak), Slice(vols, 0, |vols|) * 0.70);
  }

  lemma PeakInside(prices: seq<int>, vols: seq<real>, peak: nat)
    requires |prices| == |vols| && Peak(prices, vols, peak)
    ensures peak < |vols|
  {
  }
}
