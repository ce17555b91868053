/** The market profile's volume by price, and the value area grown around its peak. */
module ValueArea {

  // ----- sums -----

  /** The volume between two positions, the second excluded. */
  function Slice(vols: seq<real>, i: nat, j: nat): real
    requires i <= j <= |vols|
    decreases j
  {
    if i == j then 0.0 else Slice(vols, i, j - 1) + vols[j - 1]
  }

  lemma {:induction false} SliceSplit(vols: seq<real>, i: nat, m: nat, j: nat)
    requires i <= m <= j <= |vols|
    ensures Slice(vols, i, j) == Slice(vols, i, m) + Slice(vols, m, j)
    decreases j
  {
    if m < j {
      SliceSplit(vols, i, m, j - 1);
    }
  }

  ghost predicate NonNegative(vols: seq<real>) {
    forall k :: 0 <= k < |vols| ==> vols[k] >= 0.0
  }

  lemma {:induction false} SliceNonNegative(vols: seq<real>, i: nat, j: nat)
    requires NonNegative(vols) && i <= j <= |vols|
    ensures Slice(vols, i, j) >= 0.0
    decreases j
  {
    if i < j {
      SliceNonNegative(vols, i, j - 1);
    }
  }

  // ----- growing the area -----

  /** Both ends of the area, included. */
  datatype Area = Area(low: nat, high: nat)

  predicate Inside(vols: seq<real>, a: Area) {
    a.low <= a.high < |vols|
  }

  function Held(vols: seq<real>, a: Area): real
    requires Inside(vols, a)
  {
    Slice(vols, a.low, a.high + 1)
  }

  /** The next two prices above, as far as there are any. */
  function UpPair(vols: seq<real>, j: nat): real
    requires j < |vols|
  {
    (if j + 1 < |vols| then vols[j + 1] else 0.0) + (if j + 2 < |vols| then vols[j + 2] else 0.0)
  }

  function DownPair(vols: seq<real>, i: nat): real
    requires i < |vols|
  {
    (if i >= 1 then vols[i - 1] else 0.0) + (if i >= 2 then vols[i - 2] else 0.0)
  }

  predicate Whole(vols: seq<real>, a: Area)
    requires Inside(vols, a)
  {
    a.low == 0 && a.high == |vols| - 1
  }

  /** One step towards the heavier side; ties go up. */
  function Wider(vols: seq<real>, a: Area): (b: Area)
    requires Inside(vols, a) && !Whole(vols, a)
    ensures Inside(vols, b) && b.low <= a.low && a.high <= b.high && b != a
  {
    var up := Area(a.low, if a.high + 2 < |vols| then a.high + 2 else |vols| - 1);
    var down := Area(if a.low >= 2 then a.low - 2 else 0, a.high);
    if UpPair(vols, a.high) >= DownPair(vols, a.low) && a.high < |vols| - 1 then up
    else if a.low > 0 then down
    else up
  }

  /** Widens until the target is held or everything is. */
  function Grow(vols: seq<real>, a: Area, target: real): (b: Area)
    requires Inside(vols, a)
    ensures Inside(vols, b) && b.low <= a.low && a.high <= b.high
    decreases a.low + (|vols| - a.high)
  {
    if Held(vols, a) < target && !Whole(vols, a) then Grow(vols, Wider(vols, a), target) else a
  }

  lemma {:induction false} GrowReaches(vols: seq<real>, a: Area, target: real)
    requires Inside(vols, a)
    ensures var b := Grow(vols, a, target); Held(vols, b) >= target || Whole(vols, b)
    decreases a.low + (|vols| - a.high)
  {
    hide Held;
    if Held(vols, a) < target && !Whole(vols, a) {
      GrowReaches(vols, Wider(vols, a), target);
    }
  }

  /** The area never grows past its target: before its last step it held less. */
  lemma {:induction false} GrowStopsInTime(vols: seq<real>, a: Area, target: real) returns (last: Area)
    requires Inside(vols, a)
    ensures Inside(vols, last)
    ensures var b := Grow(vols, a, target);
      b == a || (Held(vols, last) < target && !Whole(vols, last) && b == Wider(vols, last))
    decreases a.low + (|vols| - a.high)
  {
    hide Held;
    last := a;
    if Held(vols, a) < target && !Whole(vols, a) {
      var next := Wider(vols, a);
      last := GrowStopsInTime(vols, next, target);
      if Grow(vols, next, target) == next {
        last := a;
      }
    }
  }

  /** Adding the pair's volume keeps the running sum equal to what the area holds. */
  lemma WiderHolds(vols: seq<real>, a: Area)
    requires Inside(vols, a) && !Whole(vols, a)
    ensures var b := Wider(vols, a);
      Held(vols, b) == Held(vols, a) + (if b.low == a.low then UpPair(vols, a.high) else DownPair(vols, a.low))
  {
    var b := Wider(vols, a);
    SliceSplit(vols, b.low, a.low, a.high + 1);
    SliceSplit(vols, b.low, a.high + 1, b.high + 1);
    if b.low == a.low {
      SliceOf(vols, a.high + 1, b.high + 1);
    } else {
      SliceOf(vols, b.low, a.low);
    }
  }

  lemma SliceOf(vols: seq<real>, i: nat, j: nat)
    requires i <= j <= |vols| && j <= i + 2
    ensures Slice(vols, i, j) == (if j > i then vols[i] else 0.0) + (if j > i + 1 then vols[i + 1] else 0.0)
  {
  }

  /** At least 70% of the volume, around the peak. */
  lemma ValueAreaHoldsSeventy(vols: seq<real>, peak: nat)
    requires NonNegative(vols) && peak < |vols|
    ensures var total := Slice(vols, 0, |vols|); var b := Grow(vols, Area(peak, peak), total * 0.70);
      b.low <= peak <= b.high && Held(vols, b) >= total * 0.70
  {
    SliceNonNegative(vols, 0, |vols|);
    GrowReaches(vols, Area(peak, peak), Slice(vols, 0, |vols|) * 0.70);
  }

  // ----- the peak -----

  /** Heavier, or as heavy and nearer to the middle price. */
  predicate Beats(prices: seq<int>, vols: seq<real>, a: nat, b: nat)
    requires |prices| == |vols| && a < |prices| && b < |prices|
  {
    vols[a] > vols[b] || (vols[a] == vols[b] && FromMiddle(prices, a) < FromMiddle(prices, b))
  }

  function FromMiddle(prices: seq<int>, k: nat): int
    requires k < |prices|
  {
    var d := prices[k] - prices[|prices| / 2];
    if d < 0 then -d else d
  }

  /** The first position that no other one beats. */
  ghost predicate Peak(prices: seq<int>, vols: seq<real>, p: nat)
    requires |prices| == |vols|
  {
    && p < |prices|
    && (forall k :: 0 <= k < |prices| ==> !Beats(prices, vols, k, p))
    && (forall k :: 0 <= k < p ==> Beats(prices, vols, p, k))
  }

  method FindPeak(prices: seq<int>, vols: seq<real>) returns (p: nat)
    requires |prices| == |vols| > 0
    ensures Peak(prices, vols, p)
  {
    hide FromMiddle;
    p := 0;
    for k := 1 to |prices|
      invariant p < k
      invariant forall j :: 0 <= j < k ==> !Beats(prices, vols, j, p)
      invariant forall j :: 0 <= j < p ==> Beats(prices, vols, p, j)
    {
      if Beats(prices, vols, k, p) {
        forall j | 0 <= j < k ensures Beats(prices, vols, k, j) && !Beats(prices, vols, j, k) {
          assert !Beats(prices, vols, j, p);
        }
        p := k;
      }
    }
  }

  /** There is only one such position. */
  lemma PeakIsUnique(prices: seq<int>, vols: seq<real>, p: nat)
    requires |prices| == |vols| && Peak(prices, vols, p)
    ensures forall q: nat :: q < |prices| && q != p ==> !Peak(prices, vols, q)
  {
    hide FromMiddle;
    forall q: nat | q < |prices| && q != p ensures !Peak(prices, vols, q) {
      if q < p {
        assert Beats(prices, vols, p, q);
      } else {
        assert !Beats(prices, vols, q, p);
      }
    }
  }

  // ----- the loop -----

  method GrowArea(vols: seq<real>, peak: nat, target: real) returns (low: nat, high: nat, acc: real)
    requires peak < |vols|
    ensures Area(low, high) == Grow(vols, Area(peak, peak), target)
    ensures acc == Held(vols, Area(low, high))
  {
    low, high, acc := peak, peak, vols[peak];
    SliceOf(vols, peak, peak + 1);
    while acc < target && (low > 0 || high < |vols| - 1)
      invariant low <= high < |vols|
      invariant acc == Held(vols, Area(low, high))
      invariant Grow(vols, Area(low, high), target) == Grow(vols, Area(peak, peak), target)
      decreases low + (|vols| - high)
    {
      hide Held;
      WiderHolds(vols, Area(low, high));
      var upPair, downPair := UpPair(vols, high), DownPair(vols, low);
      if upPair >= downPair && high < |vols| - 1 {
        high := if high + 2 < |vols| then high + 2 else |vols| - 1;
        acc := acc + upPair;
      } else if low > 0 {
        low := if low >= 2 then low - 2 else 0;
        acc := acc + downPair;
      } else {
        high := if high + 2 < |vols| then high + 2 else |vols| - 1;
        acc := acc + upPair;
      }
    }
  }
}
