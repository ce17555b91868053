/** One session's volume and time by price level, and the value area read from it. */
module Profile {
  import opened Prelude
  import opened Market
  import opened Sorting
  import opened ValueArea
  import Rounding

  function TickOf(close: real): real {
    Max(Rounding.RoundTo(close * 0.0005, 100.0), 0.01)
  }

  /** A price as a whole number of ticks. */
  function Level(price: real, tick: real): int
    requires tick > 0.0
  {
    Rounding.RoundHalfEven(price / tick)
  }

  function LowLevel(b: Bar, tick: real): int
    requires tick > 0.0
  {
    Level(b.low, tick)
  }

  /** How many levels a bar covers. */
  function Width(b: Bar, tick: real): (n: nat)
    requires tick > 0.0
    ensures n >= 1
  {
    var n := Level(b.high, tick) - Level(b.low, tick) + 1;
    if n < 1 then 1 else n
  }

  /** What each covered level gets of a bar's volume. */
  function Share(b: Bar, tick: real): real
    requires tick > 0.0
  {
    b.volume / Width(b, tick) as real
  }

  predicate Covers(b: Bar, tick: real, k: int)
    requires tick > 0.0
  {
    LowLevel(b, tick) <= k < LowLevel(b, tick) + Width(b, tick)
  }

  function PartAt(b: Bar, tick: real, k: int): real
    requires tick > 0.0
  {
    if Covers(b, tick, k) then Share(b, tick) else 0.0
  }

  /** The volume that a session's bars leave at one level. */
  function VolumeAt(bars: seq<Bar>, tick: real, k: int): real
    requires tick > 0.0
  {
    if bars == [] then 0.0 else VolumeAt(bars[..|bars| - 1], tick, k) + PartAt(bars[|bars| - 1], tick, k)
  }

  /** The half-hour period of a bar, counted from 09:30. */
  function PeriodOf(b: Bar): int {
    var p := (b.elapsed / 60 - 1) / 30;
    if p < 0 then 0 else p
  }

  /** The periods in which a session's bars touched one level. */
  function PeriodsAt(bars: seq<Bar>, tick: real, k: int): set<int>
    requires tick > 0.0
  {
    if bars == [] then {}
    else
      var last := bars[|bars| - 1];
      PeriodsAt(bars[..|bars| - 1], tick, k) + (if Covers(last, tick, k) then {PeriodOf(last)} else {})
  }

  predicate Touched(bars: seq<Bar>, tick: real, k: int)
    requires tick > 0.0
  {
    exists n :: 0 <= n < |bars| && Covers(bars[n], tick, k)
  }

  /** Both dictionaries hold exactly what the session's bars left at each touched level. */
  ghost predicate Profiles(vol: map<int, real>, tpo: map<int, set<int>>, bars: seq<Bar>, tick: real)
    requires tick > 0.0
  {
    && (forall k :: k in vol <==> Touched(bars, tick, k))
    && (forall k :: k in tpo <==> k in vol)
    && (forall k :: k in vol ==> vol[k] == VolumeAt(bars, tick, k))
    && (forall k :: k in tpo ==> tpo[k] == PeriodsAt(bars, tick, k))
  }

  // ----- conservation -----

  function SumAt(prices: seq<int>, bars: seq<Bar>, tick: real): real
    requires tick > 0.0
  {
    if prices == [] then 0.0
    else SumAt(prices[..|prices| - 1], bars, tick) + VolumeAt(bars, tick, prices[|prices| - 1])
  }

  function SumParts(prices: seq<int>, b: Bar, tick: real): real
    requires tick > 0.0
  {
    if prices == [] then 0.0
    else SumParts(prices[..|prices| - 1], b, tick) + PartAt(b, tick, prices[|prices| - 1])
  }

  function CountIn(prices: seq<int>, lo: int, hi: int): nat {
    if prices == [] then 0
    else CountIn(prices[..|prices| - 1], lo, hi) + (if lo <= prices[|prices| - 1] < hi then 1 else 0)
  }

  lemma {:induction false} CountNone(prices: seq<int>, lo: int, hi: int)
    requires hi <= lo || forall k :: 0 <= k < |prices| ==> !(lo <= prices[k] < hi)
    ensures CountIn(prices, lo, hi) == 0
  {
    if prices != [] {
      CountNone(prices[..|prices| - 1], lo, hi);
    }
  }

  lemma {:induction false} CountSplit(prices: seq<int>, lo: int, mid: int, hi: int)
    requires lo <= mid <= hi
    ensures CountIn(prices, lo, hi) == CountIn(prices, lo, mid) + CountIn(prices, mid, hi)
  {
    if prices != [] {
      CountSplit(prices[..|prices| - 1], lo, mid, hi);
    }
  }

  lemma {:induction false} CountOne(prices: seq<int>, k: int)
    requires Ascends(prices) && k in prices
    ensures CountIn(prices, k, k + 1) == 1
  {
    var front, last := prices[..|prices| - 1], prices[|prices| - 1];
    assert forall i :: 0 <= i < |front| ==> front[i] == prices[i];
    if last == k {
      CountNone(front, k, k + 1);
    } else {
      assert k in front;
      CountOne(front, k);
    }
  }

  /** Distinct prices that include a whole range include it once. */
  lemma {:induction false} CountRange(prices: seq<int>, lo: int, n: nat)
    requires Ascends(prices) && forall k :: lo <= k < lo + n ==> k in prices
    ensures CountIn(prices, lo, lo + n) == n
    decreases n
  {
    if n == 0 {
      CountNone(prices, lo, lo);
    } else {
      CountRange(prices, lo, n - 1);
      CountSplit(prices, lo, lo + n - 1, lo + n);
      CountOne(prices, lo + n - 1);
    }
  }

  lemma {:induction false} PartsAreShares(prices: seq<int>, b: Bar, tick: real)
    requires tick > 0.0
    ensures SumParts(prices, b, tick)
      == CountIn(prices, LowLevel(b, tick), LowLevel(b, tick) + Width(b, tick)) as real * Share(b, tick)
  {
    hide Share, Width, LowLevel;
    if prices != [] {
      var front, last := prices[..|prices| - 1], prices[|prices| - 1];
      PartsAreShares(front, b, tick);
      var m := CountIn(front, LowLevel(b, tick), LowLevel(b, tick) + Width(b, tick)) as real;
      var s := Share(b, tick);
      assert (m + 1.0) * s == m * s + s;
    } else {
      assert 0.0 * Share(b, tick) == 0.0;
    }
  }

  lemma PartsAreVolume(prices: seq<int>, b: Bar, tick: real)
    requires tick > 0.0 && Ascends(prices) && forall k :: Covers(b, tick, k) ==> k in prices
    ensures SumParts(prices, b, tick) == b.volume
  {
    hide LowLevel, Level;
    PartsAreShares(prices, b, tick);
    CountRange(prices, LowLevel(b, tick), Width(b, tick));
    var n := Width(b, tick) as real;
    assert n * (b.volume / n) == b.volume;
  }

  lemma {:induction false} SumOneMore(prices: seq<int>, bars: seq<Bar>, b: Bar, tick: real)
    requires tick > 0.0
    ensures SumAt(prices, bars + [b], tick) == SumAt(prices, bars, tick) + SumParts(prices, b, tick)
  {
    hide PartAt;
    if prices != [] {
      SumOneMore(prices[..|prices| - 1], bars, b, tick);
      assert (bars + [b])[..|bars|] == bars;
    }
  }

  lemma {:induction false} SumNothing(prices: seq<int>, tick: real)
    requires tick > 0.0
    ensures SumAt(prices, [], tick) == 0.0
  {
    if prices != [] {
      SumNothing(prices[..|prices| - 1], tick);
    }
  }

  /** Spreading keeps the volume: over all touched levels it adds up to the session's bars. */
  lemma {:induction false} VolumeIsConserved(prices: seq<int>, bars: seq<Bar>, tick: real)
    requires tick > 0.0 && Ascends(prices) && forall k :: Touched(bars, tick, k) ==> k in prices
    ensures SumAt(prices, bars, tick) == Volume(bars)
  {
    hide Covers;
    if bars == [] {
      SumNothing(prices, tick);
    } else {
      var front, last := bars[..|bars| - 1], bars[|bars| - 1];
      assert front + [last] == bars;
      forall k | Touched(front, tick, k) ensures k in prices {
        var n :| 0 <= n < |front| && Covers(front[n], tick, k);
        assert Covers(bars[n], tick, k);
      }
      VolumeIsConserved(prices, front, tick);
      SumOneMore(prices, front, last, tick);
      assert forall k :: Covers(bars[|bars| - 1], tick, k) ==> Touched(bars, tick, k);
      PartsAreVolume(prices, last, tick);
    }
  }

  // ----- the object -----

  datatype Reading = Reading(poc: int, high: int, low: int, prominent: bool)

  class ProfileBuilder {
    var session: Option<int>
    var tick: real
    var vol: map<int, real>
    var tpo: map<int, set<int>>
    /** The bars of the current session. */
    ghost var bars: seq<Bar>

    ghost predicate Valid()
      reads this
    {
      && (session.None? ==> bars == [] && vol == map[])
      && (session.Some? ==> tick > 0.0 && Profiles(vol, tpo, bars, tick))
    }

    constructor ()
      ensures Valid() && session.None? && bars == []
    {
      session, tick, vol, tpo, bars := None, 0.0, map[], map[], [];
    }

    /** Spreads a bar over its levels; a new session starts afresh, with a tick for its price. */
    method Update(b: Bar, sessionId: int)
      requires Valid()
      modifies this
      ensures Valid() && session == Some(sessionId)
      ensures bars == (if old(session) == Some(sessionId) then old(bars) else []) + [b]
      ensures tick == if old(session) == Some(sessionId) then old(tick) else TickOf(b.close)
    {
      hide Profiles, TickOf, Level;
      if session != Some(sessionId) {
        session, vol, tpo, bars := Some(sessionId), map[], map[], [];
        TickPositive(b.close);
        tick := TickOf(b.close);
        EmptyProfile(tick);
      }
      vol, tpo := Spread(vol, tpo, tick, b, bars);
      bars := bars + [b];
    }

    /** The bar's volume and period, level by level. */
    static method Spread(vol: map<int, real>, tpo: map<int, set<int>>, tick: real, b: Bar, ghost bars: seq<Bar>)
      returns (vol': map<int, real>, tpo': map<int, set<int>>)
      requires tick > 0.0 && Profiles(vol, tpo, bars, tick)
      ensures Profiles(vol', tpo', bars + [b], tick)
    {
      hide Profiles, Spreading, Width, PeriodOf, LowLevel;
      vol', tpo' := vol, tpo;
      var period := PeriodOf(b);
      var low, n := LowLevel(b, tick), Width(b, tick);
      var share := b.volume / n as real;
      NothingSpread(vol, tpo, bars, tick, b);
      for i := 0 to n
        invariant Spreading(vol', tpo', bars, tick, b, i)
      {
        var k := low + i;
        SpreadOne(vol', tpo', bars, tick, b, i);
        tpo' := tpo'[k := (if k in tpo' then tpo'[k] else {}) + {period}];
        vol' := vol'[k := (if k in vol' then vol'[k] else 0.0) + share];
      }
      AllSpread(vol', tpo', bars, tick, b);
    }

    /** The point of control and the ends of the value area, as levels. */
    method ReadValueArea() returns (r: Option<Reading>, ghost prices: seq<int>, ghost vols: seq<real>, ghost peak: nat)
      requires Valid()
      ensures r.None? <==> vol == map[]
      ensures r.Some? ==>
        && Lists(prices, vols, vol) && Peak(prices, vols, peak)
        && var total := Slice(vols, 0, |vols|); var area := Grow(vols, Area(peak, peak), total * 0.70);
           && r.value.poc == prices[peak] && r.value.low == prices[area.low] && r.value.high == prices[area.high]
           && r.value.prominent == (vols[peak] > 2.5 * (total / |prices| as real))
    {
      hide Profiles, Grow, Peak, Slice;
      prices, vols, peak := [], [], 0;
      if vol == map[] {
        return None, prices, vols, peak;
      }
      var ps, vs := ByLevel(vol);
      var p := FindPeak(ps, vs);
      InRange(ps, vs, p);
      var total := SumOf(vs);
      var low, high, acc := GrowArea(vs, p, total * 0.70);
      prices, vols, peak := ps, vs, p;
      r := Some(Reading(ps[p], ps[high], ps[low], vs[p] > 2.5 * (total / |ps| as real)));
    }
  }

  /** The dictionary's levels, sorted, with their volumes. */
  method ByLevel(vol: map<int, real>) returns (ps: seq<int>, vs: seq<real>)
    requires vol != map[]
    ensures Lists(ps, vs, vol)
  {
    ps := Sorted(vol.Keys);
    forall k | 0 <= k < |ps| ensures ps[k] in vol {
      assert ps[k] in ps;
    }
    EmptyList(vol, ps);
    vs := seq(|ps|, k requires 0 <= k < |ps| => vol[ps[k]]);
  }

  method SumOf(vols: seq<real>) returns (total: real)
    ensures total == Slice(vols, 0, |vols|)
  {
    total := 0.0;
    for k := 0 to |vols|
      invariant total == Slice(vols, 0, k)
    {
      total := total + vols[k];
    }
  }

  /** The levels in ascending order, and their volumes. */
  ghost predicate Lists(prices: seq<int>, vols: seq<real>, vol: map<int, real>) {
    && Ascends(prices) && |prices| == |vols| > 0
    && (forall k :: k in prices <==> k in vol)
    && (forall i :: 0 <= i < |prices| ==> prices[i] in vol && vols[i] == vol[prices[i]])
  }

  lemma InRange(prices: seq<int>, vols: seq<real>, p: nat)
    requires |prices| == |vols| && Peak(prices, vols, p)
    ensures p < |prices|
  {
  }

  lemma EmptyList(vol: map<int, real>, ps: seq<int>)
    requires forall k :: k in ps <==> k in vol
    ensures ps == [] ==> vol == map[]
  {
    if ps == [] {
      assert forall k :: k in vol <==> k in ps;
    }
  }

  lemma TickPositive(close: real)
    ensures TickOf(close) > 0.0
  {
  }

  lemma EmptyProfile(tick: real)
    requires tick > 0.0
    ensures Profiles(map[], map[], [], tick)
  {
  }

  /** The dictionaries while the first `i` levels of a bar have been added. */
  ghost predicate Spreading(vol: map<int, real>, tpo: map<int, set<int>>, bars: seq<Bar>, tick: real, b: Bar, i: nat)
    requires tick > 0.0
  {
    var low := LowLevel(b, tick);
    && (forall k :: k in vol <==> Touched(bars, tick, k) || low <= k < low + i)
    && (forall k :: k in tpo <==> k in vol)
    && (forall k :: k in vol ==>
          vol[k] == VolumeAt(bars, tick, k) + (if low <= k < low + i then Share(b, tick) else 0.0))
    && (forall k :: k in tpo ==>
          tpo[k] == PeriodsAt(bars, tick, k) + (if low <= k < low + i then {PeriodOf(b)} else {}))
  }

  lemma NothingSpread(vol: map<int, real>, tpo: map<int, set<int>>, bars: seq<Bar>, tick: real, b: Bar)
    requires tick > 0.0 && Profiles(vol, tpo, bars, tick)
    ensures Spreading(vol, tpo, bars, tick, b, 0)
  {
    hide Touched, VolumeAt, PeriodsAt, Share, LowLevel;
  }

  lemma {:induction false} UntouchedIsEmpty(bars: seq<Bar>, tick: real, k: int)
    requires tick > 0.0 && !Touched(bars, tick, k)
    ensures VolumeAt(bars, tick, k) == 0.0 && PeriodsAt(bars, tick, k) == {}
  {
    hide Covers;
    if bars != [] {
      var front := bars[..|bars| - 1];
      assert forall n :: 0 <= n < |front| ==> front[n] == bars[n];
      assert !Covers(bars[|bars| - 1], tick, k);
      UntouchedIsEmpty(front, tick, k);
    }
  }

  lemma SpreadOne(vol: map<int, real>, tpo: map<int, set<int>>, bars: seq<Bar>, tick: real, b: Bar, i: nat)
    requires tick > 0.0 && Spreading(vol, tpo, bars, tick, b, i) && i < Width(b, tick)
    ensures var k := LowLevel(b, tick) + i;
      Spreading(vol[k := (if k in vol then vol[k] else 0.0) + Share(b, tick)],
                tpo[k := (if k in tpo then tpo[k] else {}) + {PeriodOf(b)}], bars, tick, b, i + 1)
  {
    hide Touched, VolumeAt, PeriodsAt, Share, LowLevel, Width, PeriodOf;
    var k := LowLevel(b, tick) + i;
    if k !in vol {
      UntouchedIsEmpty(bars, tick, k);
    }
  }

  lemma AllSpread(vol: map<int, real>, tpo: map<int, set<int>>, bars: seq<Bar>, tick: real, b: Bar)
    requires tick > 0.0 && Spreading(vol, tpo, bars, tick, b, Width(b, tick))
    ensures Profiles(vol, tpo, bars + [b], tick)
  {
    hide Share, LowLevel, Width, PeriodOf;
    var all := bars + [b];
    assert all[..|bars|] == bars;
    forall k ensures Touched(all, tick, k) <==> Touched(bars, tick, k) || Covers(b, tick, k) {
      TouchedMore(bars, b, tick, k);
    }
    hide Touched;
    assert forall k :: VolumeAt(all, tick, k) == VolumeAt(bars, tick, k) + PartAt(b, tick, k);
    assert forall k ::
      PeriodsAt(all, tick, k) == PeriodsAt(bars, tick, k) + (if Covers(b, tick, k) then {PeriodOf(b)} else {});
  }

  lemma TouchedMore(bars: seq<Bar>, b: Bar, tick: real, k: int)
    requires tick > 0.0
    ensures Touched(bars + [b], tick, k) <==> Touched(bars, tick, k) || Covers(b, tick, k)
  {
    hide Covers;
    var all := bars + [b];
    if Touched(bars, tick, k) {
      var n :| 0 <= n < |bars| && Covers(bars[n], tick, k);
      assert Covers(all[n], tick, k);
    }
    if Covers(b, tick, k) {
      assert Covers(all[|bars|], tick, k);
    }
  }

  lemma {:induction false} SliceIsSum(prices: seq<int>, vols: seq<real>, bars: seq<Bar>, tick: real)
    requires tick > 0.0 && |prices| == |vols|
    requires forall i :: 0 <= i < |prices| ==> vols[i] == VolumeAt(bars, tick, prices[i])
    ensures Slice(vols, 0, |vols|) == SumAt(prices, bars, tick)
  {
    if prices != [] {
      var n := |prices| - 1;
      SliceIsSum(prices[..n], vols[..n], bars, tick);
      SlicePrefix(vols, n);
    }
  }

  lemma {:induction false} SlicePrefix(vols: seq<real>, n: nat)
    requires n <= |vols|
    ensures Slice(vols[..n], 0, n) == Slice(vols, 0, n)
    decreases n
  {
    if n > 0 {
      SlicePrefix(vols, n - 1);
      SlicePrefix(vols[..n], n - 1);
      assert vols[..n][..n - 1] == vols[..n - 1];
    }
  }

  /** In the dictionary's own total: the profile's volume is the volume of the session's bars. */
  lemma ProfileVolume(prices: seq<int>, vols: seq<real>, vol: map<int, real>, tpo: map<int, set<int>>, bars: seq<Bar>,
                      tick: real)
    requires tick > 0.0 && Lists(prices, vols, vol) && Profiles(vol, tpo, bars, tick)
    ensures Slice(vols, 0, |vols|) == Volume(bars)
  {
    hide Touched, VolumeAt, PeriodsAt;
    SliceIsSum(prices, vols, bars, tick);
    VolumeIsConserved(prices, bars, tick);
  }

  lemma {:induction false} VolumeAtNonNegative(bars: seq<Bar>, tick: real, k: int)
    requires tick > 0.0 && AllSane(bars)
    ensures VolumeAt(bars, tick, k) >= 0.0
  {
    if bars != [] {
      VolumeAtNonNegative(bars[..|bars| - 1], tick, k);
      var b := bars[|bars| - 1];
      assert Sane(b);
      Rounding.DivMonotone(0.0, b.volume, Width(b, tick) as real);
      assert 0.0 / Width(b, tick) as real == 0.0;
    }
  }

  /** The value area contains the point of control and at least 70% of what the session traded. */
  lemma ValueAreaOfSession(prices: seq<int>, vols: seq<real>, vol: map<int, real>, tpo: map<int, set<int>>,
                           bars: seq<Bar>, tick: real, peak: nat)
    requires tick > 0.0 && Lists(prices, vols, vol) && Profiles(vol, tpo, bars, tick) && AllSane(bars)
    requires Peak(prices, vols, peak)
    ensures var area := Grow(vols, Area(peak, peak), Slice(vols, 0, |vols|) * 0.70);
      && prices[area.low] <= prices[peak] <= prices[area.high]
      && Held(vols, area) >= Volume(bars) * 0.70
  {
    hide Touched, VolumeAt, PeriodsAt, Grow;
    ProfileVolume(prices, vols, vol, tpo, bars, tick);
    forall i | 0 <= i < |vols| ensures vols[i] >= 0.0 {
      VolumeAtNonNegative(bars, tick, prices[i]);
    }
    ValueAreaHoldsSeventy(vols, peak);
  }
}
