/** Dynamic option selection: screen the submitted contracts, take the best one, size it. */
module OptionChoice {
  import opened Prelude
  import opened Intents
  import opened Market
  import Rounding

  type Positive = n: int | n > 0 witness 1

  datatype Candidate = Candidate(
    optionId: string,
    symbol: string,
    expirationDay: int,
    optionType: OptionType,
    delta: real,
    bid: nat,
    ask: Positive,
    volume: nat,
    openInterest: nat,
    quoteAt: int,
    selloutAt: int,
    tradable: bool)

  datatype Reason =
    | WrongSymbol
    | WrongExpiry
    | WrongDirection
    | NotTradable
    | SelloutWindow
    | QuoteAge
    | OneSided
    | WideSpread
    | ThinVolume
    | ThinInterest
    | BadDelta
    | DeltaDirection
    | TooDear

  /** The thresholds one selection request is screened against. */
  datatype Screen = Screen(symbol: string, wanted: OptionType, now: int, today: int, ceiling: int, policy: Policy)

  /** `(ask - bid) / mid` */
  function Spread(bid: nat, ask: Positive): real {
    (ask - bid) as real / ((bid + ask) as real / 2.0)
  }

  /** The first test a candidate fails, if any. */
  function Rejection(c: Candidate, s: Screen): Option<Reason> {
    var spread := Spread(c.bid, c.ask);
    if c.symbol != s.symbol then Some(WrongSymbol)
    else if c.expirationDay - s.today !in s.policy.expiryDays then Some(WrongExpiry)
    else if c.optionType != s.wanted then Some(WrongDirection)
    else if !c.tradable then Some(NotTradable)
    else if c.selloutAt <= s.now + 300 then Some(SelloutWindow)
    else if s.now - c.quoteAt < -5 || s.now - c.quoteAt > s.policy.maxQuoteAge then Some(QuoteAge)
    else if c.bid <= 0 then Some(OneSided)
    else if spread < 0.0 || spread > s.policy.maxSpread then Some(WideSpread)
    else if c.volume < s.policy.minVolume then Some(ThinVolume)
    else if c.openInterest < s.policy.minOpenInterest then Some(ThinInterest)
    else if !(0.0 < Abs(c.delta) <= 1.0) then Some(BadDelta)
    else if (c.optionType.CallOption? && c.delta <= 0.0) || (c.optionType.PutOption? && c.delta >= 0.0)
    then Some(DeltaDirection)
    else if c.ask > s.ceiling then Some(TooDear)
    else None
  }

  function Eligible(cs: seq<Candidate>, s: Screen): (r: seq<Candidate>)
    ensures forall c :: c in r <==> c in cs && Rejection(c, s).None?
  {
    if cs == [] then []
    else
      var last := cs[|cs| - 1];
      Eligible(cs[..|cs| - 1], s) + (if Rejection(last, s).None? then [last] else [])
  }

  function RejectedFor(cs: seq<Candidate>, s: Screen, why: Reason): nat {
    if cs == [] then 0
    else RejectedFor(cs[..|cs| - 1], s, why)
         + (if Rejection(cs[|cs| - 1], s) == Some(why) then 1 else 0)
  }

  /** All rejection counters together. */
  function TotalRejected(cs: seq<Candidate>, s: Screen): nat {
    RejectedFor(cs, s, WrongSymbol) + RejectedFor(cs, s, WrongExpiry) + RejectedFor(cs, s, WrongDirection)
    + RejectedFor(cs, s, NotTradable) + RejectedFor(cs, s, SelloutWindow) + RejectedFor(cs, s, QuoteAge)
    + RejectedFor(cs, s, OneSided) + RejectedFor(cs, s, WideSpread) + RejectedFor(cs, s, ThinVolume)
    + RejectedFor(cs, s, ThinInterest) + RejectedFor(cs, s, BadDelta) + RejectedFor(cs, s, DeltaDirection)
    + RejectedFor(cs, s, TooDear)
  }

  /** Every submitted candidate is either kept or counted under exactly one reason. */
  lemma {:induction false} EveryCandidateAccounted(cs: seq<Candidate>, s: Screen)
    ensures |Eligible(cs, s)| + TotalRejected(cs, s) == |cs|
  {
    if cs != [] {
      EveryCandidateAccounted(cs[..|cs| - 1], s);
    }
  }

  // ----- the five-part order -----

  predicate Before(a: string, b: string) {
    b != [] && (a == [] || a[0] < b[0] || (a[0] == b[0] && Before(a[1..], b[1..])))
  }

  lemma {:induction false} BeforeTotal(a: string, b: string)
    ensures a == b || Before(a, b) || Before(b, a)
    ensures !(Before(a, b) && Before(b, a))
    ensures !Before(a, a)
  {
    if a != [] {
      BeforeTotal(a[1..], a[1..]);
      if b != [] {
        BeforeTotal(a[1..], b[1..]);
        if a[0] == b[0] && a[1..] == b[1..] {
          assert a == [a[0]] + a[1..] == b;
        }
      }
    }
  }

  lemma {:induction false} BeforeTransitive(a: string, b: string, c: string)
    requires Before(a, b) && Before(b, c)
    ensures Before(a, c)
  {
    if a != [] && a[0] == b[0] && b[0] == c[0] {
      BeforeTransitive(a[1..], b[1..], c[1..]);
    }
  }

  /** Highest absolute delta, then tightest spread, most open interest, cheapest ask, least id. */
  predicate Precedes(a: Candidate, b: Candidate) {
    if Abs(a.delta) != Abs(b.delta) then Abs(a.delta) > Abs(b.delta)
    else if Spread(a.bid, a.ask) != Spread(b.bid, b.ask) then Spread(a.bid, a.ask) < Spread(b.bid, b.ask)
    else if a.openInterest != b.openInterest then a.openInterest > b.openInterest
    else if a.ask != b.ask then a.ask < b.ask
    else Before(a.optionId, b.optionId)
  }

  lemma PrecedesTransitive(a: Candidate, b: Candidate, c: Candidate)
    requires Precedes(a, b) && Precedes(b, c)
    ensures Precedes(a, c)
  {
    if Before(a.optionId, b.optionId) && Before(b.optionId, c.optionId) {
      BeforeTransitive(a.optionId, b.optionId, c.optionId);
    }
  }

  lemma PrecedesTotal(a: Candidate, b: Candidate)
    ensures a.optionId == b.optionId || Precedes(a, b) || Precedes(b, a)
    ensures !(Precedes(a, b) && Precedes(b, a))
  {
    BeforeTotal(a.optionId, b.optionId);
  }

  /** `sorted(cs)[0]`: the first of the least candidates. */
  function Best(cs: seq<Candidate>): (c: Candidate)
    requires cs != []
    ensures c in cs
  {
    var last := cs[|cs| - 1];
    if |cs| == 1 then last
    else
      var b := Best(cs[..|cs| - 1]);
      if Precedes(last, b) then last else b
  }

  lemma {:induction false} NothingPrecedesBest(cs: seq<Candidate>, c: Candidate)
    requires c in cs
    ensures !Precedes(c, Best(cs))
  {
    var last := cs[|cs| - 1];
    PrecedesTotal(c, c);
    if |cs| > 1 {
      var front := cs[..|cs| - 1];
      var b := Best(front);
      PrecedesTotal(last, b);
      PrecedesTotal(last, last);
      if c in front {
        NothingPrecedesBest(front, c);
        if Precedes(last, b) && Precedes(c, last) {
          PrecedesTransitive(c, last, b);
        }
      }
    }
  }

  ghost predicate DistinctIds(cs: seq<Candidate>) {
    forall a, b :: a in cs && b in cs && a.optionId == b.optionId ==> a == b
  }

  /** The submission order is irrelevant: two orders of the same contracts have the same best one. */
  lemma BestIgnoresOrder(xs: seq<Candidate>, ys: seq<Candidate>)
    requires xs != [] && ys != [] && DistinctIds(xs)
    requires forall c :: c in xs <==> c in ys
    ensures Best(xs) == Best(ys)
  {
    NothingPrecedesBest(xs, Best(ys));
    NothingPrecedesBest(ys, Best(xs));
    PrecedesTotal(Best(xs), Best(ys));
  }

  // ----- sizing -----

  /** The rounded minimum of buying-power share, per-order cap and remaining daily risk. */
  function CapitalCeiling(buyingPower: int, policy: Policy, remaining: nat): (c: int)
    ensures c <= policy.maxOrderRisk
    ensures c <= remaining
    ensures c as real <= buyingPower as real * policy.capitalFraction + 0.5
  {
    var m := Min(Min(buyingPower as real * policy.capitalFraction, policy.maxOrderRisk as real), remaining as real);
    Rounding.RoundMonotone(m, policy.maxOrderRisk as real);
    Rounding.RoundMonotone(m, remaining as real);
    Rounding.RoundHalfEven(m)
  }

  function Select(cs: seq<Candidate>, s: Screen, recordedAt: int): (r: Option<Selection>)
    ensures r.None? <==> Eligible(cs, s) == []
  {
    var eligible := Eligible(cs, s);
    if eligible == [] then None
    else
      var c := Best(eligible);
      var quantity := s.ceiling / c.ask;
      Some(Selection(
             c.optionId, c.optionType, c.expirationDay, c.delta, c.ask, c.volume, c.openInterest,
             c.quoteAt, c.selloutAt, Rounding.RoundTo(Spread(c.bid, c.ask), 1000000.0),
             quantity, c.ask, quantity * c.ask, s.ceiling, |eligible|, |cs|, recordedAt))
  }

  /** At least one contract, as many as fit under the ceiling and not one more. */
  lemma SelectionFitsCeiling(cs: seq<Candidate>, s: Screen, recordedAt: int)
    requires Select(cs, s, recordedAt).Some?
    ensures var sel := Select(cs, s, recordedAt).value;
      && sel.quantity >= 1
      && sel.contractDebit >= 1
      && sel.plannedDebit == sel.quantity * sel.contractDebit
      && sel.plannedDebit <= s.ceiling < (sel.quantity + 1) * sel.contractDebit
  {
    var c := Best(Eligible(cs, s));
    assert Rejection(c, s).None?;
    var q := s.ceiling / c.ask;
    assert q * c.ask + s.ceiling % c.ask == s.ceiling;
    assert (q + 1) * c.ask == q * c.ask + c.ask;
  }

  lemma {:induction false} EligibleLength(xs: seq<Candidate>, ys: seq<Candidate>, s: Screen)
    requires multiset(xs) == multiset(ys)
    ensures |Eligible(xs, s)| == |Eligible(ys, s)| && |xs| == |ys|
  {
    EligibleMultiset(xs, s);
    EligibleMultiset(ys, s);
    assert |xs| == |multiset(xs)| && |ys| == |multiset(ys)|;
    var ex, ey := multiset(Eligible(xs, s)), multiset(Eligible(ys, s));
    assert forall c :: ex[c] == ey[c];
    assert ex == ey;
    assert |Eligible(xs, s)| == |ex| && |Eligible(ys, s)| == |ey|;
  }

  lemma {:induction false} EligibleMultiset(cs: seq<Candidate>, s: Screen)
    ensures forall c :: multiset(Eligible(cs, s))[c] == if Rejection(c, s).None? then multiset(cs)[c] else 0
  {
    if cs != [] {
      var front, last := cs[..|cs| - 1], cs[|cs| - 1];
      EligibleMultiset(front, s);
      assert cs == front + [last];
    }
  }

  /** The whole selection record is the same for every submission order. */
  lemma SelectIgnoresOrder(xs: seq<Candidate>, ys: seq<Candidate>, s: Screen, recordedAt: int)
    requires multiset(xs) == multiset(ys) && DistinctIds(xs)
    ensures Select(xs, s, recordedAt) == Select(ys, s, recordedAt)
  {
    EligibleLength(xs, ys, s);
    forall c ensures c in xs <==> c in ys {
      assert c in xs <==> c in multiset(xs);
      assert c in ys <==> c in multiset(ys);
    }
    var ex, ey := Eligible(xs, s), Eligible(ys, s);
    if ex != [] {
      BestIgnoresOrder(ex, ey);
    }
  }

  /** What was chosen: an eligible contract that no eligible contract precedes. */
  lemma SelectionIsLeast(cs: seq<Candidate>, s: Screen, recordedAt: int, other: Candidate)
    requires other in cs && Rejection(other, s).None?
    ensures Select(cs, s, recordedAt).Some?
    ensures var best := Best(Eligible(cs, s));
      && best in cs
      && Rejection(best, s).None?
      && best.optionId == Select(cs, s, recordedAt).value.optionId
      && !Precedes(other, best)
  {
    assert other in Eligible(cs, s);
    NothingPrecedesBest(Eligible(cs, s), other);
  }
}
