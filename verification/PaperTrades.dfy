/** One paper trade: how a bar advances it, and what its result can be. */
module PaperTrades {
  import opened Prelude
  import opened Market
  import Rounding

  datatype Direction = Long | Short

  datatype Horizon = ZeroDte | Swing | Leaps | Hodl

  datatype Outcome =
    | Open
    | Pending
    | ExpiredUnfilled
    | Stopped
    | TpFull
    | FlattenedTime
    | StoppedAfterBe

  /** The natural identity of a plan: a strategy speaks at most once per symbol and bar. */
  datatype PlanKey = PlanKey(createdAt: int, symbol: string, horizon: Horizon, strategy: string)

  datatype Plan = Plan(
    alertId: string,
    key: PlanKey,
    direction: Direction,
    entry: real,
    initialStop: real,
    targets: seq<real>,
    validUntil: int,
    researchOnly: bool)

  datatype Trade = Trade(
    plan: Plan,
    filledAt: Option<int>,
    outcome: Outcome,
    exitTs: Option<int>,
    realizedR: Option<real>,
    tranches: nat,
    maeR: real,
    mfeR: real)

  const ZDTE_FLATTEN := 23100  // 15:55, in seconds since 09:30

  predicate Unresolved(o: Outcome) {
    o.Pending? || o.Open?
  }

  predicate Active(t: Trade) {
    Unresolved(t.outcome)
  }

  /** A plan with a risk unit to measure in and no more targets than tranches. */
  predicate Playable(p: Plan) {
    p.entry != p.initialStop && |p.targets| <= 3
  }

  function NewTrade(p: Plan): Trade {
    Trade(p, None, Pending, None, None, 0, 0.0, 0.0)
  }

  /** A price move from the entry, positive in the plan's favour. */
  function Move(p: Plan, price: real): real {
    if p.direction.Long? then price - p.entry else p.entry - price
  }

  function Risk(p: Plan): real {
    Abs(p.entry - p.initialStop)
  }

  /** A price as a multiple of the risk unit, positive in the plan's favour. */
  function RAt(p: Plan, price: real): real
    requires Playable(p)
  {
    Move(p, price) / Risk(p)
  }

  function Tranche(k: nat): real {
    if k < 2 then 0.33 else 0.34
  }

  /** R banked by the first `n` tranches. */
  function Banked(p: Plan, n: nat): real
    requires Playable(p) && n <= |p.targets|
  {
    if n == 0 then 0.0 else Banked(p, n - 1) + Tranche(n - 1) * RAt(p, p.targets[n - 1])
  }

  function Remaining(n: nat): real {
    if n == 0 then 1.0 else Remaining(n - 1) - Tranche(n - 1)
  }

  function Round3(x: real): real {
    Rounding.RoundTo(x, 1000.0)
  }

  /** The result when everything still open leaves at `exitR` after `n` banked tranches. */
  function ResultAt(p: Plan, n: nat, exitR: real): real
    requires Playable(p) && n <= |p.targets|
  {
    Round3(Banked(p, n) + Remaining(n) * exitR)
  }

  predicate Touches(b: Bar, price: real) {
    b.low <= price <= b.high
  }

  predicate StopHit(p: Plan, b: Bar, stop: real) {
    if p.direction.Long? then b.low <= stop else b.high >= stop
  }

  predicate TargetHit(p: Plan, b: Bar, target: real) {
    if p.direction.Long? then b.high >= target else b.low <= target
  }

  function NotBefore(t: Trade): int {
    if t.outcome.Pending? || t.filledAt.None? then t.plan.key.createdAt else t.filledAt.value
  }

  function Settled(t: Trade, outcome: Outcome, r: Option<real>, ts: int): Trade {
    t.(outcome := outcome, realizedR := r, exitTs := Some(ts))
  }

  /** Waiting for the limit: expire, fill, or fill and be stopped within the same bar. */
  function AdvancePending(t: Trade, b: Bar): Trade {
    if b.ts > t.plan.validUntil then t.(outcome := ExpiredUnfilled, exitTs := Some(b.ts))
    else if Touches(b, t.plan.entry) then
      var filled := t.(filledAt := Some(b.ts), outcome := Open);
      if StopHit(t.plan, b, t.plan.initialStop) then Settled(filled, Stopped, Some(-1.0), b.ts) else filled
    else t
  }

  function Excursions(t: Trade, b: Bar): Trade
    requires Playable(t.plan)
  {
    var long := t.plan.direction.Long?;
    var favourable := RAt(t.plan, if long then b.high else b.low);
    var adverse := RAt(t.plan, if long then b.low else b.high);
    t.(mfeR := Max(t.mfeR, favourable), maeR := Min(t.maeR, adverse))
  }

  /** How many tranches are out after this bar: targets are taken in order while they are hit. */
  function TranchesAfter(p: Plan, b: Bar, n: nat): (m: nat)
    requires n <= |p.targets|
    ensures n <= m <= |p.targets|
    decreases |p.targets| - n
  {
    if n < |p.targets| && TargetHit(p, b, p.targets[n]) then TranchesAfter(p, b, n + 1) else n
  }

  /** Breakeven once the first tranche is banked. */
  function CurrentStop(t: Trade): real {
    if t.tranches >= 1 then t.plan.entry else t.plan.initialStop
  }

  function AdvanceOpen(t: Trade, b: Bar): Trade
    requires Playable(t.plan) && t.tranches <= |t.plan.targets|
  {
    var p := t.plan;
    var moved := Excursions(t, b);
    var stop := CurrentStop(t);
    if StopHit(p, b, stop) then
      Settled(moved, if t.tranches >= 1 then StoppedAfterBe else Stopped,
              Some(ResultAt(p, t.tranches, RAt(p, stop))), b.ts)
    else
      var n := TranchesAfter(p, b, t.tranches);
      var banked := moved.(tranches := n);
      if n > t.tranches && n == |p.targets| then
        Settled(banked, TpFull, Some(Round3(Banked(p, n))), b.ts)
      else if p.key.horizon.ZeroDte? && b.elapsed >= ZDTE_FLATTEN then
        Settled(banked, FlattenedTime, Some(ResultAt(p, n, RAt(p, b.close))), b.ts)
      else banked
  }

  function Advance(t: Trade, b: Bar): (r: Trade)
    requires Playable(t.plan) && Active(t) && t.tranches <= |t.plan.targets|
    ensures r.plan == t.plan && r.tranches <= |t.plan.targets|
  {
    if b.ts <= NotBefore(t) then t
    else if t.outcome.Pending? then AdvancePending(t, b)
    else AdvanceOpen(t, b)
  }

  // ----- results by outcome -----

  /** Three targets in order beyond the entry, the stop on the other side. */
  predicate Geometry(p: Plan) {
    && |p.targets| == 3
    && if p.direction.Long? then p.initialStop < p.entry < p.targets[0] <= p.targets[1] <= p.targets[2]
       else p.initialStop > p.entry > p.targets[0] >= p.targets[1] >= p.targets[2]
  }

  lemma RAtOrder(p: Plan, a: real, b: real)
    requires Playable(p)
    requires if p.direction.Long? then a <= b else a >= b
    ensures RAt(p, a) <= RAt(p, b)
  {
    Rounding.DivMonotone(Move(p, a), Move(p, b), Risk(p));
  }

  lemma RAtLandmarks(p: Plan)
    requires Playable(p)
    ensures RAt(p, p.entry) == 0.0
    ensures (if p.direction.Long? then p.initialStop < p.entry else p.initialStop > p.entry)
      ==> RAt(p, p.initialStop) == -1.0
  {
    var r := Risk(p);
    assert (-r) / r == -1.0 && 0.0 / r == 0.0;
  }

  lemma BankedThree(p: Plan)
    requires Geometry(p)
    ensures Playable(p)
    ensures Banked(p, 0) == 0.0
    ensures Banked(p, 1) == 0.33 * RAt(p, p.targets[0])
    ensures Banked(p, 2) == 0.33 * RAt(p, p.targets[0]) + 0.33 * RAt(p, p.targets[1])
    ensures Banked(p, 3) == 0.33 * RAt(p, p.targets[0]) + 0.33 * RAt(p, p.targets[1]) + 0.34 * RAt(p, p.targets[2])
    ensures 0.0 <= RAt(p, p.targets[0]) <= RAt(p, p.targets[1]) <= RAt(p, p.targets[2])
    ensures Remaining(0) == 1.0 && Remaining(1) == 0.67 && Remaining(2) == 0.34
  {
    RAtLandmarks(p);
    RAtOrder(p, p.entry, p.targets[0]);
    RAtOrder(p, p.targets[0], p.targets[1]);
    RAtOrder(p, p.targets[1], p.targets[2]);
    assert Banked(p, 1) == Banked(p, 0) + Tranche(0) * RAt(p, p.targets[0]);
    assert Banked(p, 2) == Banked(p, 1) + Tranche(1) * RAt(p, p.targets[1]);
    assert Banked(p, 3) == Banked(p, 2) + Tranche(2) * RAt(p, p.targets[2]);
    assert Remaining(1) == Remaining(0) - Tranche(0);
    assert Remaining(2) == Remaining(1) - Tranche(1);
  }

  /** The result of a plan that takes every target. */
  function FullR(p: Plan): real
    requires Playable(p) && |p.targets| == 3
  {
    Round3(Banked(p, 3))
  }

  /** What a trade may look like, outcome by outcome. */
  predicate TradeInv(t: Trade)
    requires Playable(t.plan) && |t.plan.targets| == 3
  {
    var created := t.plan.key.createdAt;
    && t.tranches <= 3
    && (t.filledAt.Some? ==> created < t.filledAt.value)
    && (t.exitTs.None? <==> Active(t))
    && (t.filledAt.Some? && t.exitTs.Some? ==> t.filledAt.value <= t.exitTs.value)
    && t.maeR <= 0.0 <= t.mfeR
    && (t.tranches >= 1 ==> t.mfeR >= RAt(t.plan, t.plan.targets[t.tranches - 1]))
    && match t.outcome
       case Pending => t.filledAt.None? && t.realizedR.None? && t.tranches == 0
       case Open => t.filledAt.Some? && t.realizedR.None? && t.tranches <= 2
       case ExpiredUnfilled => t.filledAt.None? && t.realizedR.None? && created < t.exitTs.value
       case Stopped => t.filledAt.Some? && t.realizedR == Some(-1.0) && t.tranches == 0
       case StoppedAfterBe =>
         && t.filledAt.Some?
         && 1 <= t.tranches <= 2
         && t.realizedR == Some(Round3(Banked(t.plan, t.tranches)))
         && t.realizedR.value >= 0.0
       case TpFull => t.filledAt.Some? && t.tranches == 3 && t.realizedR == Some(FullR(t.plan))
       case FlattenedTime =>
         && t.filledAt.Some?
         && t.plan.key.horizon.ZeroDte?
         && t.realizedR.Some?
         && -1.0 <= t.realizedR.value <= FullR(t.plan)
  }

  lemma Round3MinusOne()
    ensures Round3(-1.0) == -1.0
  {
    Rounding.RoundToFixed(-1.0, -1000, 1000.0);
  }

  lemma Round3Zero()
    ensures Round3(0.0) == 0.0
  {
    Rounding.RoundToFixed(0.0, 0, 1000.0);
  }

  /** Being stopped costs exactly one R before the first target and nothing after it. */
  lemma StopResult(t: Trade)
    requires Geometry(t.plan) && t.tranches <= 2
    ensures var r := ResultAt(t.plan, t.tranches, RAt(t.plan, CurrentStop(t)));
      && (t.tranches == 0 ==> r == -1.0)
      && (t.tranches >= 1 ==> r == Round3(Banked(t.plan, t.tranches)) && r >= 0.0)
  {
    BankedThree(t.plan);
    RAtLandmarks(t.plan);
    Round3MinusOne();
    Round3Zero();
    if t.tranches >= 1 {
      Rounding.RoundToMonotone(0.0, Banked(t.plan, t.tranches), 1000.0);
    }
  }

  lemma TranchesStop(p: Plan, b: Bar, n: nat)
    requires n <= |p.targets|
    ensures var m := TranchesAfter(p, b, n);
      m < |p.targets| ==> !TargetHit(p, b, p.targets[m])
    decreases |p.targets| - n
  {
  }

  function Blend(n: nat, r1: real, r2: real, r3: real, x: real): real {
    if n == 0 then x else if n == 1 then 0.33 * r1 + 0.67 * x else 0.33 * r1 + 0.33 * r2 + 0.34 * x
  }

  lemma BlendBounds(n: nat, r1: real, r2: real, r3: real, x: real)
    requires n <= 2 && 0.0 <= r1 <= r2 <= r3
    requires -1.0 <= x <= (if n == 0 then r1 else if n == 1 then r2 else r3)
    ensures -1.0 <= Blend(n, r1, r2, r3, x) <= 0.33 * r1 + 0.33 * r2 + 0.34 * r3
  {
  }

  lemma BlendedResult(p: Plan, n: nat, x: real)
    requires Geometry(p) && n <= 2
    ensures Banked(p, n) + Remaining(n) * x
         == Blend(n, RAt(p, p.targets[0]), RAt(p, p.targets[1]), RAt(p, p.targets[2]), x)
  {
    hide RAt;
    BankedThree(p);
    if n == 0 {
      assert Remaining(0) * x == 1.0 * x;
    } else if n == 1 {
      assert Remaining(1) * x == 0.67 * x;
    } else {
      assert Remaining(2) * x == 0.34 * x;
    }
  }

  /** A forced exit between the stop and the next target lies between -1 R and the full result. */
  lemma FlattenResult(p: Plan, n: nat, closeR: real)
    requires Geometry(p) && n <= 2
    requires -1.0 <= closeR <= RAt(p, p.targets[n])
    ensures -1.0 <= ResultAt(p, n, closeR) <= FullR(p)
  {
    hide RAt, Banked, Remaining, Blend;
    BankedThree(p);
    Round3MinusOne();
    BlendBounds(n, RAt(p, p.targets[0]), RAt(p, p.targets[1]), RAt(p, p.targets[2]), closeR);
    BlendedResult(p, n, closeR);
    var r := Banked(p, n) + Remaining(n) * closeR;
    Rounding.RoundToMonotone(-1.0, r, 1000.0);
    Rounding.RoundToMonotone(r, Banked(p, 3), 1000.0);
  }

  /** Not stopped and not at the next target: the close lies in between. */
  lemma CloseBetween(t: Trade, b: Bar)
    requires Geometry(t.plan) && Sane(b) && t.tranches <= 2
    requires !StopHit(t.plan, b, CurrentStop(t))
    ensures var n := TranchesAfter(t.plan, b, t.tranches);
      n <= 2 ==>
        -1.0 <= RAt(t.plan, b.close) <= RAt(t.plan, t.plan.targets[n])
  {
    var p := t.plan;
    var n := TranchesAfter(p, b, t.tranches);
    TranchesStop(p, b, t.tranches);
    RAtLandmarks(p);
    if n <= 2 {
      RAtOrder(p, b.close, p.targets[n]);
    }
    RAtOrder(p, CurrentStop(t), b.close);
  }

  lemma TranchesHit(p: Plan, b: Bar, n: nat)
    requires n <= |p.targets|
    ensures var m := TranchesAfter(p, b, n);
      m > n ==> TargetHit(p, b, p.targets[m - 1])
    decreases |p.targets| - n
  {
  }

  /** A bar that banks a tranche went at least as far as its target. */
  lemma ExcursionReaches(t: Trade, b: Bar)
    requires Playable(t.plan) && t.tranches <= |t.plan.targets|
    ensures var n := TranchesAfter(t.plan, b, t.tranches); var moved := Excursions(t, b);
      && moved.maeR <= t.maeR && t.mfeR <= moved.mfeR
      && (n > t.tranches ==> moved.mfeR >= RAt(t.plan, t.plan.targets[n - 1]))
  {
    hide RAt;
    var p := t.plan;
    var n := TranchesAfter(p, b, t.tranches);
    TranchesHit(p, b, t.tranches);
    if n > t.tranches {
      RAtOrder(p, p.targets[n - 1], if p.direction.Long? then b.high else b.low);
    }
  }

  lemma OpenKeepsInv(t: Trade, b: Bar)
    requires Geometry(t.plan) && Sane(b) && TradeInv(t) && t.outcome.Open? && b.ts > NotBefore(t)
    ensures TradeInv(AdvanceOpen(t, b))
  {
    hide RAt, Banked, ResultAt, Round3, StopHit, TargetHit;
    var p := t.plan;
    ExcursionReaches(t, b);
    if StopHit(p, b, CurrentStop(t)) {
      StopResult(t);
    } else {
      var n := TranchesAfter(p, b, t.tranches);
      if n <= 2 && p.key.horizon.ZeroDte? && b.elapsed >= ZDTE_FLATTEN {
        CloseBetween(t, b);
        FlattenResult(p, n, RAt(p, b.close));
      }
    }
  }

  lemma AdvanceKeepsInv(t: Trade, b: Bar)
    requires Geometry(t.plan) && Sane(b) && TradeInv(t) && Active(t)
    ensures TradeInv(Advance(t, b))
  {
    if b.ts > NotBefore(t) && t.outcome.Open? {
      OpenKeepsInv(t, b);
    }
  }

  // ----- whole lives -----

  /** What the desk does with a trade on any bar: only its own symbol, only while unresolved. */
  function Feed(t: Trade, b: Bar): (r: Trade)
    requires Playable(t.plan) && t.tranches <= |t.plan.targets|
    ensures r.plan == t.plan && r.tranches <= |t.plan.targets|
  {
    if Active(t) && b.symbol == t.plan.key.symbol then Advance(t, b) else t
  }

  function FeedAll(t: Trade, bars: seq<Bar>): (r: Trade)
    requires Playable(t.plan) && t.tranches <= |t.plan.targets|
    ensures r.plan == t.plan && r.tranches <= |t.plan.targets|
    decreases |bars|
  {
    if bars == [] then t else FeedAll(Feed(t, bars[0]), bars[1..])
  }

  lemma {:induction false} FeedAllKeepsInv(t: Trade, bars: seq<Bar>)
    requires Geometry(t.plan) && AllSane(bars) && TradeInv(t)
    ensures TradeInv(FeedAll(t, bars))
    decreases |bars|
  {
    hide Advance;
    if bars != [] {
      if Active(t) {
        AdvanceKeepsInv(t, bars[0]);
      }
      FeedAllKeepsInv(Feed(t, bars[0]), bars[1..]);
    }
  }

  /**
   * Realized R by outcome, for every plan with three ordered targets and any bars whatever: stopped
   * is exactly -1, stopped after breakeven is what was banked and never a loss, full is the weighted
   * sum of the targets, a forced exit lies in between; fills and exits come in order, and the best
   * excursion covers every banked target.
   */
  lemma ResultByOutcome(p: Plan, bars: seq<Bar>)
    requires Geometry(p) && AllSane(bars)
    ensures var t := FeedAll(NewTrade(p), bars);
      && (t.outcome.Stopped? ==> t.realizedR == Some(-1.0))
      && (t.outcome.StoppedAfterBe? ==>
            1 <= t.tranches <= 2 && t.realizedR == Some(Round3(Banked(p, t.tranches))) && t.realizedR.value >= 0.0)
      && (t.outcome.TpFull? ==> t.realizedR == Some(FullR(p)))
      && (t.outcome.FlattenedTime? ==>
            p.key.horizon.ZeroDte? && t.realizedR.Some? && -1.0 <= t.realizedR.value <= FullR(p))
      && (t.realizedR.Some? <==> !Active(t) && !t.outcome.ExpiredUnfilled?)
      && t.maeR <= 0.0 <= t.mfeR && t.tranches <= 3
      && (t.tranches >= 1 ==> t.mfeR >= RAt(p, p.targets[t.tranches - 1]))
      && (t.realizedR.Some? ==>
            t.filledAt.Some? && t.exitTs.Some? && p.key.createdAt < t.filledAt.value <= t.exitTs.value)
  {
    FeedAllKeepsInv(NewTrade(p), bars);
  }
}
