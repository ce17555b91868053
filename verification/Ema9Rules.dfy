/** The EMA9 crossover simulator on values: one bar at a time, in the order of its phases. */
module Ema9Rules {
  import opened Prelude
  import opened Market
  import opened Smoothing
  import opened Indicators
  import Rounding

  datatype Config = Config(
    barSeconds: nat,
    emaPeriod: nat,
    atrPeriod: nat,
    initialStopAtr: real,
    trailAtr: real,
    trailActivationR: real,
    confirmationBars: nat,
    requireEma21: bool,
    cooldownBars: nat,
    allowShort: bool,
    rthOnly: bool,
    flattenClock: int,
    costBps: real,
    stopLimitOffsetAtr: real)

  /** What the configuration checks when it is built. */
  predicate Admissible(c: Config) {
    && c.barSeconds > 0
    && c.emaPeriod >= 2 && c.atrPeriod >= 2
    && c.initialStopAtr > 0.0 && c.trailAtr > 0.0 && c.trailActivationR >= 0.0
    && 1 <= c.confirmationBars <= 3 && c.cooldownBars <= 5
    && c.costBps >= 0.0 && c.stopLimitOffsetAtr >= 0.0
  }

  datatype Side = Buy | Sell

  datatype Position = Position(
    side: Side,
    signalTs: int,
    entryTs: int,
    entry: real,
    initialStop: real,
    currentStop: real,
    risk: real,
    highest: real,
    lowest: real,
    stopUpdates: nat,
    maeR: real,
    mfeR: real)

  datatype Order = Order(side: Side, signalTs: int, atr: real)

  datatype ExitReason = TrailStop | SessionFlatten | CrossBelow | CrossAbove | DataEnd

  datatype SimTrade = SimTrade(
    side: Side,
    signalTs: int,
    entryTs: int,
    exitTs: int,
    entry: real,
    exit: real,
    initialStop: real,
    finalStop: real,
    risk: real,
    reason: ExitReason,
    grossR: real,
    costR: real,
    netR: real,
    stopUpdates: nat,
    gapFallback: bool,
    maeR: real,
    mfeR: real)

  /** The loop's variables; `seen` are the bars processed so far. */
  datatype Sim = Sim(
    seen: seq<Bar>,
    position: Option<Position>,
    pending: Option<Order>,
    cooldown: nat,
    above: nat,
    below: nat,
    trades: seq<SimTrade>)

  const START := Sim([], None, None, 0, 0, 0, [])

  const RTH_SECONDS := 23400     // 09:30 to 16:00
  const OPEN_CLOCK := 34200      // 09:30 as seconds of the day
  const DAY_SECONDS := 86400

  predicate IsRth(b: Bar) {
    0 < b.elapsed <= RTH_SECONDS
  }

  function Clock(elapsed: int): int {
    (elapsed + OPEN_CLOCK) % DAY_SECONDS
  }

  /** The bar's interval contains the flatten time. */
  predicate IsFlattenBar(c: Config, b: Bar) {
    c.barSeconds < DAY_SECONDS && Clock(b.elapsed - c.barSeconds) < c.flattenClock <= Clock(b.elapsed)
  }

  function OpenTs(c: Config, b: Bar): int {
    b.ts - c.barSeconds
  }

  function Round6(x: real): real {
    Rounding.RoundTo(x, 1000000.0)
  }

  /** A move from the entry, positive in the position's favour. */
  function Gain(p: Position, price: real): real {
    if p.side.Buy? then price - p.entry else p.entry - price
  }

  function InR(x: real, risk: real): real
    requires risk > 0.0
  {
    x / risk
  }

  /** So many basis points of the price on either side. */
  function Charge(c: Config, p: Position, price: real): real {
    (p.entry + price) * c.costBps / 10000.0
  }

  function CloseTrade(c: Config, p: Position, exitTs: int, price: real, reason: ExitReason, gap: bool): SimTrade
    requires p.risk > 0.0
  {
    var gross := InR(Gain(p, price), p.risk);
    var cost := InR(Charge(c, p, price), p.risk);
    SimTrade(p.side, p.signalTs, p.entryTs, exitTs, Round6(p.entry), Round6(price), Round6(p.initialStop),
             Round6(p.currentStop), Round6(p.risk), reason, Round6(gross), Round6(cost), Round6(gross - cost),
             p.stopUpdates, gap, Round6(p.maeR), Round6(p.mfeR))
  }

  // ----- phases of a bar -----

  function InitialRisk(c: Config, price: real, atr: real): real {
    Max(price * 0.000001, atr * c.initialStopAtr)
  }

  function OpenPosition(c: Config, o: Order, b: Bar): Position {
    var risk := InitialRisk(c, b.open, o.atr);
    var stop := if o.side.Buy? then b.open - risk else b.open + risk;
    Position(o.side, o.signalTs, OpenTs(c, b), b.open, stop, stop, risk, b.open, b.open, 0, 0.0, 0.0)
  }

  /** A waiting order is filled at the open, unless the session is being flattened or cools down. */
  function Enter(c: Config, s: Sim, b: Bar, cooling: bool): Sim {
    if s.pending.Some? && s.position.None? && !IsFlattenBar(c, b) && !cooling then
      s.(position := Some(OpenPosition(c, s.pending.value, b)), pending := None)
    else s
  }

  predicate Risked(s: Sim) {
    s.position.Some? ==> s.position.value.risk > 0.0
  }

  function FlattenOut(c: Config, s: Sim, b: Bar): Sim
    requires Risked(s)
  {
    if s.position.Some? && IsFlattenBar(c, b) then
      s.(trades := s.trades + [CloseTrade(c, s.position.value, OpenTs(c, b), b.open, SessionFlatten, false)],
         position := None)
    else s
  }

  function Exposed(p: Position, b: Bar): Position
    requires p.risk > 0.0
  {
    var hi, lo := Max(p.highest, b.high), Min(p.lowest, b.low);
    var favourable := if p.side.Buy? then hi - p.entry else p.entry - lo;
    var adverse := if p.side.Buy? then lo - p.entry else p.entry - hi;
    p.(highest := hi, lowest := lo, mfeR := Max(p.mfeR, InR(favourable, p.risk)),
      maeR := Min(p.maeR, InR(adverse, p.risk)))
  }

  predicate StopTriggered(p: Position, b: Bar) {
    if p.side.Buy? then b.low <= p.currentStop else b.high >= p.currentStop
  }

  /** The open is beyond the stop by more than the limit allows. */
  predicate Gapped(p: Position, b: Bar, offset: real) {
    if p.side.Buy? then b.open < p.currentStop - offset else b.open > p.currentStop + offset
  }

  function StopFill(p: Position, b: Bar, offset: real): real {
    if Gapped(p, b, offset) then b.open else p.currentStop
  }

  function StopOffset(c: Config, seen: seq<Bar>): real
    requires c.atrPeriod > 0
  {
    match Atr(seen, c.atrPeriod)
    case None => 0.0
    case Some(atr) => atr * c.stopLimitOffsetAtr
  }

  /** The bar runs over the stop as the previous bar left it. */
  function StopOut(c: Config, s: Sim, b: Bar): Sim
    requires Risked(s) && c.atrPeriod > 0
  {
    if s.position.None? then s
    else
      var p := Exposed(s.position.value, b);
      if StopTriggered(p, b) then
        var offset := StopOffset(c, s.seen);
        s.(trades := s.trades + [CloseTrade(c, p, b.ts, StopFill(p, b, offset), TrailStop, Gapped(p, b, offset))],
           position := None, cooldown := c.cooldownBars)
      else s.(position := Some(p))
  }

  /** The averages at a completed close, once all of them are warm. */
  datatype Reading = Reading(ema: real, ema21: real, atr: real)

  function ReadingOf(c: Config, seen: seq<Bar>): (r: Option<Reading>)
    requires Admissible(c)
    ensures r.Some? <==> |seen| >= c.emaPeriod && |seen| >= 21 && |seen| >= c.atrPeriod
  {
    var ema, ema21, atr := Ema(Closes(seen), c.emaPeriod), Ema(Closes(seen), 21), Atr(seen, c.atrPeriod);
    if ema.Some? && ema21.Some? && atr.Some? then Some(Reading(ema.value, ema21.value, atr.value)) else None
  }

  predicate UpCross(prev: Option<(real, real)>, close: real, ema: real) {
    prev.Some? && prev.value.0 <= prev.value.1 && close > ema
  }

  predicate DownCross(prev: Option<(real, real)>, close: real, ema: real) {
    prev.Some? && prev.value.0 >= prev.value.1 && close < ema
  }

  /** The previous close and average, if there is one. */
  function Before(c: Config, seen: seq<Bar>): Option<(real, real)>
    requires Admissible(c)
  {
    var ema := Ema(Closes(seen), c.emaPeriod);
    if seen != [] && ema.Some? then Some((seen[|seen| - 1].close, ema.value)) else None
  }

  /** How many bars in a row have closed above, and below, since a fresh cross. */
  function Counts(above: nat, below: nat, prev: Option<(real, real)>, close: real, ema: real): (nat, nat) {
    if UpCross(prev, close, ema) then (above + 1, 0)
    else if close > ema then (if above > 0 then above + 1 else 0, 0)
    else if DownCross(prev, close, ema) then (0, below + 1)
    else if close < ema then (0, if below > 0 then below + 1 else 0)
    else (0, 0)
  }

  /** A confirmed cross against the position closes it at the close. */
  function CrossOut(c: Config, s: Sim, b: Bar): Sim
    requires Risked(s)
  {
    if s.position.Some? && s.position.value.side.Buy? && s.below >= c.confirmationBars then
      s.(trades := s.trades + [CloseTrade(c, s.position.value, b.ts, b.close, CrossBelow, false)], position := None)
    else if s.position.Some? && s.position.value.side.Sell? && s.above >= c.confirmationBars then
      s.(trades := s.trades + [CloseTrade(c, s.position.value, b.ts, b.close, CrossAbove, false)], position := None)
    else s
  }

  function Trail(c: Config, p: Position, r: Reading): real {
    if p.side.Buy? then
      var candidate := r.ema - c.trailAtr * r.atr;
      if p.mfeR >= c.trailActivationR then Max(candidate, p.entry) else candidate
    else
      var candidate := r.ema + c.trailAtr * r.atr;
      if p.mfeR >= c.trailActivationR then Min(candidate, p.entry) else candidate
  }

  /** The stop moves only in the position's favour. */
  function Ratcheted(c: Config, p: Position, r: Reading): Position {
    var candidate := Trail(c, p, r);
    if (if p.side.Buy? then candidate > p.currentStop else candidate < p.currentStop)
    then p.(currentStop := candidate, stopUpdates := p.stopUpdates + 1)
    else p
  }

  function Ratchet(c: Config, s: Sim, r: Reading): Sim {
    if s.position.Some? then s.(position := Some(Ratcheted(c, s.position.value, r))) else s
  }

  predicate LongAllowed(c: Config, close: real, ema21: real, prev21: Option<real>) {
    !c.requireEma21 || (close > ema21 && (prev21.None? || ema21 >= prev21.value))
  }

  predicate ShortAllowed(c: Config, close: real, ema21: real, prev21: Option<real>) {
    !c.requireEma21 || (close < ema21 && (prev21.None? || ema21 <= prev21.value))
  }

  /** A confirmed cross leaves an order for the next bar. */
  function Arm(c: Config, s: Sim, b: Bar, r: Reading, prev21: Option<real>): Sim {
    if s.above >= c.confirmationBars && LongAllowed(c, b.close, r.ema21, prev21) then
      s.(pending := Some(Order(Buy, b.ts, r.atr)), above := 0)
    else if s.below >= c.confirmationBars && c.allowShort && ShortAllowed(c, b.close, r.ema21, prev21) then
      s.(pending := Some(Order(Sell, b.ts, r.atr)), below := 0)
    else if s.below >= c.confirmationBars then s.(pending := None)
    else s
  }

  /** Everything from the completed close on; `quiet` says the bar cooled down or was stopped out. */
  function AtClose(c: Config, s: Sim, before: seq<Bar>, b: Bar, quiet: bool): Sim
    requires Admissible(c) && Risked(s)
  {
    var seen := before + [b];
    match ReadingOf(c, seen)
    case None => s.(seen := seen)
    case Some(r) =>
      var counts := Counts(s.above, s.below, Before(c, before), b.close, r.ema);
      var counted := s.(above := counts.0, below := counts.1);
      var held := Ratchet(c, CrossOut(c, counted, b), r);
      var armed := if held.position.None? && !quiet then Arm(c, held, b, r, Ema(Closes(before), 21)) else held;
      armed.(pending := if IsFlattenBar(c, b) then None else armed.pending, seen := seen)
  }

  predicate Stopped(s: Sim, t: Sim) {
    s.position.Some? && t.position.None? && |t.trades| > |s.trades|
  }

  /** One processed bar. */
  function StepBar(c: Config, s: Sim, b: Bar): Sim
    requires Admissible(c) && Risked(s)
    requires s.pending.Some? ==> InitialRisk(c, b.open, s.pending.value.atr) > 0.0
  {
    var cooling := s.cooldown > 0;
    var rested := s.(cooldown := if cooling then s.cooldown - 1 else 0);
    var ready := FlattenOut(c, Enter(c, rested, b, cooling), b);
    var checked := StopOut(c, ready, b);
    AtClose(c, checked, s.seen, b, cooling || (Stopped(ready, checked) && c.cooldownBars > 0))
  }
}
