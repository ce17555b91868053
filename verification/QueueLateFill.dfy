/** A concrete run in which a late fill carries a day past its risk cap. */
module QueueLateFill {
  import opened Prelude
  import opened Intents
  import opened QueueSpec
  import opened QueueTotals
  import opened QueueRuns
  import Rounding

  /** LIVE, at most $5 a day and $3 an order, one open intent. */
  const POLICY := Policy(
    Live, Some(100000), 0.5, 300, 500, 1, 0.5, {"QQQ"}, {"TREND"}, {"SWING"}, true, {0}, 0, 0, 0.25, 30, false, 1, 0)

  function At(now: int): Env {
    Env(now, 0, false, true, true)
  }

  /** An equity plan risking $3 for $4 of capital. */
  function Plan(id: string): Alert {
    Alert(id, ActivePlan, false, "QQQ", "TREND", "SWING", 0.9, 300, EquityVehicle, EquityBuy, true, 0, 1000, 400, 50000)
  }

  function Arrive(id: string, t: int): Call {
    Call(OpAlert(Plan(id)), At(t))
  }

  function Review(id: string, t: int): Call {
    Call(OpCapital(id, CapitalRequest(AGENT, 1000, t, "USD", ACCOUNT_SCOPE)), At(t))
  }

  function Take(id: string, t: int): Call {
    Call(OpClaim(id, ClaimRequest(AGENT, 500, t)), At(t))
  }

  function Cancel(id: string, t: int): Call {
    Call(OpReceipt(id, Receipt(Cancelled, t, "", None, None, None, false)), At(t))
  }

  function Fill(id: string, t: int): Call {
    Call(OpReceipt(id, Receipt(Executed, t, "order", None, Some(1), Some(1), false)), At(t))
  }

  function Arrived(id: string, t: int): Intent {
    CreatedIntent(Plan(id), Live, Ready, At(t))
  }

  function Reviewed(id: string, t: int): Intent {
    CheckedIntent(Arrived(id, t), CapitalCheck(1000, t, 500, 400, true), t)
  }

  function Taken(id: string, t: int): Intent {
    ClaimedIntent(Reviewed(id, t), Claim(t, 0, t + 120), t)
  }

  function CancelledOrder(id: string, t: int): Intent {
    Logged(Taken(id, t), BrokerReceipt, Cancelled, t,
           Some(ReceiptRow(Taken(id, t), Cancel(id, t).op.receipt, None)))
  }

  function LateOrder(id: string, t: int, later: int): Intent {
    Logged(CancelledOrder(id, t), BrokerReceipt, Executed, later,
           Some(ReceiptRow(CancelledOrder(id, t), Fill(id, later).op.receipt, None)))
  }

  /** Nothing stands in the way of a new order. */
  ghost predicate Idle(s: State, t: int) {
    && s.policy == POLICY
    && 0 <= t <= 100
    && Total(OpenLive(t), s.intents) == 0
    && Total(Reserved(0), s.intents) == 0
    && Total(Used(0), s.intents) == 0
  }

  lemma ArriveStep(s: State, id: string, t: int)
    requires Idle(s, t) && id !in s.intents
    ensures Exec(s, Arrive(id, t)) == State(POLICY, s.intents[id := Arrived(id, t)])
  {
    hide Total;
    assert AlertAcceptable(POLICY, Plan(id), At(t), true);
  }

  lemma ReviewStep(intents: map<string, Intent>, id: string, t: int)
    requires id in intents && intents[id] == Arrived(id, t)
    ensures Exec(State(POLICY, intents), Review(id, t)) == State(POLICY, intents[id := Reviewed(id, t)])
  {
    Rounding.RoundInteger(500);
    assert CheckFor(POLICY, 400, Review(id, t).op.capital) == CapitalCheck(1000, t, 500, 400, true);
  }

  lemma TakeStep(intents: map<string, Intent>, id: string, t: int)
    requires 0 <= t <= 100
    requires id in intents && intents[id] == Reviewed(id, t)
    requires Total(OpenLive(t), intents - {id}) == 0 && Total(Used(0), intents - {id}) == 0
    ensures Exec(State(POLICY, intents), Take(id, t)) == State(POLICY, intents[id := Taken(id, t)])
  {
    hide Total;
    var s := State(POLICY, intents);
    assert RemainingDailyRisk(s, id, 0) == 500;
    assert CapitalReasonFor(POLICY, intents[id], 500, At(t)).None?;
    assert LeaseEnd(POLICY, intents[id], t) == t + 120;
  }

  /** Arrival, review and claim of one order, in an otherwise idle queue. */
  lemma PlaceOrder(s: State, id: string, t: int)
    requires Idle(s, t) && id !in s.intents
    ensures Exec(Exec(Exec(s, Arrive(id, t)), Review(id, t)), Take(id, t))
         == State(POLICY, s.intents[id := Taken(id, t)])
  {
    hide Total, Exec, Arrived, Reviewed, Taken;
    ArriveStep(s, id, t);
    var a := s.intents[id := Arrived(id, t)];
    ReviewStep(a, id, t);
    var b := a[id := Reviewed(id, t)];
    assert b - {id} == s.intents;
    TakeStep(b, id, t);
    assert b[id := Taken(id, t)] == s.intents[id := Taken(id, t)];
  }

  lemma CancelStep(intents: map<string, Intent>, id: string, t: int)
    requires id in intents && intents[id] == Taken(id, t)
    ensures Exec(State(POLICY, intents), Cancel(id, t)) == State(POLICY, intents[id := CancelledOrder(id, t)])
  {
  }

  lemma FillStep(intents: map<string, Intent>, id: string, t: int, later: int)
    requires id in intents && intents[id] == CancelledOrder(id, t)
    ensures Exec(State(POLICY, intents), Fill(id, later)) == State(POLICY, intents[id := LateOrder(id, t, later)])
  {
  }

  lemma CancelledWeighsNothing(m: Measure, id: string, t: int)
    requires m.OpenLive? || m.Reserved? || m.Used?
    ensures Weight(m, CancelledOrder(id, t)) == 0
  {
  }

  lemma Weights(t: int, later: int)
    ensures Weight(Committed(0), Taken("B", t)) == 300
    ensures Weight(Committed(0), LateOrder("A", t, later)) == 300
  {
  }

  lemma TotalOfTwo(m: Measure, a: Intent, b: Intent)
    ensures Total(m, map["A" := a, "B" := b]) == Weight(m, a) + Weight(m, b)
  {
    hide Weight;
    var empty: map<string, Intent> := map[];
    var one := map["A" := a];
    TotalUpdate(m, empty, "A", a);
    assert empty["A" := a] == one && empty - {"A"} == empty;
    TotalUpdate(m, one, "B", b);
    assert one - {"B"} == one;
    assert one["B" := b] == map["A" := a, "B" := b];
  }

  lemma IdleAfterCancel(t: int, later: int)
    requires 0 <= later <= 100
    ensures Idle(State(POLICY, map["A" := CancelledOrder("A", t)]), later)
  {
    hide Weight;
    var empty: map<string, Intent> := map[];
    var one := map["A" := CancelledOrder("A", t)];
    assert empty["A" := CancelledOrder("A", t)] == one && empty - {"A"} == empty;
    CancelledWeighsNothing(OpenLive(later), "A", t);
    CancelledWeighsNothing(Reserved(0), "A", t);
    CancelledWeighsNothing(Used(0), "A", t);
    TotalUpdate(OpenLive(later), empty, "A", CancelledOrder("A", t));
    TotalUpdate(Reserved(0), empty, "A", CancelledOrder("A", t));
    TotalUpdate(Used(0), empty, "A", CancelledOrder("A", t));
  }

  function Story(): seq<Call> {
    [Arrive("A", 0), Review("A", 0), Take("A", 0), Cancel("A", 0),
     Arrive("B", 10), Review("B", 10), Take("B", 10), Fill("A", 20)]
  }

  /**
   * Order A is claimed, cancelled and replaced by order B; then A turns out filled. With a $5 daily
   * cap all through the run, $6 end up committed on the day.
   */
  lemma LateFillExceedsDailyCap()
    ensures FieldsInBounds(POLICY) && POLICY.maxDailyRisk == 500
    ensures Run(Init(POLICY), Story()).policy == POLICY
    ensures Total(Committed(0), Run(Init(POLICY), Story()).intents) == 600
  {
    hide Exec, Total, Taken, CancelledOrder, LateOrder, Weight;
    var s0 := Init(POLICY);
    assert Idle(s0, 0) by { EmptyIsIdle(); }
    PlaceOrder(s0, "A", 0);
    var s3 := State(POLICY, s0.intents["A" := Taken("A", 0)]);
    CancelStep(s3.intents, "A", 0);
    var s4 := State(POLICY, map["A" := CancelledOrder("A", 0)]);
    assert s3.intents["A" := CancelledOrder("A", 0)] == s4.intents;
    IdleAfterCancel(0, 10);
    PlaceOrder(s4, "B", 10);
    var s7 := State(POLICY, map["A" := CancelledOrder("A", 0), "B" := Taken("B", 10)]);
    assert s4.intents["B" := Taken("B", 10)] == s7.intents;
    FillStep(s7.intents, "A", 0, 20);
    var s8 := State(POLICY, map["A" := LateOrder("A", 0, 20), "B" := Taken("B", 10)]);
    assert s7.intents["A" := LateOrder("A", 0, 20)] == s8.intents;
    StoryUnfolds(s0);
    TotalOfTwo(Committed(0), LateOrder("A", 0, 20), Taken("B", 10));
    Weights(0, 20);
    Weights(10, 20);
  }

  lemma EmptyIsIdle()
    ensures Idle(Init(POLICY), 0)
  {
  }

  lemma StoryUnfolds(s: State)
    ensures Run(s, Story())
         == Exec(Exec(Exec(Exec(Exec(Exec(Exec(Exec(s, Arrive("A", 0)), Review("A", 0)), Take("A", 0)), Cancel("A", 0)),
                                Arrive("B", 10)), Review("B", 10)), Take("B", 10)), Fill("A", 20))
  {
    hide Exec;
    var c := Story();
    var s1 := Exec(s, c[0]);
    var s2 := Exec(s1, c[1]);
    var s3 := Exec(s2, c[2]);
    var s4 := Exec(s3, c[3]);
    RunFour(s, c);
    RunFour(s4, c[4..]);
    assert c[4..][4..] == [];
  }

  lemma RunFour(s: State, c: seq<Call>)
    requires |c| >= 4
    ensures Run(s, c) == Run(Exec(Exec(Exec(Exec(s, c[0]), c[1]), c[2]), c[3]), c[4..])
  {
    hide Exec;
    var s1 := Exec(s, c[0]);
    var s2 := Exec(s1, c[1]);
    var s3 := Exec(s2, c[2]);
    assert Run(s, c) == Run(s1, c[1..]);
    assert Run(s1, c[1..]) == Run(s2, c[1..][1..]);
    assert c[1..][1..] == c[2..];
    assert Run(s2, c[2..]) == Run(s3, c[2..][1..]);
    assert c[2..][1..] == c[3..];
    assert Run(s3, c[3..]) == Run(Exec(s3, c[3]), c[3..][1..]);
    assert c[3..][1..] == c[4..];
  }
}
