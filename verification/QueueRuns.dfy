/** Runs: any sequence of operations, by any caller, in any order. A raising call changes nothing. */
module QueueRuns {
  import opened Prelude
  import opened Intents
  import opened IntentRules
  import opened IntentSteps
  import opened QueueSpec
  import opened QueueSteps

  datatype Op =
    | OpUpdatePolicy(requested: Policy, liveForMinutes: Option<int>)
    | OpAlert(alert: Alert)
    | OpSelect(id: string, selection: SelectionRequest)
    | OpApprove(id: string)
    | OpReject(id: string)
    | OpCapital(id: string, capital: CapitalRequest)
    | OpClaim(id: string, claim: ClaimRequest)
    | OpBlockSymbol(symbol: string)
    | OpExpire
    | OpReceipt(id: string, receipt: Receipt)
    | OpSimulate(id: string, simulation: SimulationReceipt)

  datatype Call = Call(op: Op, env: Env)

  ghost function Attempt(s: State, c: Call): Result<State, Error> {
    match c.op
    case OpUpdatePolicy(requested, liveFor) => UpdatePolicy(s, requested, liveFor, c.env.now)
    case OpAlert(alert) => Ok(OnAlert(s, alert, c.env))
    case OpSelect(id, req) => AttestSelection(s, id, req, c.env)
    case OpApprove(id) => Approve(s, id, c.env)
    case OpReject(id) => Reject(s, id, c.env)
    case OpCapital(id, req) => AttestCapital(s, id, req, c.env)
    case OpClaim(id, req) => AttemptClaim(s, id, req, c.env)
    case OpBlockSymbol(symbol) => Ok(BlockSymbol(s, symbol, c.env.now))
    case OpExpire => Ok(ExpireStale(s, c.env.now))
    case OpReceipt(id, r) => RecordReceipt(s, id, r, c.env)
    case OpSimulate(id, r) => RecordSimulation(s, id, r, c.env)
  }

  ghost function Exec(s: State, c: Call): State {
    match Attempt(s, c)
    case Ok(t) => t
    case Err(_) => s
  }

  ghost function Run(s: State, calls: seq<Call>): State
    decreases |calls|
  {
    if calls == [] then s else Run(Exec(s, calls[0]), calls[1..])
  }

  /** No intents yet, any policy. */
  function Init(p: Policy): State {
    State(p, map[])
  }

  /** A LIVE or SIMULATION intent entering the queue, or refused and recorded as blocked. */
  ghost predicate Creates(s: State, a: Alert, env: Env, t: State) {
    && a.alertId !in s.intents
    && t == OnAlert(s, a, env)
  }

  /** The four things a call can do. */
  ghost predicate Transition(s: State, c: Call, t: State) {
    || CalmQueue(s.intents, t.intents)
    || (c.op.OpAlert? && Creates(s, c.op.alert, c.env, t))
    || (c.op.OpClaim? && Acquires(s, c.op.id, c.env, t))
    || (c.op.OpReceipt? && FillsLate(s, c.op.id, t))
  }

  lemma QueueUnchanged(s: State)
    requires StateInv(s)
    ensures CalmQueue(s.intents, s.intents)
  {
    hide IntentInv, Evolves, Calm, Steady;
    forall id | id in s.intents ensures GoodStep(s.intents[id], s.intents[id]) && Calm(s.intents[id], s.intents[id]) {
      StayPut(s.intents[id]);
    }
  }

  lemma OperatorCases(s: State, c: Call)
    requires StateInv(s) && Attempt(s, c).Ok?
    requires c.op.OpUpdatePolicy? || c.op.OpAlert? || c.op.OpApprove? || c.op.OpReject? || c.op.OpBlockSymbol?
      || c.op.OpExpire?
    ensures Transition(s, c, Exec(s, c)) && StateInv(Exec(s, c))
  {
    hide CalmQueue, StateInv, OnAlert, Reject, UpdatePolicy, BlockSymbol, ExpireStale;
    match c.op {
      case OpUpdatePolicy(requested, liveFor) =>
        PolicyEffect(s, requested, liveFor, c.env.now);
      case OpAlert(a) =>
        if a.alertId in s.intents {
          KnownAlertEffect(s, a, c.env);
          AlertKeepsPolicy(s, a, c.env);
          CalmKeepsModeSafe(s, OnAlert(s, a, c.env));
        } else {
          NewAlertEffect(s, a, c.env);
        }
      case OpApprove(id) =>
        ApproveEffect(s, id, c.env);
      case OpReject(id) =>
        RejectEffect(s, id, c.env);
        RejectKeepsPolicy(s, id, c.env);
        CalmKeepsModeSafe(s, Exec(s, c));
      case OpBlockSymbol(symbol) =>
        BlockSymbolEffect(s, symbol, c.env.now);
        SweepsKeepPolicy(s, symbol, c.env.now);
        CalmKeepsModeSafe(s, Exec(s, c));
      case OpExpire =>
        ExpireEffect(s, c.env.now);
        SweepsKeepPolicy(s, "", c.env.now);
        CalmKeepsModeSafe(s, Exec(s, c));
    }
  }

  lemma AlertKeepsPolicy(s: State, a: Alert, env: Env)
    ensures OnAlert(s, a, env).policy == s.policy
  {
  }

  lemma RejectKeepsPolicy(s: State, id: string, env: Env)
    ensures Reject(s, id, env).Ok? ==> Reject(s, id, env).value.policy == s.policy
  {
  }

  lemma SweepsKeepPolicy(s: State, symbol: string, now: int)
    ensures BlockSymbol(s, symbol, now).policy == s.policy
    ensures ExpireStale(s, now).policy == s.policy
  {
  }

  lemma AgentKeepsPolicy(s: State, c: Call)
    requires c.op.OpSelect? || c.op.OpCapital? || c.op.OpSimulate?
    requires Attempt(s, c).Ok?
    ensures Attempt(s, c).value.policy == s.policy
  {
  }

  lemma AgentCases(s: State, c: Call)
    requires StateInv(s) && Attempt(s, c).Ok?
    requires c.op.OpSelect? || c.op.OpCapital? || c.op.OpClaim? || c.op.OpReceipt? || c.op.OpSimulate?
    ensures Transition(s, c, Exec(s, c)) && StateInv(Exec(s, c))
  {
    hide CalmQueue, StateInv, AttestSelection, AttestCapital, AttemptClaim, RecordReceipt, RecordSimulation, Acquires,
      FillsLate;
    var t := Exec(s, c);
    match c.op {
      case OpSelect(id, req) =>
        SelectionEffect(s, id, req, c.env);
        AgentKeepsPolicy(s, c);
        CalmKeepsModeSafe(s, t);
      case OpCapital(id, req) =>
        CapitalEffect(s, id, req, c.env);
        AgentKeepsPolicy(s, c);
        CalmKeepsModeSafe(s, t);
      case OpClaim(id, req) =>
        ClaimCases(s, id, req, c.env);
        if CalmQueue(s.intents, t.intents) {
          CalmKeepsModeSafe(s, t);
        } else {
          AcquireEffect(s, id, c.env, t);
        }
      case OpReceipt(id, r) =>
        ReceiptCases(s, id, r, c.env);
        if CalmQueue(s.intents, t.intents) {
          CalmKeepsModeSafe(s, t);
        } else {
          LateFillEffect(s, id, t);
        }
      case OpSimulate(id, r) =>
        SimulationEffect(s, id, r, c.env);
        AgentKeepsPolicy(s, c);
        CalmKeepsModeSafe(s, t);
    }
  }

  lemma StepCases(s: State, c: Call)
    requires StateInv(s)
    ensures Transition(s, c, Exec(s, c)) && StateInv(Exec(s, c))
  {
    hide CalmQueue, StateInv, Attempt;
    if Attempt(s, c).Err? {
      QueueUnchanged(s);
    } else if c.op.OpSelect? || c.op.OpCapital? || c.op.OpClaim? || c.op.OpReceipt? || c.op.OpSimulate? {
      AgentCases(s, c);
    } else {
      OperatorCases(s, c);
    }
  }

  lemma StepOnward(s: State, c: Call)
    requires StateInv(s)
    ensures Onward(s.intents, Exec(s, c).intents)
  {
    hide IntentInv, Evolves, Calm, ModeSafe, Attempt, Acquires, OnAlert;
    StepCases(s, c);
    var t := Exec(s, c);
    if CalmQueue(s.intents, t.intents) {
      CalmKeepsGood(s.intents, t.intents);
    } else if c.op.OpAlert? {
      NewAlertEffect(s, c.op.alert, c.env);
    } else if c.op.OpClaim? {
      AcquireEffect(s, c.op.id, c.env, t);
    } else {
      LateFillEffect(s, c.op.id, t);
    }
  }

  /** Every run keeps the rules, loses no intent and only moves intents forward. */
  lemma {:induction false} RunOnward(s: State, calls: seq<Call>)
    requires StateInv(s)
    ensures StateInv(Run(s, calls)) && Onward(s.intents, Run(s, calls).intents)
    decreases |calls|
  {
    hide Evolves, IntentInv, Exec, ModeSafe;
    if calls == [] {
      QueueUnchanged(s);
      CalmKeepsGood(s.intents, s.intents);
    } else {
      var t := Exec(s, calls[0]);
      StepCases(s, calls[0]);
      StepOnward(s, calls[0]);
      RunOnward(t, calls[1..]);
      var u := Run(t, calls[1..]);
      forall id | id in s.intents ensures id in u.intents && Evolves(s.intents[id], u.intents[id]) {
        AuthorityOf(s, id);
        AuthorityOf(t, id);
        AuthorityOf(u, id);
        EvolvesTransitive(s.intents[id], t.intents[id], u.intents[id]);
      }
    }
  }

  lemma AuthorityOf(s: State, id: string)
    requires StateInv(s) && id in s.intents
    ensures AuthorityInv(s.intents[id])
  {
  }
}
