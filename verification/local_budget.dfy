// Budget accounting of DualKernelGovernor without a durable backend
// (tenir_governance/composition/governor.py, operations/hold.py, objects/resource.py).
// The specification: each governor call as one fault-free step on values.
module LocalBudget {
  import opened Wrappers
  import opened Lifecycle
  import opened Lattice

  type Key = string
  type ResourceId = string

  // Who asks for what: the passage identity an operation is bound to.
  datatype Who = Who(passage: string, agent: string, action: string)

  datatype Passage = Passage(key: Key, who: Who)

  // `expiry` is the end of the HOLD's temporal bound; None when no bound was declared.
  datatype Op = Op(
    state: OpState,
    who: Who,
    amount: real,
    resource: Option<ResourceId>,
    payload: string,
    reserved: bool,
    committed: bool,
    claimed: bool,
    expiry: Option<real>)

  datatype Pool = Pool(capacity: real, reserved: real, consumed: real)

  datatype State = State(ops: map<Key, Op>, pools: map<ResourceId, Pool>, quarantined: bool)

  datatype Answer = SaysConfirmed | SaysFailed | SaysFailedButViolated | Unresolved

  // Where adjudicate may be left by an exception: before it reserves, or at the registry
  // transition that follows the reservation. Either way the operation stays CREATED.
  datatype Stop = Completes | StopsEarly | StopsLate

  datatype Action =
    | Adjudicate(key: Key, who: Who, resource: Option<ResourceId>, amount: real, payload: string, evidence: Evidence,
                 stop: Stop)
    | EnterHold(key: Key, bound: real, now: real)
    | Dispatch(key: Key, resource: Option<ResourceId>, amount: real, payload: string)
    | Confirm(key: Key)
    | Fail(key: Key, resource: Option<ResourceId>, amount: real)
    | Reconcile(key: Key, answer: Answer)
    | MarkUnknown(key: Key)
    | Resolve(key: Key, passage: Option<Passage>, resource: Option<ResourceId>, amount: real, payload: string,
              evidence: Evidence, sawQuarantine: bool)
    | Escalate(key: Key)
    | Exit(key: Key, approve: bool)
    | ExpireHold(key: Key, now: real)
    | ExpireEscalated(key: Key)
    | SetQuarantine(active: bool)

  // ---------------------------------------------------------------- resource counters

  function Max0(x: real): real { if x < 0.0 then 0.0 else x }

  function Available(p: Pool): real { p.capacity - p.consumed - p.reserved }

  function Reserving(p: Pool, a: real): Pool { p.(reserved := p.reserved + a) }

  function Committing(p: Pool, a: real): Pool { p.(reserved := p.reserved - a, consumed := p.consumed + a) }

  function Releasing(p: Pool, a: real): Pool { p.(reserved := Max0(p.reserved - a)) }

  function Refunding(p: Pool, a: real): Pool { p.(consumed := Max0(p.consumed - a)) }

  // ---------------------------------------------------------------- steps

  predicate InFlight(s: OpState) { s == Dispatching || s == Unknown }

  predicate Budgeted(op: Op) { op.resource.Some? && op.amount > 0.0 }

  function Put(s: State, k: Key, op: Op): State { s.(ops := s.ops[k := op]) }

  function PutPool(s: State, r: ResourceId, p: Pool): State { s.(pools := s.pools[r := p]) }

  // The state change alone, refused when illegal.
  function Transit(s: State, k: Key, to: OpState): State
    requires k in s.ops
  {
    Put(s, k, s.ops[k].(state := Moved(s.ops[k].state, to)))
  }

  // The identity a caller may omit (None, 0) but not contradict.
  predicate SameIdentity(op: Op, resource: Option<ResourceId>, amount: real) {
    (resource.None? || resource == op.resource) && (amount == op.amount || (amount == 0.0 && op.amount > 0.0))
  }

  // What adjudicate does with a CREATED operation once the kernels have been composed;
  // `stopped` when the final transition raises.
  function AfterDecision(s: State, k: Key, d: Decision, stopped: bool): State
    requires k in s.ops
  {
    var op := s.ops[k];
    var fits := op.resource.Some? ==>
      op.resource.value in s.pools && Available(s.pools[op.resource.value]) >= op.amount;
    if !Retains(d) || s.quarantined || !fits then if stopped then s else Put(s, k, op.(state := Failed))
    else
      var next := if stopped then Created else if d == Hold then Held else Reserved;
      var t := Put(s, k, op.(state := next, reserved := op.resource.Some?));
      if op.resource.Some? then PutPool(t, op.resource.value, Reserving(s.pools[op.resource.value], op.amount)) else t
  }

  function AfterAdjudicate(s: State, k: Key, who: Who, resource: Option<ResourceId>, amount: real,
                           payload: string, evidence: Evidence, stop: Stop): State {
    if amount < 0.0 || (resource.Some? && amount <= 0.0) || k in s.ops then s
    else
      var t := Put(s, k, Op(Created, who, amount, resource, payload, false, false, false, None));
      if stop == StopsEarly then t
      else AfterDecision(t, k, Compose(evidence.(budgetInScope := resource.Some?)), stop == StopsLate)
  }

  // HoldManager.enter_hold, which adjudicate itself calls without a bound.
  function AfterEnterHold(s: State, k: Key, bound: real, now: real): State {
    if k !in s.ops || s.ops[k].state != Created then s
    else Put(s, k, s.ops[k].(state := Held, expiry := if bound > 0.0 then Some(now + bound) else None))
  }

  // What dispatch does with its claim: commit the budget, or fail closed when the pool does
  // not hold it.
  function AfterClaim(s: State, k: Key): State
    requires k in s.ops
  {
    var op := s.ops[k].(claimed := true);
    if !Budgeted(op) || op.resource.value !in s.pools then Put(s, k, op)
    else
      var p := s.pools[op.resource.value];
      if p.reserved < op.amount then Put(s, k, op.(state := Failed))
      else PutPool(Put(s, k, op.(reserved := false, committed := true)), op.resource.value, Committing(p, op.amount))
  }

  function AfterDispatch(s: State, k: Key, resource: Option<ResourceId>, amount: real, payload: string): State {
    if k !in s.ops || payload != s.ops[k].payload || !SameIdentity(s.ops[k], resource, amount) || s.quarantined
       || !Legal(s.ops[k].state, Dispatching) then s
    else AfterClaim(Put(s, k, s.ops[k].(state := Dispatching)), k)
  }

  // Give up what the operation owns and move it to FAILED; nothing changes when the pool
  // is missing or does not cover the amount.
  function AfterSettleFailed(s: State, k: Key): State
    requires k in s.ops
  {
    var op := s.ops[k];
    if !Budgeted(op) || !(op.reserved || op.committed) then Transit(s, k, Failed)
    else if op.resource.value !in s.pools || !Legal(op.state, Failed) then s
    else
      var p := s.pools[op.resource.value];
      if (if op.committed then p.consumed else p.reserved) < op.amount then s
      else PutPool(Put(s, k, op.(state := Failed, reserved := false, committed := false)), op.resource.value,
                   if op.committed then Refunding(p, op.amount) else Releasing(p, op.amount))
  }

  function AfterFail(s: State, k: Key, resource: Option<ResourceId>, amount: real): State {
    if k in s.ops && SameIdentity(s.ops[k], resource, amount) then AfterSettleFailed(s, k) else s
  }

  function AfterReconcile(s: State, k: Key, answer: Answer): State {
    if k !in s.ops || !InFlight(s.ops[k].state) then s
    else match answer
      case SaysConfirmed => Transit(s, k, Confirmed)
      case SaysFailed =>
        if Budgeted(s.ops[k]) && s.ops[k].resource.value !in s.pools then s else AfterSettleFailed(s, k)
      case _ => Transit(s, k, Unknown)
  }

  // _release_hold_budget_before_terminal_transition: None when it reports an error.
  function AfterHoldRelease(s: State, k: Key): Option<State>
    requires k in s.ops
  {
    var op := s.ops[k];
    if op.committed then None
    else if !op.reserved then Some(s)
    else if !Budgeted(op) || op.resource.value !in s.pools then None
    else Some(PutPool(Put(s, k, op.(reserved := false, committed := false)), op.resource.value,
                      Releasing(s.pools[op.resource.value], op.amount)))
  }

  function AfterResolve(s: State, k: Key, passage: Option<Passage>, resource: Option<ResourceId>, amount: real,
                        payload: string, evidence: Evidence, sawQuarantine: bool): State {
    if k !in s.ops || s.ops[k].state != Held || !SameIdentity(s.ops[k], resource, amount)
       || passage != Some(Passage(k, s.ops[k].who)) || payload != s.ops[k].payload || s.quarantined then s
    else
      var op := s.ops[k];
      var d := if sawQuarantine then Hold else Compose(evidence.(budgetInScope := Budgeted(op)));
      if Admits(d) then Transit(s, k, Reserved)
      else if d == HardVeto then
        if Budgeted(op) && op.reserved then
          if op.resource.value !in s.pools || s.pools[op.resource.value].reserved < op.amount then s
          else PutPool(Put(s, k, op.(state := Failed, reserved := false, committed := false)),
                       op.resource.value, Releasing(s.pools[op.resource.value], op.amount))
        else Transit(s, k, Failed)
      else s
  }

  function AfterExit(s: State, k: Key, approve: bool): State {
    if k !in s.ops || s.ops[k].state != Escalated then s
    else if approve then if s.quarantined then s else Transit(s, k, Held)
    else match AfterHoldRelease(s, k)
      case None => s
      case Some(t) => Transit(t, k, Failed)
  }

  predicate Expired(op: Op, now: real) {
    (op.state == Held || op.state == Escalated) && op.expiry.Some? && op.expiry.value <= now
  }

  function AfterExpireHold(s: State, k: Key, now: real): State {
    if k !in s.ops || !Expired(s.ops[k], now) then s
    else match AfterHoldRelease(s, k)
      case None => s
      case Some(t) => if t.ops[k].state == Held then Transit(t, k, Failed) else t
  }

  function Apply(s: State, a: Action): State {
    match a
    case Adjudicate(k, who, resource, amount, payload, evidence, stop) =>
      AfterAdjudicate(s, k, who, resource, amount, payload, evidence, stop)
    case EnterHold(k, bound, now) => AfterEnterHold(s, k, bound, now)
    case Dispatch(k, resource, amount, payload) => AfterDispatch(s, k, resource, amount, payload)
    case Confirm(k) => if k in s.ops && InFlight(s.ops[k].state) then Transit(s, k, Confirmed) else s
    case Fail(k, resource, amount) => AfterFail(s, k, resource, amount)
    case Reconcile(k, answer) => AfterReconcile(s, k, answer)
    case MarkUnknown(k) => if k in s.ops then Transit(s, k, Unknown) else s
    case Resolve(k, passage, resource, amount, payload, evidence, sawQuarantine) =>
      AfterResolve(s, k, passage, resource, amount, payload, evidence, sawQuarantine)
    case Escalate(k) => if k in s.ops && s.ops[k].state == Held then Transit(s, k, Escalated) else s
    case Exit(k, approve) => AfterExit(s, k, approve)
    case ExpireHold(k, now) => AfterExpireHold(s, k, now)
    case ExpireEscalated(k) => if k in s.ops && s.ops[k].state == Escalated then Transit(s, k, Unknown) else s
    case SetQuarantine(active) => s.(quarantined := active)
  }

  function Run(s: State, actions: seq<Action>): State {
    if actions == [] then s else Apply(Run(s, actions[..|actions| - 1]), actions[|actions| - 1])
  }

  // ---------------------------------------------------------------- what is conserved

  datatype Kind = AsReserved | AsCommitted

  function Share(op: Op, r: ResourceId, kind: Kind): real {
    if op.resource == Some(r) && (if kind == AsReserved then op.reserved else op.committed) then op.amount else 0.0
  }

  // The sum of the amounts the registry flags against resource `r`.
  ghost function Total(ops: map<Key, Op>, r: ResourceId, kind: Kind): real
    decreases |ops|
  {
    if ops == map[] then 0.0
    else
      var k :| k in ops;
      Share(ops[k], r, kind) + Total(ops - {k}, r, kind)
  }

  lemma {:induction false} TotalWithout(ops: map<Key, Op>, r: ResourceId, kind: Kind, k: Key)
    requires k in ops
    ensures Total(ops, r, kind) == Share(ops[k], r, kind) + Total(ops - {k}, r, kind)
    decreases |ops|
  {
    var j :| j in ops && Total(ops, r, kind) == Share(ops[j], r, kind) + Total(ops - {j}, r, kind);
    if j != k {
      TotalWithout(ops - {j}, r, kind, k);
      TotalWithout(ops - {k}, r, kind, j);
      assert (ops - {j}) - {k} == (ops - {k}) - {j};
    }
  }

  lemma TotalAfterPut(ops: map<Key, Op>, r: ResourceId, kind: Kind, k: Key, op: Op)
    ensures Total(ops[k := op], r, kind)
         == Total(ops, r, kind) - (if k in ops then Share(ops[k], r, kind) else 0.0) + Share(op, r, kind)
  {
    TotalWithout(ops[k := op], r, kind, k);
    assert ops[k := op] - {k} == ops - {k};
    if k in ops { TotalWithout(ops, r, kind, k); } else { assert ops - {k} == ops; }
  }

  lemma {:induction false} TotalCovers(ops: map<Key, Op>, r: ResourceId, kind: Kind)
    requires forall k :: k in ops ==> ops[k].amount >= 0.0
    ensures Total(ops, r, kind) >= 0.0
    ensures forall k :: k in ops ==> Total(ops, r, kind) >= Share(ops[k], r, kind)
    decreases |ops|
  {
    forall k | k in ops ensures Total(ops, r, kind) >= Share(ops[k], r, kind) >= 0.0 {
      TotalWithout(ops, r, kind, k);
      TotalCovers(ops - {k}, r, kind);
    }
  }

  // Who owns what, by state: a live budgeted operation owns its amount exactly once, as a
  // reservation until it is claimed for dispatch and as a commitment afterwards. Only a
  // CREATED one, whose adjudication did not end, may or may not have its reservation yet.
  predicate OwnsOnce(op: Op) {
    && op.amount >= 0.0
    && (op.resource.Some? ==> op.amount > 0.0)
    && (op.reserved || op.committed ==> op.resource.Some?)
    && (match op.state
        case Created => !op.claimed && !op.committed
        case Failed => !op.reserved && !op.committed
        case Held => !op.claimed && (Budgeted(op) ==> op.reserved && !op.committed)
        case Reserved => !op.claimed && (Budgeted(op) ==> op.reserved && !op.committed)
        case Escalated => !op.claimed && (Budgeted(op) ==> op.reserved && !op.committed)
        case Dispatching => op.claimed && (Budgeted(op) ==> op.committed && !op.reserved)
        case _ => Budgeted(op) ==> op.committed == op.claimed && op.reserved == !op.claimed)
  }

  ghost predicate Balanced(s: State, start: map<ResourceId, real>) {
    && s.pools.Keys == start.Keys
    && (forall r :: r in s.pools ==>
          && s.pools[r].reserved == Total(s.ops, r, AsReserved)
          && s.pools[r].consumed == start[r] + Total(s.ops, r, AsCommitted)
          && start[r] >= 0.0
          && s.pools[r].reserved + s.pools[r].consumed <= s.pools[r].capacity)
    && (forall k :: k in s.ops ==>
          OwnsOnce(s.ops[k]) && Placed(s.ops[k], s.pools))
  }

  // The resource of a live operation exists; one whose adjudication did not end may name
  // any, until it holds a reservation.
  predicate Placed(op: Op, pools: map<ResourceId, Pool>) {
    op.resource.Some? && (op.reserved || op.committed || (op.state != Failed && op.state != Created)) ==>
      op.resource.value in pools
  }

  // Operations that entered HOLD through adjudicate carry no temporal bound.
  predicate Unbounded(s: State) {
    forall k :: k in s.ops ==> s.ops[k].expiry.None?
  }

  ghost predicate Initial(s: State, start: map<ResourceId, real>) {
    && s.ops == map[] && s.pools.Keys == start.Keys
    && forall r :: r in s.pools ==>
         s.pools[r].reserved == 0.0 && s.pools[r].consumed == start[r] && 0.0 <= start[r] <= s.pools[r].capacity
  }

  // One operation changes and its pool follows; everything else stays.
  ghost predicate Follows(s: State, t: State, k: Key) {
    && k in t.ops && t.ops == s.ops[k := t.ops[k]]
    && t.pools.Keys == s.pools.Keys
    && (forall r :: r in s.pools ==>
          && t.pools[r].capacity == s.pools[r].capacity
          && t.pools[r].reserved == s.pools[r].reserved + Share(t.ops[k], r, AsReserved)
               - (if k in s.ops then Share(s.ops[k], r, AsReserved) else 0.0)
          && t.pools[r].consumed == s.pools[r].consumed + Share(t.ops[k], r, AsCommitted)
               - (if k in s.ops then Share(s.ops[k], r, AsCommitted) else 0.0)
          && t.pools[r].reserved + t.pools[r].consumed <= t.pools[r].capacity)
    && OwnsOnce(t.ops[k]) && Placed(t.ops[k], t.pools)
  }

  lemma FollowingKeepsBalance(s: State, t: State, start: map<ResourceId, real>, k: Key)
    requires Balanced(s, start) && Follows(s, t, k)
    ensures Balanced(t, start)
  {
    forall r | r in t.pools
      ensures t.pools[r].reserved == Total(t.ops, r, AsReserved)
      ensures t.pools[r].consumed == start[r] + Total(t.ops, r, AsCommitted)
    {
      TotalAfterPut(s.ops, r, AsReserved, k, t.ops[k]);
      TotalAfterPut(s.ops, r, AsCommitted, k, t.ops[k]);
    }
    forall m | m in t.ops ensures OwnsOnce(t.ops[m]) && Placed(t.ops[m], t.pools) {
      if m != k { assert t.ops[m] == s.ops[m]; }
    }
  }

  // What a pool holds covers every operation charged to it.
  lemma PoolCovers(s: State, start: map<ResourceId, real>, k: Key)
    requires Balanced(s, start) && k in s.ops && Budgeted(s.ops[k]) && s.ops[k].resource.value in s.pools
    ensures s.ops[k].reserved ==> s.pools[s.ops[k].resource.value].reserved >= s.ops[k].amount
    ensures s.ops[k].committed ==> s.pools[s.ops[k].resource.value].consumed >= s.ops[k].amount
  {
    TotalCovers(s.ops, s.ops[k].resource.value, AsReserved);
    TotalCovers(s.ops, s.ops[k].resource.value, AsCommitted);
  }

  function Subject(a: Action): Key
    requires !a.SetQuarantine?
  {
    a.key
  }

  predicate Ready(s: State, k: Key) {
    k in s.ops && Budgeted(s.ops[k]) && s.ops[k].resource.value in s.pools ==>
      var (op, p) := (s.ops[k], s.pools[s.ops[k].resource.value]);
      (op.reserved ==> p.reserved >= op.amount) && (op.committed ==> p.consumed >= op.amount)
  }

  // The two shapes of a step on an existing operation: only its state moves, or its flags
  // and its pool move together.
  lemma MovingFollows(s: State, k: Key, op: Op, start: map<ResourceId, real>)
    requires Balanced(s, start) && k in s.ops && OwnsOnce(op)
    requires op == s.ops[k].(state := op.state, claimed := op.claimed, expiry := op.expiry)
    requires Placed(op, s.pools)
    ensures Follows(s, Put(s, k, op), k)
  {}

  lemma ChargingFollows(s: State, k: Key, op: Op, p: Pool, start: map<ResourceId, real>)
    requires Balanced(s, start) && k in s.ops && OwnsOnce(op)
    requires op.resource.Some? && op.resource == s.ops[k].resource && op.resource.value in s.pools
    requires var (r, was, old') := (op.resource.value, s.ops[k], s.pools[op.resource.value]);
      && p.capacity == old'.capacity && p.reserved + p.consumed <= p.capacity
      && p.reserved == old'.reserved + Share(op, r, AsReserved) - Share(was, r, AsReserved)
      && p.consumed == old'.consumed + Share(op, r, AsCommitted) - Share(was, r, AsCommitted)
    ensures Follows(s, PutPool(Put(s, k, op), op.resource.value, p), k)
  {}

  lemma RegisteringFollows(s: State, k: Key, op: Op, last: Op, start: map<ResourceId, real>)
    requires Balanced(s, start) && k !in s.ops && OwnsOnce(last) && !last.reserved && !last.committed
    requires Placed(last, s.pools)
    ensures Follows(s, Put(Put(s, k, op), k, last), k)
  {
    assert s.ops[k := op][k := last] == s.ops[k := last];
  }

  lemma ReservingFollows(s: State, k: Key, op: Op, last: Op, start: map<ResourceId, real>)
    requires Balanced(s, start) && k !in s.ops && OwnsOnce(last) && last.reserved && !last.committed
    requires last.resource.value in s.pools && Available(s.pools[last.resource.value]) >= last.amount
    ensures var r := last.resource.value;
      Follows(s, PutPool(Put(Put(s, k, op), k, last), r, Reserving(s.pools[r], last.amount)), k)
  {
    assert s.ops[k := op][k := last] == s.ops[k := last];
  }

  lemma DecisionFollows(s: State, k: Key, op: Op, d: Decision, stopped: bool, start: map<ResourceId, real>)
    requires Balanced(s, start) && k !in s.ops
    requires op.state == Created && !op.reserved && !op.committed && !op.claimed
    requires op.amount >= 0.0 && (op.resource.Some? ==> op.amount > 0.0)
    ensures Follows(s, AfterDecision(Put(s, k, op), k, d, stopped), k)
  {
    var t := Put(s, k, op);
    var next := if stopped then Created else if d == Hold then Held else Reserved;
    var given := if stopped then op else op.(state := Failed);
    assert s.ops[k := op][k := given] == s.ops[k := given];
    if AfterDecision(t, k, d, stopped) == Put(t, k, given) {
      RegisteringFollows(s, k, op, given, start);
    } else if op.resource.None? {
      RegisteringFollows(s, k, op, op.(state := next), start);
    } else {
      ReservingFollows(s, k, op, op.(state := next, reserved := true), start);
    }
  }

  lemma AdjudicateFollows(s: State, k: Key, who: Who, resource: Option<ResourceId>, amount: real, payload: string,
                          evidence: Evidence, stop: Stop, start: map<ResourceId, real>)
    requires Balanced(s, start)
    ensures var t := AfterAdjudicate(s, k, who, resource, amount, payload, evidence, stop); t == s || Follows(s, t, k)
  {
    if k !in s.ops && amount >= 0.0 && (resource.Some? ==> amount > 0.0) {
      var op := Op(Created, who, amount, resource, payload, false, false, false, None);
      if stop == StopsEarly {
        assert s.ops[k := op][k := op] == s.ops[k := op];
        RegisteringFollows(s, k, op, op, start);
      } else {
        DecisionFollows(s, k, op, Compose(evidence.(budgetInScope := resource.Some?)), stop == StopsLate, start);
      }
    }
  }

  lemma DispatchFollows(s: State, k: Key, resource: Option<ResourceId>, amount: real, payload: string,
                        start: map<ResourceId, real>)
    requires Balanced(s, start) && Ready(s, k)
    ensures var t := AfterDispatch(s, k, resource, amount, payload); t == s || Follows(s, t, k)
  {
    if k in s.ops && s.ops[k].state == Reserved { ClaimFollows(s, k, start); }
  }

  lemma ClaimFollows(s: State, k: Key, start: map<ResourceId, real>)
    requires Balanced(s, start) && Ready(s, k) && k in s.ops && s.ops[k].state == Reserved
    ensures Follows(s, AfterClaim(Put(s, k, s.ops[k].(state := Dispatching)), k), k)
  {
    var first := s.ops[k].(state := Dispatching);
    var op := first.(claimed := true);
    if Budgeted(op) {
      var last := op.(reserved := false, committed := true);
      assert s.ops[k := first][k := last] == s.ops[k := last];
      ChargingFollows(s, k, last, Committing(s.pools[op.resource.value], op.amount), start);
    } else {
      assert s.ops[k := first][k := op] == s.ops[k := op];
      MovingFollows(s, k, op, start);
    }
  }

  lemma GivingUpFollows(s: State, k: Key, start: map<ResourceId, real>)
    requires Balanced(s, start) && Ready(s, k) && k in s.ops && Budgeted(s.ops[k])
    requires s.ops[k].reserved || s.ops[k].committed
    requires s.ops[k].resource.value in s.pools
    ensures var (op, p) := (s.ops[k], s.pools[s.ops[k].resource.value]);
      Follows(s, PutPool(Put(s, k, op.(state := Failed, reserved := false, committed := false)), op.resource.value,
                         if op.committed then Refunding(p, op.amount) else Releasing(p, op.amount)), k)
  {
    var op, p := s.ops[k], s.pools[s.ops[k].resource.value];
    ChargingFollows(s, k, op.(state := Failed, reserved := false, committed := false),
                    if op.committed then Refunding(p, op.amount) else Releasing(p, op.amount), start);
  }

  lemma SettleFailedFollows(s: State, k: Key, start: map<ResourceId, real>)
    requires Balanced(s, start) && Ready(s, k) && k in s.ops
    ensures var t := AfterSettleFailed(s, k); t == s || Follows(s, t, k)
  {
    var op := s.ops[k];
    if !Budgeted(op) || !(op.reserved || op.committed) {
      MovingFollows(s, k, op.(state := Moved(op.state, Failed)), start);
    } else if op.resource.value in s.pools {
      GivingUpFollows(s, k, start);
    }
  }

  lemma ResolveFollows(s: State, k: Key, passage: Option<Passage>, resource: Option<ResourceId>, amount: real,
                       payload: string, evidence: Evidence, sawQuarantine: bool, start: map<ResourceId, real>)
    requires Balanced(s, start) && Ready(s, k)
    ensures var t := AfterResolve(s, k, passage, resource, amount, payload, evidence, sawQuarantine);
      t == s || Follows(s, t, k)
  {
    if k in s.ops && s.ops[k].state == Held {
      var op := s.ops[k];
      MovingFollows(s, k, op.(state := Reserved), start);
      if Budgeted(op) { GivingUpFollows(s, k, start); } else { MovingFollows(s, k, op.(state := Failed), start); }
    }
  }

  // Ending a HOLD or an ESCALATED operation gives its reservation back and fails it.
  lemma ReleasingFollows(s: State, k: Key, start: map<ResourceId, real>)
    requires Balanced(s, start) && Ready(s, k)
    requires k in s.ops && (s.ops[k].state == Held || s.ops[k].state == Escalated)
    ensures AfterHoldRelease(s, k).Some? && Follows(s, Transit(AfterHoldRelease(s, k).value, k, Failed), k)
  {
    var op := s.ops[k];
    if Budgeted(op) {
      GivingUpFollows(s, k, start);
      assert s.ops[k := op.(reserved := false)][k := op.(reserved := false, state := Failed)]
          == s.ops[k := op.(reserved := false, state := Failed)];
    } else {
      MovingFollows(s, k, op.(state := Failed), start);
    }
  }

  lemma ExitFollows(s: State, k: Key, approve: bool, start: map<ResourceId, real>)
    requires Balanced(s, start) && Ready(s, k)
    ensures var t := AfterExit(s, k, approve); t == s || Follows(s, t, k)
  {
    if k in s.ops && s.ops[k].state == Escalated {
      if approve { MovingFollows(s, k, s.ops[k].(state := Held), start); }
      else { ReleasingFollows(s, k, start); }
    }
  }

  // Moves that do not touch the budget: settling an operation in flight, and the HOLD
  // lifecycle.
  lemma TransitFollows(s: State, k: Key, to: OpState, start: map<ResourceId, real>)
    requires Balanced(s, start) && k in s.ops
    requires to == Unknown || (to == Confirmed && InFlight(s.ops[k].state))
          || (to == Escalated && s.ops[k].state == Held)
    ensures Follows(s, Transit(s, k, to), k)
  {}

  // The two calls that can break the books: expiring an ESCALATED operation that owns a
  // reservation past its bound, and putting into HOLD a CREATED one that owns none.
  predicate Reckless(s: State, a: Action) {
    match a
    case ExpireHold(k, now) =>
      k in s.ops && s.ops[k].state == Escalated && s.ops[k].reserved && Expired(s.ops[k], now)
    case EnterHold(k, _, _) =>
      k in s.ops && s.ops[k].state == Created && Budgeted(s.ops[k]) && !s.ops[k].reserved
    case _ => false
  }

  lemma ApplyFollows(s: State, a: Action, start: map<ResourceId, real>)
    requires Balanced(s, start) && !Reckless(s, a) && !a.SetQuarantine?
    ensures Apply(s, a) == s || Follows(s, Apply(s, a), Subject(a))
  {
    var k := Subject(a);
    if k in s.ops && Budgeted(s.ops[k]) && s.ops[k].resource.value in s.pools { PoolCovers(s, start, k); }
    match a
    case Adjudicate(_, who, resource, amount, payload, evidence, stop) =>
      AdjudicateFollows(s, k, who, resource, amount, payload, evidence, stop, start);
    case EnterHold(_, bound, now) => EnteringFollows(s, k, bound, now, start);
    case Dispatch(_, resource, amount, payload) => DispatchFollows(s, k, resource, amount, payload, start);
    case Resolve(_, passage, resource, amount, payload, evidence, saw) =>
      ResolveFollows(s, k, passage, resource, amount, payload, evidence, saw, start);
    case Exit(_, approve) => ExitFollows(s, k, approve, start);
    case ExpireHold(_, now) => ExpiringFollows(s, k, now, start);
    case Fail(_, _, _) => if k in s.ops { SettleFailedFollows(s, k, start); }
    case Reconcile(_, _) => if k in s.ops { SettleFailedFollows(s, k, start); SettlingFollows(s, k, start); }
    case _ => if k in s.ops { SettlingFollows(s, k, start); }
  }

  lemma EnteringFollows(s: State, k: Key, bound: real, now: real, start: map<ResourceId, real>)
    requires Balanced(s, start) && !Reckless(s, EnterHold(k, bound, now))
    ensures var t := AfterEnterHold(s, k, bound, now); t == s || Follows(s, t, k)
  {
    if k in s.ops && s.ops[k].state == Created { MovingFollows(s, k, AfterEnterHold(s, k, bound, now).ops[k], start); }
  }

  lemma ExpiringFollows(s: State, k: Key, now: real, start: map<ResourceId, real>)
    requires Balanced(s, start) && Ready(s, k) && !Reckless(s, ExpireHold(k, now))
    ensures var t := AfterExpireHold(s, k, now); t == s || Follows(s, t, k)
  {
    if k in s.ops && s.ops[k].state == Held { ReleasingFollows(s, k, start); }
  }

  lemma SettlingFollows(s: State, k: Key, start: map<ResourceId, real>)
    requires Balanced(s, start) && k in s.ops
    ensures Follows(s, Transit(s, k, Unknown), k)
    ensures InFlight(s.ops[k].state) ==> Follows(s, Transit(s, k, Confirmed), k)
    ensures s.ops[k].state == Held ==> Follows(s, Transit(s, k, Escalated), k)
  {
    TransitFollows(s, k, Unknown, start);
    if InFlight(s.ops[k].state) { TransitFollows(s, k, Confirmed, start); }
    if s.ops[k].state == Held { TransitFollows(s, k, Escalated, start); }
  }

  lemma RecklessBreaks(s: State, a: Action, start: map<ResourceId, real>)
    requires Balanced(s, start) && Reckless(s, a)
    ensures !Balanced(Apply(s, a), start)
  {
    var t := Apply(s, a);
    assert !OwnsOnce(t.ops[Subject(a)]);
  }

  // One call keeps the books balanced exactly when it is not reckless, which its caller can
  // read off the record beforehand.
  lemma ApplyBalancesExactly(s: State, a: Action, start: map<ResourceId, real>)
    requires Balanced(s, start)
    ensures Balanced(Apply(s, a), start) <==> !Reckless(s, a)
  {
    if Reckless(s, a) {
      RecklessBreaks(s, a, start);
    } else if !a.SetQuarantine? {
      ApplyFollows(s, a, start);
      if Apply(s, a) != s { FollowingKeepsBalance(s, Apply(s, a), start, Subject(a)); }
    }
  }

  // ---------------------------------------------------------------- every run

  ghost predicate Careful(s: State, actions: seq<Action>) {
    forall i :: 0 <= i < |actions| ==> !Reckless(Run(s, actions[..i]), actions[i])
  }

  ghost predicate AlwaysBalanced(s: State, actions: seq<Action>, start: map<ResourceId, real>) {
    forall n :: 0 <= n <= |actions| ==> Balanced(Run(s, actions[..n]), start)
  }

  lemma RunOneMore(s: State, actions: seq<Action>, i: nat)
    requires i < |actions|
    ensures Run(s, actions[..i + 1]) == Apply(Run(s, actions[..i]), actions[i])
  {
    assert actions[..i + 1][..i] == actions[..i];
  }

  lemma {:induction false} CarefulRunBalances(s: State, actions: seq<Action>, start: map<ResourceId, real>, n: nat)
    requires Balanced(s, start) && Careful(s, actions) && n <= |actions|
    ensures Balanced(Run(s, actions[..n]), start)
  {
    if n > 0 {
      CarefulRunBalances(s, actions, start, n - 1);
      RunOneMore(s, actions, n - 1);
      ApplyBalancesExactly(Run(s, actions[..n - 1]), actions[n - 1], start);
    }
  }

  // From balanced books a run of calls, interrupted adjudications among them, keeps them
  // balanced throughout exactly when none of its calls is reckless.
  lemma BudgetIsConserved(s: State, actions: seq<Action>, start: map<ResourceId, real>)
    requires Balanced(s, start)
    ensures AlwaysBalanced(s, actions, start) <==> Careful(s, actions)
  {
    if Careful(s, actions) {
      forall n | 0 <= n <= |actions| ensures Balanced(Run(s, actions[..n]), start) {
        CarefulRunBalances(s, actions, start, n);
      }
    }
    if AlwaysBalanced(s, actions, start) {
      forall i | 0 <= i < |actions| ensures !Reckless(Run(s, actions[..i]), actions[i]) {
        RunOneMore(s, actions, i);
        ApplyBalancesExactly(Run(s, actions[..i]), actions[i], start);
      }
    }
  }

  lemma InitialBalances(s: State, start: map<ResourceId, real>)
    requires Initial(s, start)
    ensures Balanced(s, start)
  {}

  lemma {:induction false} AdjudicatedStayUnbounded(s: State, actions: seq<Action>, n: nat)
    requires Unbounded(s) && n <= |actions|
    requires forall i :: 0 <= i < |actions| ==> !actions[i].EnterHold?
    ensures Unbounded(Run(s, actions[..n]))
  {
    if n > 0 {
      AdjudicatedStayUnbounded(s, actions, n - 1);
      RunOneMore(s, actions, n - 1);
      ApplyStaysUnbounded(Run(s, actions[..n - 1]), actions[n - 1]);
    }
  }

  lemma AdjudicateStaysUnbounded(s: State, a: Action)
    requires Unbounded(s) && a.Adjudicate?
    ensures Unbounded(Apply(s, a))
  {}

  lemma HoldCallStaysUnbounded(s: State, a: Action)
    requires Unbounded(s) && (a.Resolve? || a.Exit? || a.ExpireHold? || a.Escalate? || a.ExpireEscalated?)
    ensures Unbounded(Apply(s, a))
  {}

  lemma ApplyStaysUnbounded(s: State, a: Action)
    requires Unbounded(s) && !a.EnterHold?
    ensures Unbounded(Apply(s, a))
  {
    if a.Adjudicate? { AdjudicateStaysUnbounded(s, a); }
    else if a.Resolve? || a.Exit? || a.ExpireHold? || a.Escalate? || a.ExpireEscalated? {
      HoldCallStaysUnbounded(s, a);
    }
  }

  lemma AdjudicatedRunsAreCareful(s: State, actions: seq<Action>)
    requires Unbounded(s) && forall i :: 0 <= i < |actions| ==> !actions[i].EnterHold?
    ensures Careful(s, actions)
  {
    forall i | 0 <= i < |actions| ensures !Reckless(Run(s, actions[..i]), actions[i]) {
      AdjudicatedStayUnbounded(s, actions, i);
    }
  }

  // From empty books, for every resource and every run in which operations enter HOLD only
  // through adjudicate: no caller can break them.
  lemma BooksAlwaysBalance(s: State, actions: seq<Action>, start: map<ResourceId, real>)
    requires Initial(s, start)
    requires forall i :: 0 <= i < |actions| ==> !actions[i].EnterHold?
    ensures AlwaysBalanced(s, actions, start)
  {
    InitialBalances(s, start);
    AdjudicatedRunsAreCareful(s, actions);
    BudgetIsConserved(s, actions, start);
  }

  lemma BalancedAtTheEnd(s: State, actions: seq<Action>, start: map<ResourceId, real>)
    requires Initial(s, start) && Careful(s, actions)
    ensures Balanced(Run(s, actions), start)
  {
    InitialBalances(s, start);
    BudgetIsConserved(s, actions, start);
    assert actions[..|actions|] == actions;
  }

  // In particular, after any run with no reckless call before it, expire_hold keeps the books
  // balanced exactly when it does not meet an ESCALATED operation that owns a reservation
  // past its bound.
  lemma ExpiryBalanceExactly(s: State, actions: seq<Action>, start: map<ResourceId, real>, k: Key, now: real)
    requires Initial(s, start) && Careful(s, actions)
    ensures var t := Run(s, actions);
      Balanced(Run(s, actions + [ExpireHold(k, now)]), start)
      <==> !(k in t.ops && t.ops[k].state == Escalated && t.ops[k].reserved && Expired(t.ops[k], now))
  {
    BalancedAtTheEnd(s, actions, start);
    var longer := actions + [ExpireHold(k, now)];
    assert longer[..|longer| - 1] == actions;
    ApplyBalancesExactly(Run(s, actions), ExpireHold(k, now), start);
  }

  // Hence dispatch never finds its reservation gone: a RESERVED operation either stays
  // RESERVED or becomes DISPATCHING with its amount committed.
  lemma DispatchNeverLosesReservation(s: State, actions: seq<Action>, start: map<ResourceId, real>,
                                      k: Key, resource: Option<ResourceId>, amount: real, payload: string)
    requires Initial(s, start) && Careful(s, actions)
    requires var t := Run(s, actions); k in t.ops && t.ops[k].state == Reserved
    ensures var t := Run(s, actions);
      var u := AfterDispatch(t, k, resource, amount, payload);
      && u.ops[k].state != Failed
      && (u != t ==> u.ops[k].state == Dispatching && (Budgeted(t.ops[k]) ==> u.ops[k].committed))
  {
    BalancedAtTheEnd(s, actions, start);
    DispatchKeepsReservation(Run(s, actions), start, k, resource, amount, payload);
  }

  lemma DispatchKeepsReservation(t: State, start: map<ResourceId, real>, k: Key, resource: Option<ResourceId>,
                                 amount: real, payload: string)
    requires Balanced(t, start) && k in t.ops && t.ops[k].state == Reserved
    ensures var u := AfterDispatch(t, k, resource, amount, payload);
      && u.ops[k].state != Failed
      && (u != t ==> u.ops[k].state == Dispatching && (Budgeted(t.ops[k]) ==> u.ops[k].committed))
  {
    if Budgeted(t.ops[k]) { PoolCovers(t, start, k); }
  }

  // On balanced books no call is refused for want of cover. A RESERVED operation is
  // dispatched exactly on its own identity and payload outside quarantine, and then its whole
  // amount has been consumed.
  lemma DispatchOutcome(s: State, start: map<ResourceId, real>, k: Key, resource: Option<ResourceId>, amount: real,
                        payload: string)
    requires Balanced(s, start) && k in s.ops && s.ops[k].state == Reserved
    ensures var t := AfterDispatch(s, k, resource, amount, payload);
      && (t.ops[k].state == Dispatching
          <==> payload == s.ops[k].payload && SameIdentity(s.ops[k], resource, amount) && !s.quarantined)
      && (t.ops[k].state == Dispatching && Budgeted(s.ops[k]) ==>
            var r := s.ops[k].resource.value;
            t.pools[r].consumed == s.pools[r].consumed + s.ops[k].amount && t.ops[k].committed)
  {
    if Budgeted(s.ops[k]) { PoolCovers(s, start, k); }
  }

  // Settling as FAILED always succeeds where it is legal, and gives back all that is owned.
  lemma FailureOutcome(s: State, start: map<ResourceId, real>, k: Key)
    requires Balanced(s, start) && k in s.ops && Legal(s.ops[k].state, Failed)
    ensures var t := AfterSettleFailed(s, k);
      && t.ops[k].state == Failed && !t.ops[k].reserved && !t.ops[k].committed
      && (Budgeted(s.ops[k]) && (s.ops[k].reserved || s.ops[k].committed) ==>
            var r := s.ops[k].resource.value;
            Available(t.pools[r]) == Available(s.pools[r]) + s.ops[k].amount)
  {
    if Budgeted(s.ops[k]) && s.ops[k].resource.value in s.pools { PoolCovers(s, start, k); }
  }

  // Reconciliation ends as the provider said, or leaves an unresolved operation UNKNOWN.
  lemma ReconcileOutcome(s: State, start: map<ResourceId, real>, k: Key, answer: Answer)
    requires Balanced(s, start) && k in s.ops && InFlight(s.ops[k].state)
    ensures AfterReconcile(s, k, answer).ops[k].state ==
      match answer
      case SaysConfirmed => Confirmed
      case SaysFailed => Failed
      case _ => Unknown
  {
    FailureOutcome(s, start, k);
  }

  // A HOLD leaves as re-adjudication says.
  lemma HoldOutcome(s: State, start: map<ResourceId, real>, k: Key, passage: Option<Passage>,
                    resource: Option<ResourceId>, amount: real, payload: string, evidence: Evidence, saw: bool)
    requires Balanced(s, start) && k in s.ops && s.ops[k].state == Held
    ensures var op := s.ops[k];
      var mine := passage == Some(Passage(k, op.who)) && SameIdentity(op, resource, amount) && payload == op.payload;
      var d := if saw || s.quarantined || !mine then Hold else Compose(evidence.(budgetInScope := Budgeted(op)));
      AfterResolve(s, k, passage, resource, amount, payload, evidence, saw).ops[k].state
        == if Admits(d) then Reserved else if d == HardVeto then Failed else Held
  {
    if Budgeted(s.ops[k]) { PoolCovers(s, start, k); }
  }

  // ---------------------------------------------------------------- a run that breaks

  function Mine(name: string): Who { Who(name, "agent", "payment") }

  const PASS := Evidence(Some(Pass), Some(Pass), Ratio(0.5), true, 0.85)

  // One adjudication is interrupted at its last transition and its operation then put into
  // HOLD with a bound; it is escalated, outlives the bound, is expired, approved and
  // dispatched, beside an operation that was admitted normally.
  const LATE: seq<Action> := [
    Adjudicate("other", Mine("o"), Some("r"), 5.0, "p", PASS, Completes),
    Adjudicate("late", Mine("l"), Some("r"), 5.0, "p", PASS, StopsLate),
    EnterHold("late", 1.0, 0.0),
    Escalate("late"),
    ExpireHold("late", 2.0),
    Exit("late", true),
    Resolve("late", Some(Passage("late", Mine("l"))), None, 0.0, "p", PASS, false),
    Dispatch("late", None, 0.0, "p"),
    Dispatch("other", None, 0.0, "p")]

  function Empty(): State { State(map[], map["r" := Pool(10.0, 0.0, 0.0)], false) }

  function Other(state: OpState, claimed: bool): Op {
    Op(state, Mine("o"), 5.0, Some("r"), "p", true, false, claimed, None)
  }

  function Late(state: OpState, reserved: bool, expiry: Option<real>): Op {
    Op(state, Mine("l"), 5.0, Some("r"), "p", reserved, false, false, expiry)
  }

  function Both(late: Op, reserved: real): State {
    State(map["other" := Other(Reserved, false), "late" := late], map["r" := Pool(10.0, reserved, 0.0)], false)
  }

  lemma LateIsAdmitted()
    ensures Run(Empty(), LATE[..2]) == Both(Late(Created, true, None), 10.0)
  {
    var one := State(map["other" := Other(Reserved, false)], map["r" := Pool(10.0, 5.0, 0.0)], false);
    assert LATE[..0] == [];
    RunOneMore(Empty(), LATE, 0);
    assert Run(Empty(), LATE[..1]).ops == one.ops && Run(Empty(), LATE[..1]).pools == one.pools;
    RunOneMore(Empty(), LATE, 1);
    var two := Both(Late(Created, true, None), 10.0);
    assert Run(Empty(), LATE[..2]).ops == two.ops && Run(Empty(), LATE[..2]).pools == two.pools;
  }

  // Steps that touch only the late operation and the pool.
  lemma LateBecomes(late: Op, reserved: real, next: Op, left: real)
    ensures PutPool(Put(Both(late, reserved), "late", next), "r", Pool(10.0, left, 0.0)) == Both(next, left)
    ensures Put(Both(late, reserved), "late", next) == Both(next, reserved)
  {}

  // Its calls one by one.
  lemma LateIsPutOnHold()
    ensures Apply(Both(Late(Created, true, None), 10.0), LATE[2]) == Both(Late(Held, true, Some(1.0)), 10.0)
  {
    LateBecomes(Late(Created, true, None), 10.0, Late(Held, true, Some(1.0)), 10.0);
  }

  lemma LateEscalates()
    ensures Apply(Both(Late(Held, true, Some(1.0)), 10.0), LATE[3]) == Both(Late(Escalated, true, Some(1.0)), 10.0)
  {
    LateBecomes(Late(Held, true, Some(1.0)), 10.0, Late(Escalated, true, Some(1.0)), 10.0);
  }

  lemma LateExpires()
    ensures Apply(Both(Late(Escalated, true, Some(1.0)), 10.0), LATE[4])
         == Both(Late(Escalated, false, Some(1.0)), 5.0)
  {
    LateBecomes(Late(Escalated, true, Some(1.0)), 10.0, Late(Escalated, false, Some(1.0)), 5.0);
  }

  lemma LateIsHeld()
    ensures Run(Empty(), LATE[..4]) == Both(Late(Escalated, true, Some(1.0)), 10.0)
  {
    LateIsAdmitted();
    RunOneMore(Empty(), LATE, 2);
    LateIsPutOnHold();
    RunOneMore(Empty(), LATE, 3);
    LateEscalates();
  }

  lemma LateIsExpired()
    ensures Run(Empty(), LATE[..5]) == Both(Late(Escalated, false, Some(1.0)), 5.0)
  {
    LateIsHeld();
    RunOneMore(Empty(), LATE, 4);
    LateExpires();
  }

  lemma LateIsApproved()
    ensures Run(Empty(), LATE[..6]) == Both(Late(Held, false, Some(1.0)), 5.0)
  {
    LateIsExpired();
    RunOneMore(Empty(), LATE, 5);
    LateBecomes(Late(Escalated, false, Some(1.0)), 5.0, Late(Held, false, Some(1.0)), 5.0);
  }

  lemma LateIsReserved()
    ensures Run(Empty(), LATE[..7]) == Both(Late(Reserved, false, Some(1.0)), 5.0)
  {
    LateIsApproved();
    RunOneMore(Empty(), LATE, 6);
    LateResolves();
  }

  lemma LateResolves()
    ensures Apply(Both(Late(Held, false, Some(1.0)), 5.0), LATE[6]) == Both(Late(Reserved, false, Some(1.0)), 5.0)
  {
    assert Compose(PASS) == Pass && PASS.(budgetInScope := true) == PASS;
    LateBecomes(Late(Held, false, Some(1.0)), 5.0, Late(Reserved, false, Some(1.0)), 5.0);
  }

  lemma LateSpends()
    ensures var t := Run(Empty(), LATE[..8]);
      && t.ops.Keys == {"other", "late"} && t.ops["other"] == Other(Reserved, false)
      && t.ops["late"].state == Dispatching && t.ops["late"].committed
      && t.pools == map["r" := Pool(10.0, 0.0, 5.0)] && !t.quarantined
  {
    LateIsReserved();
    RunOneMore(Empty(), LATE, 7);
  }

  // From empty books, with one reckless call in it, the run spends the other operation's
  // reservation: the late one is dispatched on it, and the other fails at its own dispatch.
  lemma ExpiredEscalationSpendsForeignReservation()
    ensures Initial(Empty(), map["r" := 0.0])
    ensures Reckless(Run(Empty(), LATE[..4]), LATE[4])
    ensures var t := Run(Empty(), LATE);
      && "late" in t.ops && t.ops["late"].state == Dispatching && t.ops["late"].committed
      && "other" in t.ops && t.ops["other"].state == Failed && t.ops["other"].reserved
  {
    LateIsHeld();
    LateSpends();
    RunOneMore(Empty(), LATE, 8);
    assert LATE[..9] == LATE;
  }

  // A CONFIRMED operation has consumed its budget exactly when it was claimed for
  // dispatch; one confirmed out of an expired escalation keeps a reservation instead.
  lemma ConfirmedConsumesIffDispatched(s: State, actions: seq<Action>, start: map<ResourceId, real>, k: Key)
    requires Initial(s, start) && Careful(s, actions)
    requires var t := Run(s, actions); k in t.ops && t.ops[k].state == Confirmed && Budgeted(t.ops[k])
    ensures var op := Run(s, actions).ops[k]; op.committed == op.claimed && op.reserved == !op.claimed
  {
    BalancedAtTheEnd(s, actions, start);
  }
}
