// The governor's methods on the local budget path, with the registry and the resource
// counters updated in place as the source does. Each is proved to take exactly the step
// that LocalBudget specifies, from any state.
module LocalGovernor {
  import opened Wrappers
  import opened Lifecycle
  import opened Lattice
  import opened LocalBudget

  // objects/resource.py
  class Resource {
    const capacity: real
    var reserved: real
    var consumed: real

    constructor (capacity: real)
      ensures Value() == Pool(capacity, 0.0, 0.0)
    {
      this.capacity := capacity;
      reserved, consumed := 0.0, 0.0;
    }

    function Value(): Pool
      reads this
    {
      Pool(capacity, reserved, consumed)
    }

    method Reserve(amount: real) returns (ok: bool)
      modifies this
      ensures ok == (Available(old(Value())) >= amount)
      ensures Value() == if ok then Reserving(old(Value()), amount) else old(Value())
    {
      ok := capacity - consumed - reserved >= amount;
      if ok { reserved := reserved + amount; }
    }

    method Commit(amount: real) returns (ok: bool)
      modifies this
      ensures ok == (old(reserved) >= amount)
      ensures Value() == if ok then Committing(old(Value()), amount) else old(Value())
    {
      ok := reserved >= amount;
      if ok {
        reserved := reserved - amount;
        consumed := consumed + amount;
      }
    }

    method Release(amount: real)
      modifies this
      ensures Value() == Releasing(old(Value()), amount)
    {
      reserved := if reserved - amount < 0.0 then 0.0 else reserved - amount;
    }

    method Refund(amount: real)
      modifies this
      ensures Value() == Refunding(old(Value()), amount)
    {
      consumed := if consumed - amount < 0.0 then 0.0 else consumed - amount;
    }
  }

  // Several writes of one operation, with its pool changed in between, amount to one.
  lemma LastWriteWins(s: State, k: Key, op: Op, last: Op, r: ResourceId, p: Pool)
    ensures Put(Put(s, k, op), k, last) == Put(s, k, last)
    ensures Put(PutPool(Put(s, k, op), r, p), k, last) == PutPool(Put(s, k, last), r, p)
  {}

  class Governor {
    var registry: map<Key, Op>
    var quarantined: bool
    const resources: map<ResourceId, Resource>

    constructor (resources: map<ResourceId, Resource>)
      ensures this.resources == resources && registry == map[] && !quarantined
    {
      this.resources := resources;
      registry, quarantined := map[], false;
    }

    ghost predicate Valid()
      reads this
    {
      forall r, s :: r in resources && s in resources && r != s ==> resources[r] != resources[s]
    }

    ghost function Books(): State
      reads this, resources.Values
    {
      State(registry, map r | r in resources :: resources[r].Value(), quarantined)
    }

    // One registry write.
    method Write(k: Key, op: Op)
      modifies this`registry
      ensures registry == old(registry)[k := op] && Books() == Put(old(Books()), k, op)
    {
      registry := registry[k := op];
      assert Books().pools == old(Books()).pools;
    }

    // registry.transition_to: compare-and-set on the legal table; RESERVED and
    // DISPATCHING are refused under quarantine.
    method TransitionTo(k: Key, to: OpState) returns (ok: bool)
      requires k in registry
      modifies this`registry
      ensures ok == (Legal(old(registry)[k].state, to) && !(quarantined && (to == Reserved || to == Dispatching)))
      ensures !ok ==> registry == old(registry) && Books() == old(Books())
      ensures ok ==> var op := old(registry)[k].(state := to);
                registry == old(registry)[k := op] && Books() == Put(old(Books()), k, op)
    {
      ok := Legal(registry[k].state, to) && !(quarantined && (to == Reserved || to == Dispatching));
      if ok { Write(k, registry[k].(state := to)); }
    }

    method SetBudgetFlags(k: Key, reserved: bool, committed: bool)
      requires k in registry
      modifies this`registry
      ensures var op := old(registry)[k].(reserved := reserved, committed := committed);
        registry == old(registry)[k := op] && Books() == Put(old(Books()), k, op)
    {
      Write(k, registry[k].(reserved := reserved, committed := committed));
    }

    // A resource's counters, changed under its lock.
    method ReservePool(r: ResourceId, amount: real) returns (ok: bool)
      requires Valid() && r in resources
      modifies resources.Values
      ensures ok == (Available(old(resources[r].Value())) >= amount)
      ensures Books()
           == if ok then PutPool(old(Books()), r, Reserving(old(resources[r].Value()), amount)) else old(Books())
    {
      ok := resources[r].Reserve(amount);
      assert Books().pools == old(Books()).pools[r := resources[r].Value()];
    }

    method CommitPool(r: ResourceId, amount: real) returns (ok: bool)
      requires Valid() && r in resources
      modifies resources.Values
      ensures ok == (old(resources[r].reserved) >= amount)
      ensures Books()
           == if ok then PutPool(old(Books()), r, Committing(old(resources[r].Value()), amount)) else old(Books())
    {
      ok := resources[r].Commit(amount);
      assert Books().pools == old(Books()).pools[r := resources[r].Value()];
    }

    method ReleasePool(r: ResourceId, amount: real)
      requires Valid() && r in resources
      modifies resources.Values
      ensures Books() == PutPool(old(Books()), r, Releasing(old(resources[r].Value()), amount))
    {
      resources[r].Release(amount);
      assert Books().pools == old(Books()).pools[r := resources[r].Value()];
    }

    method RefundPool(r: ResourceId, amount: real)
      requires Valid() && r in resources
      modifies resources.Values
      ensures Books() == PutPool(old(Books()), r, Refunding(old(resources[r].Value()), amount))
    {
      resources[r].Refund(amount);
      assert Books().pools == old(Books()).pools[r := resources[r].Value()];
    }

    // None when the call is left by an exception, which `stop` places.
    method Adjudicate(k: Key, who: Who, resource: Option<ResourceId>, amount: real, payload: string,
                      evidence: Evidence, stop: Stop) returns (decision: Option<Decision>)
      requires Valid()
      modifies this`registry, resources.Values
      ensures Books() == AfterAdjudicate(old(Books()), k, who, resource, amount, payload, evidence, stop)
      ensures (decision.Some? && Admits(decision.value))
        <==> k !in old(registry) && k in registry && registry[k].state == Reserved
    {
      if amount < 0.0 || (resource.Some? && amount <= 0.0) { return Some(HardVeto); }
      if k in registry { return Some(HardVeto); }
      Write(k, Op(Created, who, amount, resource, payload, false, false, false, None));
      if stop == StopsEarly { return None; }
      decision := Settle(k, Compose(evidence.(budgetInScope := resource.Some?)), stop == StopsLate);
    }

    // The rest of adjudicate: quarantine, reservation, and the transition out of CREATED,
    // which raises when `stopped`.
    method Settle(k: Key, composed: Decision, stopped: bool) returns (decision: Option<Decision>)
      requires Valid() && k in registry
      requires registry[k].state == Created && !registry[k].reserved && !registry[k].committed
      modifies this`registry, resources.Values
      ensures Books() == AfterDecision(old(Books()), k, composed, stopped)
      ensures k in registry && ((decision.Some? && Admits(decision.value)) <==> registry[k].state == Reserved)
    {
      var op := registry[k];
      var last := composed;
      if Retains(last) && quarantined { last := HardVeto; }
      if Retains(last) && op.resource.Some? {
        var reserved := ReserveBudget(k, op.resource.value, op.amount);
        if !reserved { last := HardVeto; }
      }
      if stopped { return None; }
      ghost var held := Books();
      var ok := TransitionTo(k, if Admits(last) then Reserved else if last == HardVeto then Failed else Held);
      if held != old(Books()) {
        LastWriteWins(old(Books()), k, held.ops[k], registry[k], op.resource.value, held.pools[op.resource.value]);
      }
      decision := Some(last);
    }

    // HoldManager.enter_hold
    method EnterHold(k: Key, bound: real, now: real) returns (entered: bool)
      modifies this`registry
      ensures Books() == AfterEnterHold(old(Books()), k, bound, now)
      ensures entered <==> k in old(registry) && old(registry)[k].state == Created
    {
      if k !in registry || registry[k].state != Created { return false; }
      Write(k, registry[k].(state := Held, expiry := if bound > 0.0 then Some(now + bound) else None));
      entered := true;
    }

    // _reserve_budget on the local path.
    method ReserveBudget(k: Key, r: ResourceId, amount: real) returns (ok: bool)
      requires Valid() && k in registry
      modifies this`registry, resources.Values
      ensures ok == (r in resources && Available(old(Books()).pools[r]) >= amount)
      ensures Books() == if !ok then old(Books())
                         else Put(PutPool(old(Books()), r, Reserving(old(Books()).pools[r], amount)), k,
                                  old(registry)[k].(reserved := true, committed := false))
    {
      if r !in resources { return false; }
      ok := ReservePool(r, amount);
      if ok { SetBudgetFlags(k, true, false); }
    }

    method Dispatch(k: Key, resource: Option<ResourceId>, amount: real, payload: string) returns (dispatched: bool)
      requires Valid()
      modifies this`registry, resources.Values
      ensures Books() == AfterDispatch(old(Books()), k, resource, amount, payload)
      ensures dispatched <==> k in old(registry) && old(registry)[k].state == Reserved
                              && registry[k].state == Dispatching
    {
      if k !in registry { return false; }
      var op := registry[k];
      if payload != op.payload || !SameIdentity(op, resource, amount) || quarantined { return false; }
      var claimed := TransitionTo(k, Dispatching);
      if claimed { dispatched := SpendClaimed(k); } else { dispatched := false; }
    }

    // What follows the claim: commit the budget, or fail closed when it is not there.
    method SpendClaimed(k: Key) returns (ok: bool)
      requires Valid() && k in registry && registry[k].state == Dispatching
      modifies this`registry, resources.Values
      ensures Books() == AfterClaim(old(Books()), k)
      ensures k in registry && ok == (registry[k].state == Dispatching)
    {
      var op := registry[k].(claimed := true);
      Write(k, op);
      if op.resource.None? || op.amount <= 0.0 || op.resource.value !in resources { return true; }
      ok := CommitBudget(k, op.resource.value, op.amount);
      LastWriteWins(old(Books()), k, op, registry[k], op.resource.value,
                    Committing(old(Books()).pools[op.resource.value], op.amount));
    }

    // The budget half of a local dispatch: revalidate, commit, persist.
    method CommitBudget(k: Key, r: ResourceId, amount: real) returns (ok: bool)
      requires Valid() && k in registry && r in resources && registry[k].state == Dispatching
      modifies this`registry, resources.Values
      ensures ok == (old(Books()).pools[r].reserved >= amount)
      ensures Books() == if ok then Put(PutPool(old(Books()), r, Committing(old(Books()).pools[r], amount)), k,
                                        old(registry)[k].(reserved := false, committed := true))
                         else Put(old(Books()), k, old(registry)[k].(state := Failed))
    {
      if resources[r].reserved < amount {
        var _ := TransitionTo(k, Failed);
        return false;
      }
      ok := CommitPool(r, amount);
      SetBudgetFlags(k, false, true);
    }

    method Confirm(k: Key) returns (confirmed: bool)
      requires Valid()
      modifies this`registry
      ensures Books() == Apply(old(Books()), LocalBudget.Confirm(k))
      ensures confirmed <==> k in old(registry) && InFlight(old(registry)[k].state)
    {
      if k !in registry || !InFlight(registry[k].state) { return false; }
      confirmed := TransitionTo(k, Confirmed);
    }

    // The budget half shared by fail and reconcile_unknown.
    method SettleFailed(k: Key) returns (done: bool)
      requires Valid() && k in registry
      modifies this`registry, resources.Values
      ensures Books() == AfterSettleFailed(old(Books()), k)
      ensures done <==> registry[k].state == Failed && old(registry)[k].state != Failed
    {
      var op := registry[k];
      if op.resource.Some? && op.amount > 0.0 && (op.reserved || op.committed) {
        if op.resource.value !in resources || op.state == Failed || op.state == Confirmed { return false; }
        var pool := resources[op.resource.value];
        if (if op.committed then pool.consumed else pool.reserved) < op.amount { return false; }
        SetBudgetFlags(k, false, false);
        done := TransitionTo(k, Failed);
        assert Books() == Put(old(Books()), k, op.(state := Failed, reserved := false, committed := false));
        if op.committed { RefundPool(op.resource.value, op.amount); }
        else { ReleasePool(op.resource.value, op.amount); }
      } else {
        done := TransitionTo(k, Failed);
      }
    }

    method Fail(k: Key, resource: Option<ResourceId>, amount: real) returns (failed: bool)
      requires Valid()
      modifies this`registry, resources.Values
      ensures Books() == AfterFail(old(Books()), k, resource, amount)
      ensures failed <==> k in old(registry) && old(registry)[k].state != Failed && registry[k].state == Failed
    {
      if k !in registry || !SameIdentity(registry[k], resource, amount) { return false; }
      failed := SettleFailed(k);
    }

    method ReconcileUnknown(k: Key, answer: Answer) returns (reconciled: bool)
      requires Valid()
      modifies this`registry, resources.Values
      ensures Books() == AfterReconcile(old(Books()), k, answer)
      ensures reconciled ==>
        k in registry && registry[k].state == (if answer == SaysConfirmed then Confirmed else Failed)
    {
      if k !in registry || !InFlight(registry[k].state) { return false; }
      match answer
      case SaysConfirmed => reconciled := TransitionTo(k, Confirmed);
      case SaysFailed =>
        if Budgeted(registry[k]) && registry[k].resource.value !in resources { return false; }
        reconciled := SettleFailed(k);
      case _ =>
        var _ := TransitionTo(k, Unknown);
        reconciled := false;
    }

    method ResolveHold(k: Key, passage: Option<Passage>, resource: Option<ResourceId>, amount: real, payload: string,
                       evidence: Evidence, sawQuarantine: bool) returns (resolved: bool)
      requires Valid()
      modifies this`registry, resources.Values
      ensures Books() == AfterResolve(old(Books()), k, passage, resource, amount, payload, evidence, sawQuarantine)
      ensures resolved ==>
        && k in registry && old(registry)[k].state == Held
        && (registry[k].state == Reserved || registry[k].state == Failed)
    {
      if k !in registry || registry[k].state != Held || !SameIdentity(registry[k], resource, amount) { return false; }
      if passage.None? { return false; }
      if passage.value.key != k || passage.value.who != registry[k].who || payload != registry[k].payload {
        return false;
      }
      if quarantined { return false; }
      var op := registry[k];
      var decision := Compose(evidence.(budgetInScope := Budgeted(op)));
      if sawQuarantine { decision := Hold; }
      if Admits(decision) {
        resolved := TransitionTo(k, Reserved);
      } else if decision == HardVeto {
        resolved := VetoHeld(k);
      } else {
        resolved := false;
      }
    }

    // The HARD_VETO branch of _re_adjudicate_hold.
    method VetoHeld(k: Key) returns (ok: bool)
      requires Valid() && k in registry && registry[k].state == Held
      modifies this`registry, resources.Values
      ensures var (s, op) := (old(Books()), old(registry)[k]);
        if !(Budgeted(op) && op.reserved) then ok && Books() == Put(s, k, op.(state := Failed))
        else if op.resource.value !in s.pools || s.pools[op.resource.value].reserved < op.amount
        then !ok && Books() == s
        else ok && Books() == PutPool(Put(s, k, op.(state := Failed, reserved := false, committed := false)),
                                      op.resource.value, Releasing(s.pools[op.resource.value], op.amount))
    {
      var op := registry[k];
      if Budgeted(op) && op.reserved {
        if op.resource.value !in resources || resources[op.resource.value].reserved < op.amount { return false; }
        ok := TransitionTo(k, Failed);
        ReleasePool(op.resource.value, op.amount);
        SetBudgetFlags(k, false, false);
        LastWriteWins(old(Books()), k, op.(state := Failed), registry[k], op.resource.value,
                      Releasing(old(Books()).pools[op.resource.value], op.amount));
      } else {
        ok := TransitionTo(k, Failed);
      }
    }

    // _release_hold_budget_before_terminal_transition
    method ReleaseHoldBudget(k: Key) returns (ok: bool)
      requires Valid() && k in registry
      modifies this`registry, resources.Values
      ensures var t := AfterHoldRelease(old(Books()), k);
        ok == t.Some? && Books() == if ok then t.value else old(Books())
    {
      var op := registry[k];
      if op.committed { return false; }
      if !op.reserved { return true; }
      if !Budgeted(op) || op.resource.value !in resources { return false; }
      ReleasePool(op.resource.value, op.amount);
      SetBudgetFlags(k, false, false);
      return true;
    }

    method AuthorizeExit(k: Key, approve: bool) returns (exited: bool)
      requires Valid()
      modifies this`registry, resources.Values
      ensures Books() == AfterExit(old(Books()), k, approve)
      ensures exited ==> k in registry && registry[k].state == (if approve then Held else Failed)
    {
      if k !in registry || registry[k].state != Escalated { return false; }
      if approve {
        if quarantined { return false; }
        exited := TransitionTo(k, Held);
      } else {
        var released := ReleaseHoldBudget(k);
        if !released { return false; }
        exited := TransitionTo(k, Failed);
      }
    }

    method ExpireHold(k: Key, now: real) returns (expired: bool)
      requires Valid()
      modifies this`registry, resources.Values
      ensures Books() == AfterExpireHold(old(Books()), k, now)
      ensures expired <==> k in old(registry) && old(registry)[k].state == Held && registry[k].state == Failed
    {
      if k !in registry || !Expired(registry[k], now) { return false; }
      var released := ReleaseHoldBudget(k);
      if !released || registry[k].state != Held { return false; }
      expired := TransitionTo(k, Failed);
    }

    method MarkUnknown(k: Key) returns (marked: bool)
      modifies this`registry
      ensures Books() == Apply(old(Books()), LocalBudget.MarkUnknown(k))
      ensures marked <==> k in old(registry) && Legal(old(registry)[k].state, Unknown)
    {
      if k !in registry { return false; }
      marked := TransitionTo(k, Unknown);
    }

    method EscalateHold(k: Key) returns (escalated: bool)
      modifies this`registry
      ensures Books() == Apply(old(Books()), LocalBudget.Escalate(k))
      ensures escalated <==> k in old(registry) && old(registry)[k].state == Held
    {
      if k !in registry || registry[k].state != Held { return false; }
      escalated := TransitionTo(k, Escalated);
    }

    method ExpireEscalated(k: Key) returns (expired: bool)
      modifies this`registry
      ensures Books() == Apply(old(Books()), LocalBudget.ExpireEscalated(k))
      ensures expired <==> k in old(registry) && old(registry)[k].state == Escalated
    {
      if k !in registry || registry[k].state != Escalated { return false; }
      expired := TransitionTo(k, Unknown);
    }

    method SetQuarantine(active: bool)
      modifies this`quarantined
      ensures Books() == Apply(old(Books()), LocalBudget.SetQuarantine(active))
    {
      quarantined := active;
    }
  }
}
