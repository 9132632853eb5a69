// The two sides of a gated dispatch together: the settlement of budgets and states, and the
// Profile S gate on the same operations by the same workers
// (tenir_governance/composition/governor.py, dispatch and _dispatch_under_quarantine_lock).
module GatedSettlement {
  import opened Wrappers
  import opened Lifecycle
  import opened Lattice
  import opened CommitRecords
  import Gate = CommitGate
  import Rows = CommitAuthority
  import Stores = CommitSafety
  import opened Settlement
  import opened SettlementSafety
  import Payload = SettlementPayload

  // `text` is the canonical text of an amount and `digest` the digest of a payload, as the
  // gate compares them with a request.
  datatype Setting = Setting(gov: Gate.Gov, text: real -> Option<string>, digest: string -> string)

  datatype Joint = Joint(gate: Gate.System, ops: System)

  // What the gate compares with a request comes from the registered record.
  predicate Describes(g: Setting, f: Gate.Fields, r: Record) {
    && f.resource == (if r.resource.Some? then r.resource.value else "")
    && f.amount == g.text(r.amount) && f.payloadDigest == g.digest(r.payload)
  }

  // ---------------------------------------------------------------- joint steps

  // Which calls at the gate a worker can be making. Binding, authorizing and consuming come
  // before the claim, the check under the guard of the claim itself.
  predicate MayCall(ops: System, w: Worker, act: Gate.Act) {
    match act
    case Trust(_) => true
    case Crash => true
    case Register(_, _, _) => false
    case Move(_, _) => false
    case ClaimDispatch => false
    case CheckGate(k) => w in ops.workers && ops.workers[w] == Proc(k, Claiming)
    case _ => Idle(ops, w) || ops.workers[w].pc == AwaitClaim
  }

  predicate AtTheGate(g: Setting, s: Joint, t: Joint, w: Worker, act: Gate.Act) {
    MayCall(s.ops, w, act) && t == Joint(Gate.Do(g.gov, s.gate, w, act), s.ops)
  }

  predicate Registration(g: Setting, s: Joint, t: Joint, w: Worker, k: Key, f: Gate.Fields) {
    && Registers(s.ops, t.ops, w, k)
    && var r := t.ops.cells[k].rec;
    && (r.gated ==> Describes(g, f, r))
    && t.gate == Gate.Do(g.gov, s.gate, w, Gate.Register(k, f, r.gated))
  }

  // What a settlement step does to the gate's view of the operation: nothing, a move of its
  // state, or the claim, which the registry refuses without the recorded consumption.
  predicate Follows(g: Setting, s: Joint, after: Gate.System, w: Worker, k: Key, from: OpState, to: OpState)
    requires k in s.gate.gates
  {
    if from == to then after == s.gate
    else if to == Dispatching then
      && Gate.Holding(s.gate, w) == Gate.Checked(k) && Gate.RegistryAdmits(s.gate.gates[k])
      && after == Gate.Do(g.gov, s.gate, w, Gate.ClaimDispatch)
    else after == Gate.Do(g.gov, s.gate, w, Gate.Move(k, to))
  }

  predicate Advances(g: Setting, s: Joint, t: Joint, w: Worker) {
    && Moves(s.ops, t.ops, w)
    && var k := s.ops.workers[w].key;
    && k in s.gate.gates
    && Follows(g, s, t.gate, w, k, s.ops.cells[k].rec.state, t.ops.cells[k].rec.state)
  }

  ghost predicate Outside(s: Joint, t: Joint) {
    && t.gate == s.gate
    && (|| (exists w: Worker, k: Key :: Starts(s.ops, t.ops, w, k))
        || (exists w: Worker :: Mutates(s.ops, t.ops, w))
        || Quarantines(s.ops, t.ops))
  }

  ghost predicate JointNext(g: Setting, s: Joint, t: Joint) {
    || (exists w: Worker, act: Gate.Act :: AtTheGate(g, s, t, w, act))
    || (exists w: Worker, k: Key, f: Gate.Fields :: Registration(g, s, t, w, k, f))
    || (exists w: Worker :: Advances(g, s, t, w))
    || Outside(s, t)
  }

  ghost predicate JointStepAt(g: Setting, tr: seq<Joint>, i: nat)
    requires 0 < i < |tr|
  {
    JointNext(g, tr[i - 1], tr[i])
  }

  ghost predicate JointRun(g: Setting, tr: seq<Joint>) {
    && |tr| > 0 && Init(tr[0].ops) && tr[0].gate == Gate.Start()
    && forall i :: 0 < i < |tr| ==> JointStepAt(g, tr, i)
  }

  // ---------------------------------------------------------------- projections

  // A joint step is a settlement step or leaves the settlement side alone.
  lemma StepProjects(g: Setting, s: Joint, t: Joint)
    requires JointNext(g, s, t)
    ensures t.ops == s.ops || Next(s.ops, t.ops)
  {
    if w: Worker, act: Gate.Act :| AtTheGate(g, s, t, w, act) {
    } else if w: Worker, k: Key, f: Gate.Fields :| Registration(g, s, t, w, k, f) {
    } else if w: Worker :| Advances(g, s, t, w) {
    } else {
      assert Next(s.ops, t.ops);
    }
  }

  // And a call at the gate, or leaves the gate alone.
  lemma StepProjectsToGate(g: Setting, s: Joint, t: Joint)
    requires JointNext(g, s, t)
    ensures t.gate == s.gate || exists w, act :: t.gate == Gate.Do(g.gov, s.gate, w, act)
  {}

  ghost predicate GateReachable(gov: Gate.Gov, s: Gate.System) {
    exists events :: Gate.Reached(gov, Gate.Start(), events) == s
  }

  lemma GateStepIsReachable(g: Setting, s: Joint, t: Joint)
    requires GateReachable(g.gov, s.gate) && JointNext(g, s, t)
    ensures GateReachable(g.gov, t.gate)
  {
    StepProjectsToGate(g, s, t);
    if t.gate != s.gate {
      var w, act :| t.gate == Gate.Do(g.gov, s.gate, w, act);
      var events :| Gate.Reached(g.gov, Gate.Start(), events) == s.gate;
      Gate.ReachedExtends(g.gov, Gate.Start(), events, Gate.Event(w, act));
    }
  }

  // Both halves of every joint state are reachable on their own, so whatever holds of every
  // run of either protocol holds here.
  lemma {:induction false} BothReachable(g: Setting, tr: seq<Joint>, i: nat)
    requires JointRun(g, tr) && i < |tr|
    ensures Payload.Reachable(tr[i].ops) && GateReachable(g.gov, tr[i].gate)
  {
    if i == 0 {
      assert Run([tr[0].ops]);
      assert Gate.Reached(g.gov, Gate.Start(), []) == tr[0].gate;
    } else {
      BothReachable(g, tr, i - 1);
      assert JointStepAt(g, tr, i);
      StepProjects(g, tr[i - 1], tr[i]);
      if tr[i].ops != tr[i - 1].ops { Payload.NextIsReachable(tr[i - 1].ops, tr[i].ops); }
      GateStepIsReachable(g, tr[i - 1], tr[i]);
    }
  }

  // ---------------------------------------------------------------- the link

  predicate LinkedCell(g: Setting, a: Gate.Gate, c: Cell) {
    && a.state == c.rec.state && a.required == c.rec.gated && a.claimedBy == c.past.winner
    && (c.rec.gated ==> Describes(g, a.fields, c.rec))
  }

  ghost predicate Linked(g: Setting, s: Joint) {
    && s.gate.gates.Keys == s.ops.cells.Keys
    && forall k :: k in s.ops.cells ==> LinkedCell(g, s.gate.gates[k], s.ops.cells[k])
  }

  // The claim is the only step that names a winner, and the only one into DISPATCHING.
  lemma OnlyTheClaimDispatches(w: Worker, q: bool, x: Argument, a: View, b: View)
    requires Good(w, q, a) && WorkerStep(w, q, x, a, b)
    ensures Guarantee(w, a.cell, b.cell)
    ensures b.cell.past.winner == a.cell.past.winner && b.cell.rec.state == Dispatching ==>
      a.cell.rec.state == Dispatching
    ensures b.cell.past.winner != a.cell.past.winner ==>
      && b.cell.past.winner == Some(w) && a.cell.rec.state == Reserved && b.cell.rec.state == Dispatching
      && a.pc == Claiming && Content(x) == a.cell.rec.payload && !q
  {
    StepSound(w, q, x, a, b);
    if b.cell.past.winner != a.cell.past.winner && !DispatchStep(w, q, x, a, b) {
      if SettleStep(w, q, a, b) { Payload.SettleStepAside(w, q, a, b); } else { Payload.OtherStepAside(w, q, a, b); }
    }
  }

  lemma GateCallsLeaveTheLink(g: Setting, s: Joint, t: Joint, w: Worker, act: Gate.Act)
    requires Linked(g, s) && AtTheGate(g, s, t, w, act)
    ensures Linked(g, t)
  {
    var m := Gate.Holding(s.gate, w);
    var written := Gate.Written(g.gov, s.gate, w, m, act);
    if written.Some? { assert LinkedCell(g, s.gate.gates[written.value.0], s.ops.cells[written.value.0]); }
  }

  lemma RegistrationLinks(g: Setting, s: Joint, t: Joint, w: Worker, k: Key, f: Gate.Fields)
    requires Linked(g, s) && Registration(g, s, t, w, k, f)
    ensures Linked(g, t)
  {
    assert t.ops.cells == s.ops.cells[k := t.ops.cells[k]];
  }

  // The one gate such a step writes.
  lemma FollowingLinks(g: Setting, s: Joint, after: Gate.System, w: Worker, k: Key, c: Cell, d: Cell)
    requires k in s.gate.gates && LinkedCell(g, s.gate.gates[k], c)
    requires Follows(g, s, after, w, k, c.rec.state, d.rec.state) && Guarantee(w, c, d)
    requires d.past.winner
          == if c.rec.state != d.rec.state && d.rec.state == Dispatching then Some(w) else c.past.winner
    ensures after.gates.Keys == s.gate.gates.Keys && LinkedCell(g, after.gates[k], d)
    ensures forall m :: m in after.gates && m != k ==> after.gates[m] == s.gate.gates[m]
  {}

  lemma AdvancingLinks(g: Setting, s: Joint, t: Joint, w: Worker)
    requires Inv(s.ops) && Linked(g, s) && Advances(g, s, t, w)
    ensures Linked(g, t)
  {
    var k := s.ops.workers[w].key;
    var (c, d) := (s.ops.cells[k], t.ops.cells[k]);
    OnlyTheClaimDispatches(w, s.ops.quarantined, ArgumentOf(s.ops, w),
                           View(c, s.ops.workers[w].pc, s.ops.guard), View(d, t.ops.workers[w].pc, t.ops.guard));
    FollowingLinks(g, s, t.gate, w, k, c, d);
    OneCellChanged(g, s, t, k);
  }

  lemma OneCellChanged(g: Setting, s: Joint, t: Joint, k: Key)
    requires Linked(g, s) && k in s.ops.cells && k in t.ops.cells && t.ops.cells == s.ops.cells[k := t.ops.cells[k]]
    requires t.gate.gates.Keys == s.gate.gates.Keys && LinkedCell(g, t.gate.gates[k], t.ops.cells[k])
    requires forall m :: m in t.gate.gates && m != k ==> t.gate.gates[m] == s.gate.gates[m]
    ensures Linked(g, t)
  {}

  lemma OutsideLinks(g: Setting, s: Joint, t: Joint)
    requires Linked(g, s) && Outside(s, t)
    ensures Linked(g, t)
  {}

  lemma StepLinks(g: Setting, s: Joint, t: Joint)
    requires Inv(s.ops) && Linked(g, s) && JointNext(g, s, t)
    ensures Linked(g, t)
  {
    if w: Worker, act: Gate.Act :| AtTheGate(g, s, t, w, act) {
      GateCallsLeaveTheLink(g, s, t, w, act);
    } else if w: Worker, k: Key, f: Gate.Fields :| Registration(g, s, t, w, k, f) {
      RegistrationLinks(g, s, t, w, k, f);
    } else if w: Worker :| Advances(g, s, t, w) {
      AdvancingLinks(g, s, t, w);
    } else {
      OutsideLinks(g, s, t);
    }
  }

  // ---------------------------------------------------------------- joint runs

  ghost predicate JointInv(g: Setting, s: Joint) {
    Inv(s.ops) && Payload.PayloadInv(s.ops) && Gate.Inv(g.gov, s.gate) && Linked(g, s)
  }

  lemma ReachableIsSound(s: System)
    requires Payload.Reachable(s)
    ensures Inv(s) && Payload.PayloadInv(s)
  {
    var run :| Run(run) && run[|run| - 1] == s;
    RunKeepsInv(run, |run| - 1);
    Payload.RunKeepsPayload(run, |run| - 1);
  }

  lemma GateReachableIsSound(gov: Gate.Gov, s: Gate.System)
    requires GateReachable(gov, s)
    ensures Gate.Inv(gov, s)
  {
    var events :| Gate.Reached(gov, Gate.Start(), events) == s;
    Gate.RunKeepsInv(gov, Gate.Start(), events);
  }

  lemma {:induction false} JointRunLinks(g: Setting, tr: seq<Joint>, i: nat)
    requires JointRun(g, tr) && i < |tr|
    ensures Linked(g, tr[i])
  {
    if i > 0 {
      JointRunLinks(g, tr, i - 1);
      assert JointStepAt(g, tr, i);
      BothReachable(g, tr, i - 1);
      ReachableIsSound(tr[i - 1].ops);
      StepLinks(g, tr[i - 1], tr[i]);
    }
  }

  lemma JointRunKeepsInv(g: Setting, tr: seq<Joint>, i: nat)
    requires JointRun(g, tr) && i < |tr|
    ensures JointInv(g, tr[i])
  {
    BothReachable(g, tr, i);
    ReachableIsSound(tr[i].ops);
    GateReachableIsSound(g.gov, tr[i].gate);
    JointRunLinks(g, tr, i);
  }

  // ---------------------------------------------------------------- what a dispatch rests on

  // Both rows are in the authority's tables, for this operation, its own claim and the
  // recorded resource, amount and payload, at one trust checkpoint.
  predicate OnRecord(g: Setting, store: Rows.Store, k: Key, q: Request, r: Record) {
    && q.binding.idempotencyKey == k && q.binding.payloadDigest == g.digest(r.payload)
    && Some(q.binding.amount) == g.text(r.amount)
    && q.binding.resource == (if r.resource.Some? then r.resource.value else "")
    && var (a, c) := (Rows.FindAuth(store.auths, q.id), Rows.FindCons(store.cons, q.id));
    && a.Some? && a.value.envelope == q && a.value.decision == Authorized
    && c.Some? && c.value.decision == Consumed && c.value.claim == g.gov.claimId(k, q.id)
    && a.value.body.checkpoint == c.value.body.checkpoint
  }

  lemma ConsumptionIsOnRecord(g: Setting, store: Rows.Store, k: Key, a: Gate.Gate, c: Cell)
    requires Stores.Sound(g.gov.cfg, store) && Gate.GateSound(g.gov, store, k, a) && LinkedCell(g, a, c)
    requires c.rec.gated && Gate.ValidConsumption(g.gov, k, a)
    ensures a.request.Some? && OnRecord(g, store, k, a.request.value, c.rec)
  {
    Gate.RowsBehindReceipts(g.gov, store, a.request.value, a.receipt.value, a.consumption.value);
  }

  // When the provider has been called for a gated operation, both rows are on record for it;
  // the amount it was asked for is the authorized one, and so is the payload it was handed
  // by a call that read the record at its start; and its reservation was committed first.
  lemma GatedEffectIsAuthorized(g: Setting, tr: seq<Joint>, i: nat, k: Key)
    requires JointRun(g, tr) && i < |tr| && k in tr[i].ops.cells
    requires tr[i].ops.cells[k].rec.gated && tr[i].ops.cells[k].past.provider.calls > 0
    ensures k in tr[i].gate.gates && tr[i].gate.gates[k].request.Some?
    ensures var (c, q) := (tr[i].ops.cells[k], tr[i].gate.gates[k].request.value);
      && OnRecord(g, tr[i].gate.store, k, q, c.rec)
      && c.past.provider.calls == 1 && g.text(c.past.provider.amount) == Some(q.binding.amount)
      && c.past.shown.Some?
      && (!c.past.shown.value.early ==> g.digest(c.past.provider.payload) == q.binding.payloadDigest)
      && (Budgeted(c.rec) ==> c.past.funded && c.past.effects.commits == 1)
      && c.past.admission.Some? && Admissible(c.past.admission.value)
  {
    JointRunKeepsInv(g, tr, i);
    var (s, c) := (tr[i], tr[i].ops.cells[k]);
    assert CellInv(c) && Payload.CellPayload(c);
    assert LinkedCell(g, s.gate.gates[k], c) && Gate.GateSound(g.gov, s.gate.store, k, s.gate.gates[k]);
    ConsumptionIsOnRecord(g, s.gate.store, k, s.gate.gates[k], c);
  }

  lemma OthersKeepCell(g: Setting, s: Joint, t: Joint, k: Key)
    requires k in s.ops.cells && k in t.ops.cells && t.ops.cells[k] != s.ops.cells[k]
    ensures !exists w: Worker, act: Gate.Act :: AtTheGate(g, s, t, w, act)
    ensures !exists w: Worker, m: Key, f: Gate.Fields :: Registration(g, s, t, w, m, f)
    ensures !Outside(s, t)
  {}

  lemma WinningStep(g: Setting, s: Joint, t: Joint, k: Key) returns (w: Worker)
    requires JointNext(g, s, t) && k in s.ops.cells && k in t.ops.cells && t.ops.cells[k] != s.ops.cells[k]
    ensures Advances(g, s, t, w) && s.ops.workers[w].key == k
  {
    OthersKeepCell(g, s, t, k);
    w :| Advances(g, s, t, w);
  }

  // What the settlement side of a winning step starts from and ends in.
  lemma WinnerWasReserved(g: Setting, s: Joint, t: Joint, w: Worker)
    requires JointInv(g, s) && Advances(g, s, t, w)
    requires t.ops.cells[s.ops.workers[w].key].past.winner != s.ops.cells[s.ops.workers[w].key].past.winner
    ensures !s.ops.quarantined
    ensures s.ops.cells[s.ops.workers[w].key].rec.state == Reserved
    ensures t.ops.cells[s.ops.workers[w].key].rec.state == Dispatching
  {
    var k := s.ops.workers[w].key;
    OnlyTheClaimDispatches(w, s.ops.quarantined, ArgumentOf(s.ops, w),
                           View(s.ops.cells[k], s.ops.workers[w].pc, s.ops.guard),
                           View(t.ops.cells[k], t.ops.workers[w].pc, t.ops.guard));
  }

  lemma CheckedIsOnRecord(g: Setting, s: Joint, w: Worker, k: Key)
    requires JointInv(g, s) && k in s.ops.cells && s.ops.cells[k].rec.gated
    requires Gate.Holding(s.gate, w) == Gate.Checked(k)
    ensures k in s.gate.gates && s.gate.gates[k].request.Some?
    ensures OnRecord(g, s.gate.store, k, s.gate.gates[k].request.value, s.ops.cells[k].rec)
  {
    assert Gate.WorkerSound(g.gov, s.gate.store, s.gate.gates, s.gate.workers[w]);
    assert LinkedCell(g, s.gate.gates[k], s.ops.cells[k]);
    assert Gate.GateSound(g.gov, s.gate.store, k, s.gate.gates[k]);
    ConsumptionIsOnRecord(g, s.gate.store, k, s.gate.gates[k], s.ops.cells[k]);
  }

  predicate WinsClaim(tr: seq<Joint>, i: nat, k: Key) {
    && 0 < i < |tr| && k in tr[i - 1].ops.cells && k in tr[i].ops.cells
    && tr[i - 1].ops.cells[k].past.winner.None? && tr[i].ops.cells[k].past.winner.Some?
  }

  predicate ClaimIsClean(s: Joint, k: Key) {
    && k in s.ops.cells && !s.ops.quarantined && s.ops.cells[k].rec.state == Reserved
    && s.ops.cells[k].past.admission.Some? && Admissible(s.ops.cells[k].past.admission.value)
  }

  lemma WinningIsAuthorized(g: Setting, s: Joint, t: Joint, w: Worker, k: Key)
    requires JointInv(g, s) && Advances(g, s, t, w) && s.ops.workers[w].key == k
    requires t.ops.cells[k].past.winner != s.ops.cells[k].past.winner
    ensures ClaimIsClean(s, k) && t.ops.cells[k].rec.state == Dispatching
    ensures Gate.Holding(s.gate, w) == Gate.Checked(k)
  {
    WinnerWasReserved(g, s, t, w);
    assert CellInv(s.ops.cells[k]);
  }

  // A claim is clean, and backed by the authority's rows if it is gated.
  predicate ClaimIsBacked(g: Setting, s: Joint, k: Key) {
    && ClaimIsClean(s, k)
    && (s.ops.cells[k].rec.gated ==>
          && k in s.gate.gates && s.gate.gates[k].request.Some?
          && OnRecord(g, s.gate.store, k, s.gate.gates[k].request.value, s.ops.cells[k].rec))
  }

  lemma AdvancingIsBacked(g: Setting, s: Joint, t: Joint, w: Worker, k: Key)
    requires JointInv(g, s) && Advances(g, s, t, w) && s.ops.workers[w].key == k
    requires t.ops.cells[k].past.winner != s.ops.cells[k].past.winner
    ensures ClaimIsBacked(g, s, k) && t.ops.cells[k].rec.state == Dispatching
  {
    WinningIsAuthorized(g, s, t, w, k);
    if s.ops.cells[k].rec.gated { CheckedIsOnRecord(g, s, w, k); }
  }

  lemma WinningStepIsBacked(g: Setting, s: Joint, t: Joint, k: Key)
    requires JointInv(g, s) && JointNext(g, s, t) && k in s.ops.cells && k in t.ops.cells
    requires t.ops.cells[k].past.winner != s.ops.cells[k].past.winner
    ensures ClaimIsBacked(g, s, k) && t.ops.cells[k].rec.state == Dispatching
  {
    var w := WinningStep(g, s, t, k);
    AdvancingIsBacked(g, s, t, w, k);
  }

  lemma StateBefore(g: Setting, tr: seq<Joint>, i: nat) returns (s: Joint, t: Joint)
    requires JointRun(g, tr) && 0 < i < |tr|
    ensures s == tr[i - 1] && t == tr[i] && JointInv(g, s) && JointNext(g, s, t)
  {
    s, t := tr[i - 1], tr[i];
    JointRunKeepsInv(g, tr, i - 1);
    assert JointStepAt(g, tr, i);
  }

  // The step that wins a claim starts from an admitted RESERVED operation outside
  // quarantine, and for a gated one both rows are already on record.
  lemma ClaimIsAuthorized(g: Setting, tr: seq<Joint>, i: nat, k: Key)
    requires JointRun(g, tr) && WinsClaim(tr, i, k)
    ensures ClaimIsBacked(g, tr[i - 1], k) && tr[i].ops.cells[k].rec.state == Dispatching
  {
    var s, t := StateBefore(g, tr, i);
    WinningStepIsBacked(g, s, t, k);
  }

  // Two gated operations with an external effect rest on different consumptions, so one
  // consumption is behind at most one call to the provider.
  lemma OneEffectPerConsumption(g: Setting, tr: seq<Joint>, i: nat, k: Key, l: Key)
    requires JointRun(g, tr) && i < |tr| && k != l && k in tr[i].ops.cells && l in tr[i].ops.cells
    requires tr[i].ops.cells[k].rec.gated && tr[i].ops.cells[k].past.provider.calls > 0
    requires tr[i].ops.cells[l].rec.gated && tr[i].ops.cells[l].past.provider.calls > 0
    ensures k in tr[i].gate.gates && l in tr[i].gate.gates
    ensures tr[i].gate.gates[k].consumption.Some? && tr[i].gate.gates[l].consumption.Some?
    ensures var (c, d) := (tr[i].gate.gates[k].consumption.value.body, tr[i].gate.gates[l].consumption.value.body);
      c.requestId != d.requestId && c.claim != d.claim && c.sequence != d.sequence
    ensures tr[i].ops.cells[k].past.provider.calls == 1 && tr[i].ops.cells[l].past.provider.calls == 1
  {
    JointRunKeepsInv(g, tr, i);
    var s := tr[i];
    assert CellInv(s.ops.cells[k]) && CellInv(s.ops.cells[l]);
    assert LinkedCell(g, s.gate.gates[k], s.ops.cells[k]) && LinkedCell(g, s.gate.gates[l], s.ops.cells[l]);
    assert Gate.GateSound(g.gov, s.gate.store, k, s.gate.gates[k]);
    assert Gate.GateSound(g.gov, s.gate.store, l, s.gate.gates[l]);
    Gate.ConsumptionsDiffer(g.gov, s.gate, k, l);
  }

  // ---------------------------------------------------------------- the order of events

  lemma StepIsWatched(g: Setting, s: Joint, t: Joint)
    requires JointNext(g, s, t)
    ensures Stores.Steps(g.gov.cfg, s.gate.store, t.gate.store)
  {
    StepProjectsToGate(g, s, t);
    if t.gate != s.gate {
      var w, act :| t.gate == Gate.Do(g.gov, s.gate, w, act);
      Gate.StoreWatched(g.gov, s.gate, w, act);
    }
  }

  function StoresOf(tr: seq<Joint>): seq<Rows.Store> {
    seq(|tr|, n requires 0 <= n < |tr| => tr[n].gate.store)
  }

  lemma StoresAreWatched(g: Setting, tr: seq<Joint>)
    requires JointRun(g, tr)
    ensures Stores.Watched(g.gov.cfg, StoresOf(tr))
  {
    forall n | 0 < n < |tr| ensures Stores.StepsAt(g.gov.cfg, StoresOf(tr), n) {
      assert JointStepAt(g, tr, n);
      StepIsWatched(g, tr[n - 1], tr[n]);
    }
  }

  lemma StepGrows(g: Setting, s: Joint, t: Joint)
    requires Gate.Inv(g.gov, s.gate) && JointNext(g, s, t)
    ensures Gate.GatesGrow(s.gate.gates, t.gate.gates)
  {
    StepProjectsToGate(g, s, t);
    if t.gate != s.gate {
      var w, act :| t.gate == Gate.Do(g.gov, s.gate, w, act);
      Gate.DoKeepsInv(g.gov, s.gate, w, act);
    }
  }

  lemma RunStepGrows(g: Setting, tr: seq<Joint>, j: nat)
    requires JointRun(g, tr) && 0 < j < |tr|
    ensures Gate.GatesGrow(tr[j - 1].gate.gates, tr[j].gate.gates)
  {
    var s, t := StateBefore(g, tr, j);
    StepGrows(g, s, t);
  }

  lemma GrowingOn(a: map<string, Gate.Gate>, b: map<string, Gate.Gate>, c: map<string, Gate.Gate>)
    requires Gate.GatesGrow(a, b) && Gate.GatesGrow(b, c)
    ensures Gate.GatesGrow(a, c)
  {}

  lemma {:induction false} RunGrows(g: Setting, tr: seq<Joint>, i: nat, j: nat)
    requires JointRun(g, tr) && i <= j < |tr|
    ensures Gate.GatesGrow(tr[i].gate.gates, tr[j].gate.gates)
    decreases j
  {
    if i < j {
      RunGrows(g, tr, i, j - 1);
      RunStepGrows(g, tr, j);
      GrowingOn(tr[i].gate.gates, tr[j - 1].gate.gates, tr[j].gate.gates);
    }
  }

  lemma NewKeyHasNoWinner(g: Setting, s: Joint, t: Joint, k: Key)
    requires JointNext(g, s, t) && k !in s.ops.cells && k in t.ops.cells
    ensures t.ops.cells[k].past.winner.None?
  {
    if w: Worker, act: Gate.Act :| AtTheGate(g, s, t, w, act) {
    } else if w: Worker, m: Key, f: Gate.Fields :| Registration(g, s, t, w, m, f) {
    } else if w: Worker :| Advances(g, s, t, w) {
    }
  }

  lemma {:induction false} ClaimStep(g: Setting, tr: seq<Joint>, n: nat, k: Key) returns (m: nat)
    requires JointRun(g, tr) && n < |tr| && k in tr[n].ops.cells && tr[n].ops.cells[k].past.winner.Some?
    ensures m <= n && WinsClaim(tr, m, k)
  {
    assert JointStepAt(g, tr, n);
    if k !in tr[n - 1].ops.cells {
      NewKeyHasNoWinner(g, tr[n - 1], tr[n], k);
      m := n;
    } else if tr[n - 1].ops.cells[k].past.winner.Some? {
      m := ClaimStep(g, tr, n - 1, k);
    } else {
      m := n;
    }
  }

  lemma CallNeedsWinner(g: Setting, tr: seq<Joint>, n: nat, k: Key)
    requires JointRun(g, tr) && n < |tr| && k in tr[n].ops.cells
    ensures tr[n].ops.cells[k].past.provider.calls > 0 ==> tr[n].ops.cells[k].past.winner.Some?
    ensures k in tr[n].gate.gates && tr[n].gate.gates[k].required == tr[n].ops.cells[k].rec.gated
  {
    JointRunKeepsInv(g, tr, n);
    assert CellInv(tr[n].ops.cells[k]);
    assert LinkedCell(g, tr[n].gate.gates[k], tr[n].ops.cells[k]);
  }

  // When the authority's rows behind a won claim came about.
  lemma BackedClaimHasWindow(g: Setting, tr: seq<Joint>, m: nat, k: Key) returns (i: nat, j: nat)
    requires JointRun(g, tr) && 0 < m < |tr| && ClaimIsBacked(g, tr[m - 1], k) && tr[m - 1].ops.cells[k].rec.gated
    ensures j + 1 < m
    ensures var q := tr[m - 1].gate.gates[k].request.value; Stores.Window(StoresOf(tr), i, j, q.id, Stores.Bound(q))
  {
    StoresAreWatched(g, tr);
    var actions := Stores.WatchedIsARun(g.gov.cfg, StoresOf(tr));
    i, j := Stores.ConsumedHasWindow(g.gov.cfg, StoresOf(tr), actions, m - 1, tr[m - 1].gate.gates[k].request.value.id);
  }

  // The story behind the provider call of a gated operation: step i recorded the
  // authorization of its request, a later step j the consumption, a later step m won the
  // claim, outside quarantine and with the provider not yet called; and from before i to
  // after j the trust checkpoint was the one the request names, at every moment.
  lemma GatedEffectTimeline(g: Setting, tr: seq<Joint>, n: nat, k: Key) returns (i: nat, j: nat, m: nat)
    requires JointRun(g, tr) && n < |tr| && k in tr[n].ops.cells
    requires tr[n].ops.cells[k].rec.gated && tr[n].ops.cells[k].past.provider.calls > 0
    ensures k in tr[n].gate.gates && tr[n].gate.gates[k].request.Some?
    ensures j + 1 < m <= n && WinsClaim(tr, m, k) && ClaimIsBacked(g, tr[m - 1], k)
    ensures tr[m - 1].ops.cells[k].past.provider.calls == 0
    ensures var q := tr[n].gate.gates[k].request.value; Stores.Window(StoresOf(tr), i, j, q.id, Stores.Bound(q))
  {
    CallNeedsWinner(g, tr, n, k);
    m := ClaimStep(g, tr, n, k);
    CallNeedsWinner(g, tr, m - 1, k);
    ClaimIsAuthorized(g, tr, m, k);
    RunGrows(g, tr, m - 1, n);
    i, j := BackedClaimHasWindow(g, tr, m, k);
  }

  // ---------------------------------------------------------------- when a claim is won

  predicate Wins(s: Joint, t: Joint, w: Worker, k: Key) {
    && k in s.ops.cells && k in t.ops.cells
    && s.ops.cells[k].past.winner.None? && t.ops.cells[k].past.winner == Some(w)
  }

  function Checking(g: Setting, s: Joint, w: Worker, k: Key): Joint {
    Joint(Gate.Do(g.gov, s.gate, w, Gate.CheckGate(k)), s.ops)
  }

  // A worker about to claim, which has nothing of the gate in hand.
  predicate AboutToClaim(s: Joint, w: Worker, k: Key) {
    w in s.ops.workers && s.ops.workers[w] == Proc(k, Claiming) && Gate.Holding(s.gate, w) == Gate.Idle
  }

  predicate ClaimCondition(g: Setting, s: Joint, w: Worker, k: Key) {
    && k in s.gate.gates && k in s.ops.cells
    && Gate.ValidConsumption(g.gov, k, s.gate.gates[k]) && !s.ops.quarantined
    && s.ops.cells[k].rec.state == Reserved && Content(ArgumentOf(s.ops, w)) == s.ops.cells[k].rec.payload
  }

  lemma CheckPasses(g: Setting, s: Joint, w: Worker, k: Key)
    requires JointInv(g, s) && AboutToClaim(s, w, k) && k in s.gate.gates
    ensures AtTheGate(g, s, Checking(g, s, w, k), w, Gate.CheckGate(k))
    ensures Checking(g, s, w, k).gate.gates == s.gate.gates
    ensures Gate.Holding(Checking(g, s, w, k).gate, w) == Gate.Checked(k)
       <==> Gate.ValidConsumption(g.gov, k, s.gate.gates[k])
    ensures Gate.ValidConsumption(g.gov, k, s.gate.gates[k]) ==> Gate.RegistryAdmits(s.gate.gates[k])
  {
    assert Gate.GateSound(g.gov, s.gate.store, k, s.gate.gates[k]);
  }

  function Claimed(g: Setting, s: Joint, w: Worker, k: Key): Joint
    requires k in s.ops.cells
  {
    var c := s.ops.cells[k];
    var p := if Budgeted(c.rec) then WaitLock(DispatchJob) else Executing;
    Joint(Gate.Do(g.gov, s.gate, w, Gate.ClaimDispatch),
          System(s.ops.cells[k := ClaimedBy(c, w, ArgumentOf(s.ops, w))], s.ops.workers[w := Proc(k, p)], None,
                 s.ops.quarantined, s.ops.args))
  }

  lemma ClaimSucceeds(g: Setting, s: Joint, w: Worker, k: Key)
    requires k in s.ops.cells && CellInv(s.ops.cells[k]) && w in s.ops.workers
    requires s.ops.workers[w] == Proc(k, Claiming) && k in s.gate.gates
    requires !s.ops.quarantined && s.ops.cells[k].rec.state == Reserved
    requires Content(ArgumentOf(s.ops, w)) == s.ops.cells[k].rec.payload
    requires Gate.Holding(s.gate, w) == Gate.Checked(k) && Gate.RegistryAdmits(s.gate.gates[k])
    ensures Advances(g, s, Claimed(g, s, w, k), w) && Wins(s, Claimed(g, s, w, k), w, k)
  {
    var (t, x) := (Claimed(g, s, w, k), ArgumentOf(s.ops, w));
    assert DispatchStep(w, false, x, View(s.ops.cells[k], Claiming, s.ops.guard),
                        View(t.ops.cells[k], t.ops.workers[w].pc, None));
    assert Moves(s.ops, t.ops, w);
  }

  lemma ClaimNeeds(g: Setting, s: Joint, t: Joint, w: Worker, k: Key)
    requires JointInv(g, s) && AboutToClaim(s, w, k)
    requires Advances(g, Checking(g, s, w, k), t, w) && Wins(s, t, w, k)
    ensures ClaimCondition(g, s, w, k)
  {
    OnlyTheClaimDispatches(w, s.ops.quarantined, ArgumentOf(s.ops, w),
                           View(s.ops.cells[k], s.ops.workers[w].pc, s.ops.guard),
                           View(t.ops.cells[k], t.ops.workers[w].pc, t.ops.guard));
    CheckPasses(g, s, w, k);
  }

  // In every reachable state a worker that holds the guard for its claim and checks the gate
  // wins exactly when the consumption is valid, quarantine is off, the operation is still
  // RESERVED and its payload is the recorded one. The registry's own second look at the
  // consumption never refuses what the check let through.
  lemma ClaimIsWonExactly(g: Setting, tr: seq<Joint>, i: nat, w: Worker, k: Key)
    requires JointRun(g, tr) && i < |tr| && AboutToClaim(tr[i], w, k)
    ensures (exists t :: Advances(g, Checking(g, tr[i], w, k), t, w) && Wins(tr[i], t, w, k))
       <==> ClaimCondition(g, tr[i], w, k)
  {
    JointRunKeepsInv(g, tr, i);
    var (s, u) := (tr[i], Checking(g, tr[i], w, k));
    if ClaimCondition(g, s, w, k) {
      CheckPasses(g, s, w, k);
      ClaimSucceeds(g, u, w, k);
    }
    forall t | Advances(g, u, t, w) && Wins(s, t, w, k) ensures ClaimCondition(g, s, w, k) {
      ClaimNeeds(g, s, t, w, k);
    }
  }
}
