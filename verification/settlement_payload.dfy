// Which payload the provider is handed. The hash check happens at the dispatch claim, the
// call to the provider later; in between the caller may change an uncopied mapping
// (tenir_governance/composition/governor.py, dispatch_and_execute and dispatch).
module SettlementPayload {
  import opened Wrappers
  import opened Lifecycle
  import opened Lattice
  import opened Settlement
  import opened SettlementSafety
  import opened SettlementConvergence
  import opened SettlementProgress

  // Positions between a won claim and the provider call.
  predicate OnClaim(p: Pc) {
    match p
    case Executing => true
    case WaitLock(job) => job == DispatchJob
    case Deciding(job) => job == DispatchJob
    case Repairing(_, _, job) => job == DispatchJob
    case BackendCall(_, goal) => goal == ToExecute
    case Flagging(_, _, goal) => goal == ToExecute
    case _ => false
  }

  // Whether the content checked at the claim is protected from the caller.
  predicate Protected(x: Argument, r: Record) { r.gated && !x.early }

  predicate SameCopy(x: Argument, y: Argument) { x.copy == y.copy && x.early == y.early }

  predicate ArgumentInv(x: Argument, r: Record) { x.copy.Some? <==> Protected(x, r) }

  predicate CellPayload(c: Cell) {
    && (c.past.winner.Some? ==>
          && c.past.shown.Some? && ArgumentInv(c.past.shown.value, c.rec)
          && Content(c.past.shown.value) == c.rec.payload)
    && (c.past.provider.calls == 1 ==>
          && c.past.winner.Some? && c.past.handed.Some?
          && SameCopy(c.past.handed.value, c.past.shown.value)
          && c.past.provider.payload == Content(c.past.handed.value))
  }

  predicate WorkerPayload(x: Argument, c: Cell, p: Pc) {
    && (p == AwaitClaim || p == Claiming ==> ArgumentInv(x, c.rec))
    && (OnClaim(p) ==> c.past.winner.Some? && c.past.shown.Some? && SameCopy(x, c.past.shown.value))
  }

  ghost predicate PayloadInv(s: System) {
    && (forall k :: k in s.cells ==> CellPayload(s.cells[k]))
    && (forall w :: w in s.workers && s.workers[w].pc != Done && s.workers[w].key in s.cells ==>
          WorkerPayload(ArgumentOf(s, w), s.cells[s.workers[w].key], s.workers[w].pc))
  }

  // ---------------------------------------------------------------- one step

  lemma ClaimKeepsPayload(w: Worker, q: bool, x: Argument, a: View, b: View)
    requires Good(w, q, a) && CellPayload(a.cell) && WorkerPayload(x, a.cell, a.pc)
    requires DispatchStep(w, q, x, a, b)
    ensures CellPayload(b.cell) && WorkerPayload(x, b.cell, b.pc)
  {}

  // All other steps leave the claim, the provider and the payload alone, and only a worker
  // already on its claim stays on it.
  predicate Aside(a: View, b: View) {
    && b.cell.past.winner == a.cell.past.winner && b.cell.past.shown == a.cell.past.shown
    && b.cell.past.provider == a.cell.past.provider && b.cell.past.handed == a.cell.past.handed
    && b.cell.rec.payload == a.cell.rec.payload && b.cell.rec.gated == a.cell.rec.gated
    && (OnClaim(b.pc) ==> OnClaim(a.pc))
    && b.pc != AwaitClaim && b.pc != Claiming
  }

  lemma SettleStepAside(w: Worker, q: bool, a: View, b: View)
    requires SettleStep(w, q, a, b)
    ensures Aside(a, b)
  {
    if a.pc.Deciding? { DecidingAside(w, q, a, b); } else { ActingAside(w, q, a, b); }
  }

  lemma ActingAside(w: Worker, q: bool, a: View, b: View)
    requires !a.pc.Deciding? && SettleStep(w, q, a, b)
    ensures Aside(a, b)
  {}

  // What a decision under the lock may change: the state of the record and the lock.
  predicate AsideDecision(c: Cell, job: Job, d: Cell, p: Pc) {
    && d.past == c.past && d.rec == c.rec.(state := d.rec.state)
    && p != AwaitClaim && p != Claiming && (OnClaim(p) ==> job == DispatchJob)
  }

  lemma FailAside(c: Cell, authoritative: bool)
    ensures var (d, p) := DecideFail(c, authoritative); AsideDecision(c, FailJob(authoritative), d, p)
  {}

  lemma ReconcileAside(c: Cell, knew: bool, answer: Answer)
    ensures var (d, p) := DecideReconcile(c, knew, answer); AsideDecision(c, ReconcileJob(knew, answer), d, p)
  {}

  lemma ReleaseAside(c: Cell, goal: Goal, job: Job)
    requires goal != ToExecute
    ensures var (d, p) := DecideRelease(c, goal); AsideDecision(c, job, d, p)
  {}

  lemma ConfirmAside(c: Cell)
    ensures var (d, p) := DecideConfirm(c); AsideDecision(c, ConfirmJob, d, p)
  {}

  lemma ClaimedAside(w: Worker, c: Cell, revalidate: bool)
    ensures var (d, p) := DecideDispatch(w, c, revalidate); AsideDecision(c, DispatchJob, d, p)
  {}

  lemma VetoAside(c: Cell)
    ensures var (d, p) := DecideVeto(c); AsideDecision(c, VetoJob, d, p)
  {}

  lemma DecisionAside(w: Worker, c: Cell, job: Job, revalidate: bool, q: bool)
    ensures var (d, p) := Settle(w, c, Deciding(job), revalidate, q); AsideDecision(c, job, d, p)
  {
    match job
    case FailJob(authoritative) => FailAside(c, authoritative);
    case ReconcileJob(knew, answer) => ReconcileAside(c, knew, answer);
    case ExitJob(_) => ReleaseAside(c, ToFailed, job);
    case ExpireHoldJob => ReleaseAside(c, ToFailed, job); ReleaseAside(c, StayOpen, job);
    case ConfirmJob => ConfirmAside(c);
    case DispatchJob => ClaimedAside(w, c, revalidate);
    case VetoJob => VetoAside(c);
    case _ =>
  }

  lemma DecidingAside(w: Worker, q: bool, a: View, b: View)
    requires a.pc.Deciding? && SettleStep(w, q, a, b)
    ensures Aside(a, b)
  {
    DecisionAside(w, a.cell, a.pc.job, true, q);
    DecisionAside(w, a.cell, a.pc.job, false, q);
  }

  lemma AdjudicateStepAside(w: Worker, q: bool, a: View, b: View)
    requires AdjudicateStep(w, q, a, b)
    ensures Aside(a, b)
  {}

  lemma OtherStepAside(w: Worker, q: bool, a: View, b: View)
    requires Stops(w, a, b) || AdjudicateStep(w, q, a, b) || ResolveStep(w, q, a, b)
    ensures Aside(a, b)
  {
    if !Stops(w, a, b) && AdjudicateStep(w, q, a, b) { AdjudicateStepAside(w, q, a, b); }
  }

  lemma StepKeepsPayload(w: Worker, q: bool, x: Argument, a: View, b: View)
    requires Good(w, q, a) && CellPayload(a.cell) && WorkerPayload(x, a.cell, a.pc)
    requires WorkerStep(w, q, x, a, b)
    ensures CellPayload(b.cell) && WorkerPayload(x, b.cell, b.pc)
  {
    if DispatchStep(w, q, x, a, b) {
      ClaimKeepsPayload(w, q, x, a, b);
    } else if SettleStep(w, q, a, b) {
      SettleStepAside(w, q, a, b);
    } else {
      OtherStepAside(w, q, a, b);
    }
  }

  // Another worker's step on the same key.
  lemma OthersKeepPayload(w: Worker, x: Argument, c: Cell, d: Cell, p: Pc)
    requires WorkerPayload(x, c, p) && Guarantee(w, c, d)
    ensures WorkerPayload(x, d, p)
  {}

  // What the moving worker's own position and key show afterwards.
  lemma MoverKeepsPayload(s: System, t: System, w: Worker)
    requires PayloadInv(s) && Moves(s, t, w)
    requires Good(w, s.quarantined, View(s.cells[s.workers[w].key], s.workers[w].pc, s.guard))
    ensures var c := t.cells[s.workers[w].key]; CellPayload(c) && WorkerPayload(ArgumentOf(t, w), c, t.workers[w].pc)
  {
    var k := s.workers[w].key;
    var a := View(s.cells[k], s.workers[w].pc, s.guard);
    var b := View(t.cells[k], t.workers[w].pc, t.guard);
    StepKeepsPayload(w, s.quarantined, ArgumentOf(s, w), a, b);
  }

  lemma MoveKeepsPayload(s: System, t: System, w: Worker)
    requires PayloadInv(s) && Moves(s, t, w)
    requires Good(w, s.quarantined, View(s.cells[s.workers[w].key], s.workers[w].pc, s.guard))
    requires Guarantee(w, s.cells[s.workers[w].key], t.cells[s.workers[w].key])
    ensures PayloadInv(t)
  {
    var k := s.workers[w].key;
    MoverKeepsPayload(s, t, w);
    forall v | v in t.workers && t.workers[v].pc != Done && t.workers[v].key in t.cells
      ensures WorkerPayload(ArgumentOf(t, v), t.cells[t.workers[v].key], t.workers[v].pc)
    {
      if v != w && s.workers[v].key == k {
        OthersKeepPayload(w, ArgumentOf(s, v), s.cells[k], t.cells[k], s.workers[v].pc);
      }
    }
  }

  // The owner of a mapping changes what was given, never a copy.
  lemma MutationKeepsPayload(s: System, t: System, w: Worker)
    requires PayloadInv(s) && Mutates(s, t, w)
    ensures PayloadInv(t)
  {}

  lemma RegisterKeepsPayload(s: System, t: System, w: Worker, k: Key)
    requires Inv(s) && PayloadInv(s) && Registers(s, t, w, k)
    ensures PayloadInv(t)
  {
    forall v | v in t.workers && t.workers[v].pc != Done && t.workers[v].key in t.cells
      ensures WorkerPayload(ArgumentOf(t, v), t.cells[t.workers[v].key], t.workers[v].pc)
    {
      if v != w { assert s.workers[v].key in s.cells; }
    }
  }

  lemma StartKeepsPayload(s: System, t: System, w: Worker, k: Key)
    requires PayloadInv(s) && Starts(s, t, w, k)
    ensures PayloadInv(t)
  {}

  lemma NextKeepsPayload(s: System, t: System)
    requires Inv(s) && PayloadInv(s) && Next(s, t)
    ensures PayloadInv(t)
  {
    if w: Worker, k: Key :| Registers(s, t, w, k) {
      RegisterKeepsPayload(s, t, w, k);
    } else if w: Worker, k: Key :| Starts(s, t, w, k) {
      StartKeepsPayload(s, t, w, k);
    } else if w: Worker :| Moves(s, t, w) {
      MoveKeepsInv(s, t, w);
      MoveKeepsPayload(s, t, w);
    } else if w: Worker :| Mutates(s, t, w) {
      MutationKeepsPayload(s, t, w);
    }
  }

  lemma {:induction false} RunKeepsPayload(tr: seq<System>, i: nat)
    requires Run(tr) && i < |tr|
    ensures PayloadInv(tr[i])
  {
    if i > 0 {
      RunKeepsPayload(tr, i - 1);
      RunKeepsInv(tr, i - 1);
      assert StepAt(tr, i);
      NextKeepsPayload(tr[i - 1], tr[i]);
    }
  }

  // ---------------------------------------------------------------- the moments recorded

  // `w` wins the claim of `k` in step `m`.
  predicate ClaimedAt(tr: seq<System>, m: nat, w: Worker, k: Key) {
    && 0 < m < |tr| && k in tr[m - 1].cells && k in tr[m].cells
    && tr[m - 1].cells[k].past.winner.None? && tr[m].cells[k].past.winner == Some(w)
  }

  // The provider is called for `k` in step `n`.
  predicate CalledAt(tr: seq<System>, n: nat, k: Key) {
    && 0 < n < |tr| && k in tr[n - 1].cells && k in tr[n].cells
    && tr[n - 1].cells[k].past.provider.calls == 0 && tr[n].cells[k].past.provider.calls == 1
  }

  lemma StepOn(s: System, t: System, k: Key) returns (w: Worker)
    requires Next(s, t) && k in s.cells && k in t.cells && t.cells[k] != s.cells[k]
    ensures Moves(s, t, w) && s.workers[w].key == k
  {
    if v: Worker, m: Key :| Registers(s, t, v, m) {
    } else if v: Worker, m: Key :| Starts(s, t, v, m) {
    } else if v: Worker :| Moves(s, t, v) {
      w := v;
    } else if v: Worker :| Mutates(s, t, v) {
    }
  }

  lemma ClaimRecordsArgument(w: Worker, q: bool, x: Argument, a: View, b: View)
    requires WorkerStep(w, q, x, a, b) && b.cell.past.winner != a.cell.past.winner
    ensures b.cell.past.winner == Some(w) && b.cell.past.shown == Some(x)
  {
    if !DispatchStep(w, q, x, a, b) {
      if SettleStep(w, q, a, b) { SettleStepAside(w, q, a, b); } else { OtherStepAside(w, q, a, b); }
    }
  }

  lemma CallRecordsArgument(w: Worker, q: bool, x: Argument, a: View, b: View)
    requires WorkerStep(w, q, x, a, b) && b.cell.past.provider != a.cell.past.provider
    ensures a.pc == Executing && b.cell.past.handed == Some(x)
    ensures b.cell.past.winner == a.cell.past.winner && b.cell.past.shown == a.cell.past.shown
  {
    if !DispatchStep(w, q, x, a, b) {
      if SettleStep(w, q, a, b) { SettleStepAside(w, q, a, b); } else { OtherStepAside(w, q, a, b); }
    }
  }

  lemma ShownAtClaim(tr: seq<System>, m: nat, w: Worker, k: Key)
    requires Run(tr) && ClaimedAt(tr, m, w, k)
    ensures tr[m].cells[k].past.shown == Some(ArgumentOf(tr[m - 1], w))
  {
    assert StepAt(tr, m);
    var v := StepOn(tr[m - 1], tr[m], k);
    ClaimRecordsArgument(v, tr[m - 1].quarantined, ArgumentOf(tr[m - 1], v),
                         View(tr[m - 1].cells[k], tr[m - 1].workers[v].pc, tr[m - 1].guard),
                         View(tr[m].cells[k], tr[m].workers[v].pc, tr[m].guard));
  }

  lemma CallerWonTheClaim(s: System, w: Worker)
    requires Inv(s) && w in s.workers && s.workers[w].pc == Executing
    ensures s.workers[w].key in s.cells && s.cells[s.workers[w].key].past.winner == Some(w)
  {
    assert LocalInv(w, s.quarantined, s.guard, s.cells[s.workers[w].key], Executing);
  }

  lemma HandedAtCall(tr: seq<System>, n: nat, k: Key) returns (w: Worker)
    requires Run(tr) && CalledAt(tr, n, k)
    ensures tr[n].cells[k].past.winner == Some(w)
    ensures tr[n].cells[k].past.handed == Some(ArgumentOf(tr[n - 1], w))
  {
    assert StepAt(tr, n);
    w := StepOn(tr[n - 1], tr[n], k);
    CallRecordsArgument(w, tr[n - 1].quarantined, ArgumentOf(tr[n - 1], w),
                        View(tr[n - 1].cells[k], tr[n - 1].workers[w].pc, tr[n - 1].guard),
                        View(tr[n].cells[k], tr[n].workers[w].pc, tr[n].guard));
    RunKeepsInv(tr, n - 1);
    CallerWonTheClaim(tr[n - 1], w);
  }

  // A claim is won once, and what was shown there never changes.
  predicate ClaimKept(c: Cell, d: Cell) {
    c.past.winner.Some? ==> d.past.winner == c.past.winner && d.past.shown == c.past.shown
  }

  lemma StepKeepsClaim(s: System, t: System, k: Key)
    requires Inv(s) && Next(s, t) && k in s.cells
    ensures k in t.cells && ClaimKept(s.cells[k], t.cells[k])
  {
    StepEvolves(s, t, k);
    if t.cells[k] != s.cells[k] {
      var w := StepOn(s, t, k);
      MoveKeepsInv(s, t, w);
    }
  }

  lemma ClaimKeptAt(tr: seq<System>, j: nat, k: Key)
    requires Run(tr) && 0 < j < |tr| && k in tr[j - 1].cells
    ensures k in tr[j].cells && ClaimKept(tr[j - 1].cells[k], tr[j].cells[k])
  {
    RunKeepsInv(tr, j - 1);
    assert StepAt(tr, j);
    StepKeepsClaim(tr[j - 1], tr[j], k);
  }

  lemma {:induction false} RunKeepsClaim(tr: seq<System>, i: nat, j: nat, k: Key)
    requires Run(tr) && i <= j < |tr| && k in tr[i].cells
    ensures k in tr[j].cells && ClaimKept(tr[i].cells[k], tr[j].cells[k])
    decreases j
  {
    if i < j {
      RunKeepsClaim(tr, i, j - 1, k);
      ClaimKeptAt(tr, j, k);
    }
  }

  // ---------------------------------------------------------------- the exact condition

  // A claim won in step `m`, the provider called in step `n`: the provider is handed the
  // recorded payload exactly when the call had copied it, which it does for a gated
  // operation whose record it read at its start, or when the caller's mapping holds at the
  // provider call what it held at the claim.
  lemma ProviderPayloadExactly(tr: seq<System>, m: nat, n: nat, w: Worker, k: Key)
    requires Run(tr) && ClaimedAt(tr, m, w, k) && CalledAt(tr, n, k)
    ensures var (c, claim, call) := (tr[n].cells[k], ArgumentOf(tr[m - 1], w), ArgumentOf(tr[n - 1], w));
      c.past.provider.payload == c.rec.payload
      <==> (c.rec.gated && !claim.early) || call.given == claim.given
  {
    var v := HandedAtCall(tr, n, k);
    if n < m { RunKeepsClaim(tr, n, m - 1, k); }
    ShownAtClaim(tr, m, w, k);
    RunKeepsClaim(tr, m, n, k);
    RunKeepsPayload(tr, n);
    assert CellPayload(tr[n].cells[k]);
  }

  // Hence a gated operation dispatched by calls that read its record is always executed
  // with its recorded payload.
  lemma GatedPayloadIsDelivered(tr: seq<System>, i: nat, k: Key)
    requires Run(tr) && i < |tr| && k in tr[i].cells && tr[i].cells[k].rec.gated
    requires tr[i].cells[k].past.provider.calls == 1
    ensures tr[i].cells[k].past.shown.Some?
    ensures !tr[i].cells[k].past.shown.value.early ==>
      tr[i].cells[k].past.provider.payload == tr[i].cells[k].rec.payload
  {
    RunKeepsPayload(tr, i);
    assert CellPayload(tr[i].cells[k]);
  }

  // ---------------------------------------------------------------- it does fail

  ghost predicate Reachable(s: System) {
    exists tr :: Run(tr) && tr[|tr| - 1] == s
  }

  lemma NextIsReachable(s: System, t: System)
    requires Reachable(s) && Next(s, t)
    ensures Reachable(t)
  {
    var tr :| Run(tr) && tr[|tr| - 1] == s;
    RunExtends(tr, t);
    assert (tr + [t])[|tr + [t]| - 1] == t;
  }

  // Between the claim and the provider the caller changes an uncopied mapping.
  lemma ChangedInFlight(tr: seq<System>, s: System, w: Worker, k: Key, c: Cell, x: Argument, other: string)
    returns (longer: seq<System>)
    requires Run(tr) && tr[|tr| - 1] == Placed(Given(s, w, x), w, k, View(c, Executing, None)) && !s.quarantined
    ensures Run(longer) && tr <= longer
    ensures var y := x.(given := other);
      longer[|longer| - 1] == Placed(Given(s, w, y), w, k, View(Asked(c, y), Returned, None))
  {
    var y := x.(given := other);
    var changed := Placed(Given(s, w, y), w, k, View(c, Executing, None));
    assert Given(s, w, x).args[w := y] == Given(s, w, y).args;
    assert Mutates(tr[|tr| - 1], changed, w);
    RunExtends(tr, changed);
    var asking := AskingHistory(w, y, c);
    longer := SoloExtendsRun(tr + [changed], Given(s, w, y), w, k, asking);
  }

  ghost predicate Delivers(tr: seq<System>, longer: seq<System>, k: Key, payload: string) {
    && Run(longer) && tr <= longer && k in longer[|longer| - 1].cells
    && longer[|longer| - 1].cells[k].past.provider.calls == 1
    && longer[|longer| - 1].cells[k].past.provider.payload == payload
  }

  // From any state of any run in which an operation can be dispatched by a call that makes
  // no copy, the run has a continuation that hands the provider any other payload.
  lemma AnyPayloadCanBeDelivered(tr: seq<System>, w: Worker, k: Key, x: Argument, other: string)
    returns (longer: seq<System>)
    requires Run(tr) && Ready(tr, w, k) && Dispatchable(tr[|tr| - 1], k, x) && x.copy.None?
    requires var c := tr[|tr| - 1].cells[k]; Budgeted(c.rec) ==> c.reservation == Outstanding
    ensures Delivers(tr, longer, k, other)
    ensures var (c, d) := (tr[|tr| - 1].cells[k], longer[|longer| - 1].cells[k]);
      d.rec.payload == c.rec.payload && d.rec.gated == c.rec.gated
  {
    var s := tr[|tr| - 1];
    var c := s.cells[k];
    RunKeepsInv(tr, |tr| - 1);
    assert CellInv(c);
    var claimed := DispatchReachesCall(tr, w, k, x);
    longer := ChangedInFlight(claimed, s, w, k, Committing(ClaimedBy(c, w, x)), x, other);
  }

  const CALLER := Worker(0, 0)
  const PASSING := Evidence(Some(Pass), Some(Pass), Unmeasured, false, 0.85)

  function Fresh(gated: bool): Cell {
    Cell(Record(Created, 0.0, None, "checked", gated, None, false, false, false), Absent, None, CALLER,
         History(Tally(0, 0, 0, 0), None, None, None, false, Provider(0, 0.0, ""), None))
  }

  // And there are such states: every ungated operation is dispatched without a copy, and so
  // is a gated one whose call began before registration. The provider then acts on a payload
  // nobody authorized.
  lemma UncopiedMappingCanChange(gated: bool, early: bool) returns (s: System)
    requires !gated || early
    ensures Reachable(s) && "k" in s.cells
    ensures var c := s.cells["k"];
      c.rec.gated == gated && c.past.provider.calls == 1 && c.past.provider.payload != c.rec.payload
  {
    var empty := System(map[], map[], None, false, map[]);
    assert Run([empty]);
    var admitted := AdmissionExtendsRun([empty], CALLER, "k", Fresh(gated), PASSING);
    var longer := AnyPayloadCanBeDelivered(admitted, CALLER, "k", Argument("checked", None, early), "changed");
    s := longer[|longer| - 1];
  }
}
