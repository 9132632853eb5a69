// Reconciliation converges: what one undisturbed reconcile_unknown call reaches, and that at
// any later moment of any run a repetition reaches it too.
module SettlementConvergence {
  import opened Wrappers
  import opened Lifecycle
  import opened Lattice
  import opened Settlement
  import opened SettlementSafety

  predicate UnderLock(p: Pc) {
    p.WaitLock? || p.Deciding? || p.Repairing? || p.BackendCall? || p.Flagging? || p.Closing?
  }

  // The worker runs on without faults or competition for at most `steps` steps.
  function Undisturbed(w: Worker, q: bool, c: Cell, p: Pc, steps: nat): (Cell, Pc)
    decreases steps
  {
    if steps == 0 || !UnderLock(p) then (c, p)
    else
      var (d, r) := Settle(w, c, p, true, q);
      Undisturbed(w, q, d, r, steps - 1)
  }

  // A history of one worker alone on a key.
  ghost predicate Solo(w: Worker, q: bool, x: Argument, vs: seq<View>) {
    |vs| > 0 && forall i :: 0 < i < |vs| ==> SoloStep(w, q, x, vs, i)
  }

  ghost predicate SoloStep(w: Worker, q: bool, x: Argument, vs: seq<View>, i: nat)
    requires 0 < i < |vs|
  {
    vs[i - 1].pc != Done && WorkerStep(w, q, x, vs[i - 1], vs[i])
  }

  // The undisturbed continuation is one of the protocol's own histories.
  lemma {:induction false} UndisturbedIsAHistory(w: Worker, q: bool, x: Argument, c: Cell, p: Pc, g: Option<Worker>,
                                               steps: nat)
    returns (vs: seq<View>)
    requires p.WaitLock? ==> c.lock.None?
    ensures Solo(w, q, x, vs) && vs[0] == View(c, p, g)
    ensures var (d, r) := Undisturbed(w, q, c, p, steps); vs[|vs| - 1] == View(d, r, g)
    decreases steps
  {
    if steps == 0 || !UnderLock(p) {
      vs := [View(c, p, g)];
    } else {
      var (d, r) := Settle(w, c, p, true, q);
      NeverWaitsAgain(w, q, c, p);
      var rest := UndisturbedIsAHistory(w, q, x, d, r, g, steps - 1);
      vs := [View(c, p, g)] + rest;
      forall i | 0 < i < |vs| ensures SoloStep(w, q, x, vs, i) {
        if i > 1 { assert SoloStep(w, q, x, rest, i - 1); }
      }
    }
  }

  lemma NeverWaitsAgain(w: Worker, q: bool, c: Cell, p: Pc)
    requires UnderLock(p)
    ensures !Settle(w, c, p, true, q).1.WaitLock?
  {}

  // When the answer can be settled at all. An amount without a resource has no
  // reservation to settle; a compensated reservation cannot back a confirmation.
  predicate Settleable(c: Cell, answer: Answer) {
    c.rec.amount <= 0.0
    || (c.rec.resource.Some? && (answer == SaysConfirmed ==> !Compensated(c.reservation)))
  }

  function Outcome(answer: Answer): OpState {
    if answer == SaysConfirmed then Confirmed else Failed
  }

  predicate Resolved(answer: Answer) { answer == SaysConfirmed || answer == SaysFailed }

  function Repeat(w: Worker, q: bool, c: Cell, answer: Answer): (Cell, Pc) {
    Undisturbed(w, q, c, WaitLock(ReconcileJob(c.rec.knowsReservation, answer)), 6)
  }

  // One undisturbed call reaches the terminal state matching the answer exactly when the
  // answer is settleable, with the budget committed or given back exactly once; otherwise
  // it changes nothing. It always comes to its end.
  lemma ReconcileConverges(w: Worker, q: bool, c: Cell, answer: Answer)
    requires CellInv(c) && c.lock.None? && InFlight(c.rec.state) && Resolved(answer)
    ensures var (d, p) := Repeat(w, q, c, answer);
      && p == Done && d.lock.None?
      && (d.rec.state == Outcome(answer) <==> Settleable(c, answer))
      && (!Settleable(c, answer) ==> d == c)
      && (Settleable(c, answer) && Budgeted(c.rec) ==> SettledOnce(d.past.effects, answer))
  {
    var j := ReconcileJob(c.rec.knowsReservation, answer);
    var c1 := c.(lock := Some(w));
    assert Repeat(w, q, c, answer) == Undisturbed(w, q, c1, Deciding(j), 5);
    var (c2, p2) := DecideReconcile(c1, c.rec.knowsReservation, answer);
    assert Undisturbed(w, q, c1, Deciding(j), 5) == Undisturbed(w, q, c2, p2, 4);
    DecisionConverges(w, q, c1, answer);
  }

  predicate SettledOnce(t: Tally, answer: Answer) {
    t.reserves == 1
    && if answer == SaysConfirmed then t.commits == 1 && t.refunds == 0 && t.releases == 0
       else t.refunds + t.releases == 1
  }

  lemma DecisionConverges(w: Worker, q: bool, c: Cell, answer: Answer)
    requires CellInv(c) && c.lock == Some(w) && InFlight(c.rec.state) && Resolved(answer)
    ensures var (e, r) := DecideReconcile(c, c.rec.knowsReservation, answer);
      var (d, p) := Undisturbed(w, q, e, r, 4);
      && p == Done && d.lock.None?
      && (d.rec.state == Outcome(answer) <==> Settleable(c, answer))
      && (!Settleable(c, answer) ==> d == Unlocked(c))
      && (Settleable(c, answer) && Budgeted(c.rec) ==> SettledOnce(d.past.effects, answer))
  {
    var (e, r) := DecideReconcile(c, c.rec.knowsReservation, answer);
    if r.Closing? || r == Done {
      assert Undisturbed(w, q, e, r, 4) == if r == Done then (e, r) else Settle(w, e, r, true, q);
    } else if r.Flagging? {
      FlagConverges(w, q, c, answer);
      assert Undisturbed(w, q, e, r, 4) == Undisturbed(w, q, e, r, 3);
    } else {
      var (c1, p1) := Settle(w, e, r, true, q);
      assert Undisturbed(w, q, e, r, 4) == Undisturbed(w, q, c1, p1, 3);
      FlagConverges(w, q, c1, answer);
    }
  }

  // The last two steps: persist the ownership flags, then move to the terminal state.
  lemma FlagConverges(w: Worker, q: bool, c: Cell, answer: Answer)
    requires InFlight(c.rec.state) && Resolved(answer)
    ensures var p := if answer == SaysConfirmed then Flagging(false, true, ToConfirmed)
                     else Flagging(false, false, ToFailed);
      var (d, r) := Undisturbed(w, q, c, p, 3);
      && r == Done && d.lock.None? && d.rec.state == Outcome(answer) && d.past.effects == c.past.effects
      && Undisturbed(w, q, c, p, 4) == (d, r)
  {
    var p := if answer == SaysConfirmed then Flagging(false, true, ToConfirmed) else Flagging(false, false, ToFailed);
    var (c1, p1) := Settle(w, c, p, true, q);
    assert Undisturbed(w, q, c, p, 3) == Undisturbed(w, q, c1, p1, 2);
    assert Undisturbed(w, q, c, p, 4) == Undisturbed(w, q, c1, p1, 3);
    var (c2, p2) := Settle(w, c1, p1, true, q);
    assert p2 == Done;
    assert Undisturbed(w, q, c1, p1, 2) == Undisturbed(w, q, c2, p2, 1) == (c2, p2);
    assert Undisturbed(w, q, c1, p1, 3) == Undisturbed(w, q, c2, p2, 2) == (c2, p2);
  }

  // ---------------------------------------------------------------- at any later moment

  // A reconciliation stopped anywhere, other workers doing anything since: whenever the
  // operation is still open and its lock is free, one undisturbed repeat by any worker ends
  // in the terminal state of its answer exactly when the reservation does not contradict
  // it. Otherwise the operation has already come to its end.
  lemma RepeatConvergesLater(tr: seq<System>, i: nat, j: nat, w: Worker, k: Key, answer: Answer)
    requires Run(tr) && i <= j < |tr| && k in tr[i].cells && InFlight(tr[i].cells[k].rec.state) && Resolved(answer)
    ensures k in tr[j].cells
    ensures var c := tr[j].cells[k];
      if !InFlight(c.rec.state) then c.rec.state == Confirmed || c.rec.state == Failed
      else c.lock.None? ==>
        var (d, p) := Repeat(w, tr[j].quarantined, c, answer);
        && p == Done && d.lock.None?
        && (d.rec.state == Outcome(answer) <==> Settleable(c, answer))
        && (!Settleable(c, answer) ==> d == c)
        && (Settleable(c, answer) && Budgeted(c.rec) ==> SettledOnce(d.past.effects, answer))
  {
    RunIsSteady(tr);
    SteadyEvolves(tr, i, j, k);
    RunKeepsInv(tr, j);
    var c := tr[j].cells[k];
    assert CellInv(c);
    if InFlight(c.rec.state) && c.lock.None? { ReconcileConverges(w, tr[j].quarantined, c, answer); }
  }

  // ---------------------------------------------------------------- the repeat is a run

  // Where a worker alone on key `k` takes the whole system.
  function Placed(s: System, w: Worker, k: Key, v: View): System {
    System(s.cells[k := v.cell], s.workers[w := Proc(k, v.pc)], v.guard, s.quarantined, s.args)
  }

  lemma StepIsNext(s: System, w: Worker, k: Key, a: View, b: View)
    requires a.pc != Done && WorkerStep(w, s.quarantined, ArgumentOf(s, w), a, b)
    ensures Next(Placed(s, w, k, a), Placed(s, w, k, b))
  {
    var (t, u) := (Placed(s, w, k, a), Placed(s, w, k, b));
    assert t.cells[k := b.cell] == u.cells && t.workers[w := Proc(k, b.pc)] == u.workers;
    assert ArgumentOf(t, w) == ArgumentOf(s, w);
    assert Moves(t, u, w);
  }

  lemma SoloTail(w: Worker, q: bool, x: Argument, vs: seq<View>)
    requires Solo(w, q, x, vs) && |vs| > 1
    ensures Solo(w, q, x, vs[1..])
  {
    forall i | 0 < i < |vs[1..]| ensures SoloStep(w, q, x, vs[1..], i) {
      assert SoloStep(w, q, x, vs, i + 1);
    }
  }

  lemma FirstSoloStep(s: System, w: Worker, k: Key, vs: seq<View>)
    requires Solo(w, s.quarantined, ArgumentOf(s, w), vs) && |vs| > 1
    ensures Next(Placed(s, w, k, vs[0]), Placed(s, w, k, vs[1]))
    ensures Solo(w, s.quarantined, ArgumentOf(s, w), vs[1..])
  {
    assert SoloStep(w, s.quarantined, ArgumentOf(s, w), vs, 1);
    StepIsNext(s, w, k, vs[0], vs[1]);
    SoloTail(w, s.quarantined, ArgumentOf(s, w), vs);
  }

  lemma RunExtends(tr: seq<System>, t: System)
    requires Run(tr) && Next(tr[|tr| - 1], t)
    ensures Run(tr + [t])
  {
    var longer := tr + [t];
    forall i | 0 < i < |longer| ensures StepAt(longer, i) {
      if i < |tr| { assert StepAt(tr, i); }
    }
  }

  lemma {:induction false} SoloExtendsRun(tr: seq<System>, s: System, w: Worker, k: Key, vs: seq<View>)
    returns (longer: seq<System>)
    requires Run(tr) && Solo(w, s.quarantined, ArgumentOf(s, w), vs) && tr[|tr| - 1] == Placed(s, w, k, vs[0])
    ensures Run(longer) && tr <= longer && longer[|longer| - 1] == Placed(s, w, k, vs[|vs| - 1])
    decreases |vs|
  {
    if |vs| == 1 {
      longer := tr;
    } else {
      var next := Placed(s, w, k, vs[1]);
      FirstSoloStep(s, w, k, vs);
      RunExtends(tr, next);
      longer := SoloExtendsRun(tr + [next], s, w, k, vs[1..]);
    }
  }

  // A call of reconcile_unknown up to the settlement lock: the record is read, then the
  // provider answers.
  lemma AskingExtendsRun(tr: seq<System>, w: Worker, k: Key, answer: Answer) returns (longer: seq<System>)
    requires Run(tr) && var s := tr[|tr| - 1]; Idle(s, w) && k in s.cells && InFlight(s.cells[k].rec.state)
    ensures Run(longer) && tr <= longer
    ensures var (s, c) := (tr[|tr| - 1], tr[|tr| - 1].cells[k]);
      longer[|longer| - 1]
        == Placed(s, w, k, View(c, WaitLock(ReconcileJob(c.rec.knowsReservation, answer)), s.guard))
  {
    var s := tr[|tr| - 1];
    var c := s.cells[k];
    var asking := View(c, Asking(c.rec.knowsReservation), s.guard);
    var waiting := View(c, WaitLock(ReconcileJob(c.rec.knowsReservation, answer)), s.guard);
    assert s.cells[k := c] == s.cells;
    assert Starts(s, Placed(s, w, k, asking), w, k);
    RunExtends(tr, Placed(s, w, k, asking));
    assert DispatchStep(w, s.quarantined, ArgumentOf(s, w), asking, waiting);
    StepIsNext(s, w, k, asking, waiting);
    RunExtends(tr + [Placed(s, w, k, asking)], Placed(s, w, k, waiting));
    longer := tr + [Placed(s, w, k, asking)] + [Placed(s, w, k, waiting)];
  }

  // So from any state of any run in which the operation is open, its lock is free and a
  // worker is idle, the run can go on to the outcome of a compatible answer.
  lemma RunContinuesToOutcome(tr: seq<System>, w: Worker, k: Key, answer: Answer) returns (longer: seq<System>)
    requires Run(tr) && Resolved(answer)
    requires var s := tr[|tr| - 1];
      Idle(s, w) && k in s.cells && InFlight(s.cells[k].rec.state) && s.cells[k].lock.None?
      && Settleable(s.cells[k], answer)
    ensures Run(longer) && tr <= longer
    ensures var t := longer[|longer| - 1]; k in t.cells && t.cells[k].rec.state == Outcome(answer)
  {
    var s := tr[|tr| - 1];
    var c := s.cells[k];
    var p := WaitLock(ReconcileJob(c.rec.knowsReservation, answer));
    RunKeepsInv(tr, |tr| - 1);
    assert CellInv(c);
    ReconcileConverges(w, s.quarantined, c, answer);
    var front := AskingExtendsRun(tr, w, k, answer);
    var vs := UndisturbedIsAHistory(w, s.quarantined, ArgumentOf(s, w), c, p, s.guard, 6);
    longer := SoloExtendsRun(front, s, w, k, vs);
  }
}
