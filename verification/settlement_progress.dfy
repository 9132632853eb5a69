// What calls of the durable protocol achieve when nobody interferes, and which continuations
// every run therefore has: to RESERVED, to the provider, to CONFIRMED and to FAILED.
module SettlementProgress {
  import opened Wrappers
  import opened Lifecycle
  import opened Lattice
  import opened Settlement
  import opened SettlementSafety
  import opened SettlementConvergence

  // ---------------------------------------------------------------- under the lock

  // Persisting the flags and moving to a terminal state.
  lemma FlagThenClose(w: Worker, q: bool, c: Cell, committed: bool, goal: Goal)
    requires goal == ToFailed || goal == ToConfirmed
    ensures var to := if goal == ToFailed then Failed else Confirmed;
      Undisturbed(w, q, c, Flagging(false, committed, goal), 2)
        == (Unlocked(WithState(WithFlags(c, false, committed), Moved(c.rec.state, to))), Done)
  {
    var to := if goal == ToFailed then Failed else Confirmed;
    var flagged := WithFlags(c, false, committed);
    assert Undisturbed(w, q, c, Flagging(false, committed, goal), 2) == Undisturbed(w, q, flagged, Closing(to), 1);
  }

  lemma CallThenClose(w: Worker, q: bool, c: Cell, call: Call, goal: Goal)
    requires (goal == ToFailed || goal == ToConfirmed) && AfterCall(c, call).1
    ensures var (d, to) := (AfterCall(c, call).0, if goal == ToFailed then Failed else Confirmed);
      Undisturbed(w, q, c, BackendCall(call, goal), 3)
        == (Unlocked(WithState(WithFlags(d, false, call == CommitCall), Moved(d.rec.state, to))), Done)
  {
    var d := AfterCall(c, call).0;
    FlagThenClose(w, q, d, call == CommitCall, goal);
    assert Undisturbed(w, q, c, BackendCall(call, goal), 3)
        == Undisturbed(w, q, d, Flagging(false, call == CommitCall, goal), 2);
  }

  // A call that has come to its end stays there.
  lemma {:induction false} MoreSteps(w: Worker, q: bool, c: Cell, p: Pc, n: nat, m: nat)
    requires n <= m && !UnderLock(Undisturbed(w, q, c, p, n).1)
    ensures Undisturbed(w, q, c, p, m) == Undisturbed(w, q, c, p, n)
    decreases n
  {
    if n > 0 && UnderLock(p) {
      var (d, r) := Settle(w, c, p, true, q);
      MoreSteps(w, q, d, r, n - 1, m - 1);
    }
  }

  lemma OneStep(w: Worker, q: bool, c: Cell, p: Pc, n: nat)
    requires UnderLock(p)
    ensures var (d, r) := Settle(w, c, p, true, q);
      Undisturbed(w, q, c, p, n + 1) == Undisturbed(w, q, d, r, n)
  {}

  function Locked(w: Worker, c: Cell): Cell { c.(lock := Some(w)) }

  // Taking the lock and deciding.
  lemma TwoSteps(w: Worker, q: bool, c: Cell, job: Job, n: nat)
    ensures var (d, r) := Settle(w, Locked(w, c), Deciding(job), true, q);
      Undisturbed(w, q, c, WaitLock(job), n + 2) == Undisturbed(w, q, d, r, n)
  {
    OneStep(w, q, c, WaitLock(job), n + 1);
    OneStep(w, q, Locked(w, c), Deciding(job), n);
  }

  // ---------------------------------------------------------------- confirm

  predicate Confirmable(c: Cell) {
    && InFlight(c.rec.state)
    && (c.rec.amount <= 0.0 || (c.rec.resource.Some? && c.reservation in {Outstanding, Committed}))
  }

  // Confirmed on a reservation that is committed now or was before.
  function Confirming(c: Cell): Cell {
    var d := if c.reservation == Outstanding then AfterCall(c, CommitCall).0 else c;
    WithState(if Budgeted(c.rec) then WithFlags(d, false, true) else d, Confirmed)
  }

  // confirm on an unlocked operation confirms it exactly when it is in flight and its
  // reservation, if it needs one, can back the confirmation; otherwise nothing changes.
  lemma ConfirmConverges(w: Worker, q: bool, c: Cell)
    requires CellInv(c) && c.lock.None?
    ensures Undisturbed(w, q, c, WaitLock(ConfirmJob), 5) == (if Confirmable(c) then Confirming(c) else c, Done)
  {
    TwoSteps(w, q, c, ConfirmJob, 3);
    var (d, r) := DecideConfirm(Locked(w, c));
    if r.BackendCall? {
      CallThenClose(w, q, d, CommitCall, ToConfirmed);
    } else if r.Flagging? {
      FlagThenClose(w, q, d, true, ToConfirmed);
      MoreSteps(w, q, d, r, 2, 3);
    } else if r.Closing? {
      OneStep(w, q, d, r, 0);
      MoreSteps(w, q, d, r, 1, 3);
    }
  }

  // ---------------------------------------------------------------- fail

  predicate Failable(c: Cell, authoritative: bool) {
    && Legal(c.rec.state, Failed)
    && (c.rec.committed ==> authoritative)
    && !(c.rec.reserved && InFlight(c.rec.state))
  }

  // What a settled failure leaves of a reservation.
  function GivenBack(v: Reservation): Reservation {
    match v
    case Outstanding => Released
    case Committed => Refunded
    case _ => v
  }

  predicate FailedAs(c: Cell, d: Cell, authoritative: bool) {
    if Failable(c, authoritative)
    then d.rec.state == Failed && d.reservation == GivenBack(c.reservation) && !d.rec.reserved && !d.rec.committed
    else d.rec.state == c.rec.state && d.reservation == c.reservation
  }

  predicate NeedsRepair(c: Cell) { Budgeted(c.rec) && !c.rec.knowsReservation && c.reservation != Absent }

  lemma FailDecides(w: Worker, q: bool, c: Cell, authoritative: bool)
    requires CellInv(c) && c.lock == Some(w) && !NeedsRepair(c)
    ensures var (e, r) := DecideFail(c, authoritative);
      var (d, p) := Undisturbed(w, q, e, r, 3);
      p == Done && d.lock.None? && FailedAs(c, d, authoritative)
  {
    var (e, r) := DecideFail(c, authoritative);
    if r.BackendCall? {
      CallThenClose(w, q, e, r.call, ToFailed);
    } else if r.Closing? {
      OneStep(w, q, e, r, 0);
      MoreSteps(w, q, e, r, 1, 3);
    }
  }

  // fail on an unlocked operation fails it, its reservation given back, exactly when that is
  // legal, what was spent is refunded on the provider's word, and nothing in flight is still
  // outstanding; otherwise state and reservation stay.
  lemma FailConverges(w: Worker, q: bool, c: Cell, authoritative: bool)
    requires CellInv(c) && c.lock.None?
    ensures var (d, p) := Undisturbed(w, q, c, WaitLock(FailJob(authoritative)), 7);
      p == Done && d.lock.None? && FailedAs(c, d, authoritative)
  {
    var (job, held) := (FailJob(authoritative), Locked(w, c));
    TwoSteps(w, q, c, job, 5);
    var (d, r) := DecideFail(held, authoritative);
    if NeedsRepair(c) {
      var repaired := WithFlags(held, c.reservation == Outstanding, c.reservation == Committed);
      OneStep(w, q, d, r, 4);
      OneStep(w, q, repaired, Deciding(job), 3);
      FailDecides(w, q, repaired, authoritative);
    } else {
      FailDecides(w, q, held, authoritative);
      MoreSteps(w, q, d, r, 3, 5);
    }
  }

  // ---------------------------------------------------------------- a claimed dispatch

  // Spent and recorded as spent.
  function Funded(c: Cell): Cell {
    var d := WithFlags(AfterCall(c, CommitCall).0, false, true);
    d.(past := d.past.(funded := true))
  }

  // A claimed dispatch goes on to the provider exactly when its reservation is outstanding,
  // which is then committed.
  lemma ClaimedDispatchIsFunded(w: Worker, q: bool, c: Cell)
    requires CellInv(c) && c.lock.None? && Budgeted(c.rec)
    requires c.rec.state == Dispatching && c.rec.claimedBy == Some(w.process)
    ensures Undisturbed(w, q, c, WaitLock(DispatchJob), 4)
         == if c.reservation == Outstanding then (Funded(c), Executing) else (c, Done)
  {
    TwoSteps(w, q, c, DispatchJob, 2);
    if c.reservation == Outstanding {
      var d := AfterCall(Locked(w, c), CommitCall).0;
      OneStep(w, q, Locked(w, c), BackendCall(CommitCall, ToExecute), 1);
      OneStep(w, q, d, Flagging(false, true, ToExecute), 0);
    }
  }

  // ---------------------------------------------------------------- adjudicate

  // What an undisturbed admission on `e` makes of a new operation.
  function AdmittedCell(c: Cell, e: Evidence): Cell {
    var booked := Recorded(c, Outstanding, c.past.effects.(reserves := c.past.effects.reserves + 1));
    AdmittedOn(if Budgeted(c.rec) then WithFlags(booked, true, false) else c, e)
  }

  lemma BudgetedAdmission(w: Worker, x: Argument, c: Cell, e: Evidence) returns (vs: seq<View>)
    requires NewCell(w, c) && Budgeted(c.rec) && Admissible(e) && e.budgetInScope
    ensures Solo(w, false, x, vs) && vs[0] == View(c, Evaluating, None)
    ensures vs[|vs| - 1] == View(AdmittedCell(c, e), Done, None)
  {
    var d := Compose(e);
    var held := Locked(w, c);
    var booked := Recorded(held, Outstanding, c.past.effects.(reserves := c.past.effects.reserves + 1));
    var flagged := Unlocked(WithFlags(booked, true, false));
    vs := [View(c, Evaluating, None), View(c, PreCheck(e), None), View(c, WaitReserve(e), None),
           View(held, Reserving(e), None), View(booked, Recording(e), None), View(flagged, AwaitGate(e, d, true), None),
           View(flagged, AtGate(e, d, true), Some(w)), View(flagged, Admitting(e, d, true), Some(w)),
           View(AdmittedOn(flagged, e), Done, None)];
    forall i | 0 < i < |vs| ensures SoloStep(w, false, x, vs, i) {
      assert vs[i - 1].pc != Done;
      assert AdjudicateStep(w, false, vs[i - 1], vs[i]);
    }
  }

  lemma FreeAdmission(w: Worker, x: Argument, c: Cell, e: Evidence) returns (vs: seq<View>)
    requires NewCell(w, c) && !Budgeted(c.rec) && Admissible(e) && !e.budgetInScope
    ensures Solo(w, false, x, vs) && vs[0] == View(c, Evaluating, None)
    ensures vs[|vs| - 1] == View(AdmittedCell(c, e), Done, None)
  {
    var d := Compose(e);
    vs := [View(c, Evaluating, None), View(c, AwaitGate(e, d, false), None), View(c, AtGate(e, d, false), Some(w)),
           View(c, Admitting(e, d, false), Some(w)), View(AdmittedOn(c, e), Done, None)];
    forall i | 0 < i < |vs| ensures SoloStep(w, false, x, vs, i) {
      assert vs[i - 1].pc != Done;
      assert AdjudicateStep(w, false, vs[i - 1], vs[i]);
    }
  }

  // On admissible evidence, outside quarantine, an undisturbed adjudication is a history that
  // ends with the operation RESERVED, its reservation outstanding and known to the registry.
  lemma AdmissionReachesReserved(w: Worker, x: Argument, c: Cell, e: Evidence) returns (vs: seq<View>)
    requires NewCell(w, c) && Admissible(e) && e.budgetInScope == Budgeted(c.rec)
    ensures Solo(w, false, x, vs) && vs[0] == View(c, Evaluating, None)
    ensures vs[|vs| - 1] == View(AdmittedCell(c, e), Done, None)
    ensures var r := AdmittedCell(c, e).rec;
      r.state == Reserved && (Budgeted(c.rec) ==> r.reserved && r.knowsReservation)
  {
    if Budgeted(c.rec) { vs := BudgetedAdmission(w, x, c, e); } else { vs := FreeAdmission(w, x, c, e); }
  }

  // ---------------------------------------------------------------- continuations of a run

  // A settlement call by an idle worker extends a run to where the call leads.
  lemma CallExtendsRun(tr: seq<System>, w: Worker, k: Key, job: Job, steps: nat) returns (longer: seq<System>)
    requires Run(tr)
    requires var s := tr[|tr| - 1];
      Idle(s, w) && k in s.cells && s.cells[k].lock.None? && Opens(s.cells[k], WaitLock(job))
    ensures Run(longer) && tr <= longer
    ensures var s := tr[|tr| - 1];
      var (d, p) := Undisturbed(w, s.quarantined, s.cells[k], WaitLock(job), steps);
      longer[|longer| - 1] == Placed(s, w, k, View(d, p, s.guard))
  {
    var s := tr[|tr| - 1];
    var (c, p) := (s.cells[k], WaitLock(job));
    var begun := Placed(s, w, k, View(c, p, s.guard));
    assert s.cells[k := c] == s.cells;
    assert Starts(s, begun, w, k);
    RunExtends(tr, begun);
    var vs := UndisturbedIsAHistory(w, s.quarantined, ArgumentOf(s, w), c, p, s.guard, steps);
    longer := SoloExtendsRun(tr + [begun], s, w, k, vs);
  }

  // A continuation of the run at whose end the operation is in state `to`.
  ghost predicate Ends(tr: seq<System>, longer: seq<System>, k: Key, to: OpState) {
    && Run(longer) && tr <= longer
    && k in longer[|longer| - 1].cells && longer[|longer| - 1].cells[k].rec.state == to
  }

  ghost predicate CanBecome(tr: seq<System>, k: Key, to: OpState) {
    exists longer :: Ends(tr, longer, k, to)
  }

  // An idle worker and an unlocked operation in the last state of a run.
  predicate Ready(tr: seq<System>, w: Worker, k: Key) {
    && |tr| > 0 && Idle(tr[|tr| - 1], w)
    && k in tr[|tr| - 1].cells && tr[|tr| - 1].cells[k].lock.None?
  }

  lemma ConfirmationExtendsRun(tr: seq<System>, w: Worker, k: Key)
    requires Run(tr) && Ready(tr, w, k) && Confirmable(tr[|tr| - 1].cells[k])
    ensures CanBecome(tr, k, Confirmed)
  {
    var s := tr[|tr| - 1];
    RunKeepsInv(tr, |tr| - 1);
    assert CellInv(s.cells[k]);
    ConfirmConverges(w, s.quarantined, s.cells[k]);
    var longer := CallExtendsRun(tr, w, k, ConfirmJob, 5);
    assert Ends(tr, longer, k, Confirmed);
  }

  lemma ConfirmationNeeds(longer: seq<System>, i: nat, k: Key)
    requires Run(longer) && i < |longer| && k in longer[i].cells && InFlight(longer[i].cells[k].rec.state)
    requires k in longer[|longer| - 1].cells && longer[|longer| - 1].cells[k].rec.state == Confirmed
    ensures Confirmable(longer[i].cells[k])
  {
    var c := longer[i].cells[k];
    RunKeepsInv(longer, i);
    RunKeepsInv(longer, |longer| - 1);
    assert CellInv(c) && CellInv(longer[|longer| - 1].cells[k]);
    RunIsSteady(longer);
    SteadyEvolves(longer, i, |longer| - 1, k);
    if Compensated(c.reservation) { RefundedIsNeverConfirmed(longer, i, |longer| - 1, k); }
  }

  // An operation in flight can still be CONFIRMED, by whatever continuation of the run,
  // exactly when its reservation can back it; one undisturbed confirm is then enough.
  lemma ConfirmationReachableExactly(tr: seq<System>, w: Worker, k: Key)
    requires Run(tr) && Ready(tr, w, k) && InFlight(tr[|tr| - 1].cells[k].rec.state)
    ensures CanBecome(tr, k, Confirmed) <==> Confirmable(tr[|tr| - 1].cells[k])
  {
    if Confirmable(tr[|tr| - 1].cells[k]) { ConfirmationExtendsRun(tr, w, k); }
    if CanBecome(tr, k, Confirmed) {
      var longer :| Ends(tr, longer, k, Confirmed);
      ConfirmationNeeds(longer, |tr| - 1, k);
    }
  }

  // No operation is ever stuck with its budget: from any state of any run but CONFIRMED an
  // idle worker can bring it, unlocked, to FAILED, and FAILED owns nothing.
  lemma EveryOperationCanFail(tr: seq<System>, w: Worker, k: Key)
    requires Run(tr) && Ready(tr, w, k)
    ensures CanBecome(tr, k, Failed) <==> tr[|tr| - 1].cells[k].rec.state != Confirmed
  {
    var s := tr[|tr| - 1];
    var c := s.cells[k];
    RunKeepsInv(tr, |tr| - 1);
    assert CellInv(c);
    if c.rec.state == Confirmed {
      ConfirmedNeverFails(tr, k);
    } else if InFlight(c.rec.state) && Settleable(c, SaysFailed) {
      var longer := RunContinuesToOutcome(tr, w, k, SaysFailed);
      assert Ends(tr, longer, k, Failed);
    } else {
      FailConverges(w, s.quarantined, c, false);
      var longer := CallExtendsRun(tr, w, k, FailJob(false), 7);
      assert Ends(tr, longer, k, Failed);
    }
  }

  lemma ConfirmedNeverFails(tr: seq<System>, k: Key)
    requires Run(tr) && k in tr[|tr| - 1].cells && tr[|tr| - 1].cells[k].rec.state == Confirmed
    ensures !CanBecome(tr, k, Failed)
  {
    forall longer | Ends(tr, longer, k, Failed) ensures false {
      RunIsSteady(longer);
      SteadyEvolves(longer, |tr| - 1, |longer| - 1, k);
    }
  }

  // ---------------------------------------------------------------- to the provider

  // What a dispatch needs besides: nobody in the guarded section, no quarantine, and an
  // argument that is read as the call will read it.
  predicate Dispatchable(s: System, k: Key, x: Argument)
    requires k in s.cells
  {
    && s.cells[k].rec.state == Reserved && s.guard.None? && !s.quarantined
    && CopiedAtStart(x, s.cells[k].rec) && Content(x) == s.cells[k].rec.payload
  }

  // The state a dispatch call begins in, with its argument.
  function Given(s: System, w: Worker, x: Argument): System { s.(args := s.args[w := x]) }

  lemma DispatchBegins(tr: seq<System>, w: Worker, k: Key, x: Argument) returns (longer: seq<System>)
    requires Run(tr) && Ready(tr, w, k) && Dispatchable(tr[|tr| - 1], k, x)
    ensures Run(longer) && tr <= longer
    ensures var (s, c) := (tr[|tr| - 1], tr[|tr| - 1].cells[k]);
      longer[|longer| - 1] == Placed(Given(s, w, x), w, k, View(c, AwaitClaim, None))
  {
    var s := tr[|tr| - 1];
    var begun := Placed(Given(s, w, x), w, k, View(s.cells[k], AwaitClaim, None));
    assert s.cells[k := s.cells[k]] == s.cells;
    assert Starts(s, begun, w, k);
    RunExtends(tr, begun);
    longer := tr + [begun];
  }

  lemma ClaimHistory(w: Worker, x: Argument, c: Cell) returns (vs: seq<View>)
    requires c.rec.state == Reserved && Content(x) == c.rec.payload
    ensures Solo(w, false, x, vs) && vs[0] == View(c, AwaitClaim, None)
    ensures vs[|vs| - 1]
         == View(ClaimedBy(c, w, x), if Budgeted(c.rec) then WaitLock(DispatchJob) else Executing, None)
  {
    vs := [View(c, AwaitClaim, None), View(c, Claiming, Some(w)),
           View(ClaimedBy(c, w, x), if Budgeted(c.rec) then WaitLock(DispatchJob) else Executing, None)];
    forall i | 0 < i < |vs| ensures SoloStep(w, false, x, vs, i) {
      assert DispatchStep(w, false, x, vs[i - 1], vs[i]);
    }
  }

  // From the claim to the provider, through the settlement of the budget if there is one.
  function Committing(c: Cell): Cell { if Budgeted(c.rec) then Funded(c) else c }

  lemma FundingHistory(w: Worker, x: Argument, c: Cell) returns (vs: seq<View>)
    requires CellInv(c) && c.lock.None? && c.rec.state == Dispatching && c.rec.claimedBy == Some(w.process)
    requires Budgeted(c.rec) ==> c.reservation == Outstanding
    ensures Solo(w, false, x, vs)
    ensures vs[0] == View(c, if Budgeted(c.rec) then WaitLock(DispatchJob) else Executing, None)
    ensures vs[|vs| - 1] == View(Committing(c), Executing, None)
  {
    if Budgeted(c.rec) {
      ClaimedDispatchIsFunded(w, false, c);
      vs := UndisturbedIsAHistory(w, false, x, c, WaitLock(DispatchJob), None, 4);
    } else {
      vs := [View(c, Executing, None)];
    }
  }

  lemma AskingHistory(w: Worker, x: Argument, c: Cell) returns (vs: seq<View>)
    ensures Solo(w, false, x, vs) && vs[0] == View(c, Executing, None)
    ensures vs[|vs| - 1] == View(Asked(c, x), Returned, None)
  {
    vs := [View(c, Executing, None), View(Asked(c, x), Returned, None)];
    assert DispatchStep(w, false, x, vs[0], vs[1]);
  }

  lemma DispatchReachesCall(tr: seq<System>, w: Worker, k: Key, x: Argument) returns (longer: seq<System>)
    requires Run(tr) && Ready(tr, w, k) && Dispatchable(tr[|tr| - 1], k, x)
    requires var c := tr[|tr| - 1].cells[k]; Budgeted(c.rec) ==> c.reservation == Outstanding
    ensures Run(longer) && tr <= longer
    ensures var (s, c) := (tr[|tr| - 1], tr[|tr| - 1].cells[k]);
      longer[|longer| - 1] == Placed(Given(s, w, x), w, k, View(Committing(ClaimedBy(c, w, x)), Executing, None))
  {
    var s := tr[|tr| - 1];
    var (c, g) := (s.cells[k], Given(s, w, x));
    RunKeepsInv(tr, |tr| - 1);
    assert CellInv(c);
    longer := DispatchBegins(tr, w, k, x);
    var claim := ClaimHistory(w, x, c);
    longer := SoloExtendsRun(longer, g, w, k, claim);
    var funding := FundingHistory(w, x, ClaimedBy(c, w, x));
    longer := SoloExtendsRun(longer, g, w, k, funding);
  }

  lemma DispatchExtendsRun(tr: seq<System>, w: Worker, k: Key, x: Argument) returns (longer: seq<System>)
    requires Run(tr) && Ready(tr, w, k) && Dispatchable(tr[|tr| - 1], k, x)
    requires var c := tr[|tr| - 1].cells[k]; Budgeted(c.rec) ==> c.reservation == Outstanding
    ensures Run(longer) && tr <= longer
    ensures var (s, c) := (tr[|tr| - 1], tr[|tr| - 1].cells[k]);
      longer[|longer| - 1]
        == Placed(Given(s, w, x), w, k, View(Asked(Committing(ClaimedBy(c, w, x)), x), Returned, None))
  {
    var (s, c) := (tr[|tr| - 1], tr[|tr| - 1].cells[k]);
    longer := DispatchReachesCall(tr, w, k, x);
    var asking := AskingHistory(w, x, Committing(ClaimedBy(c, w, x)));
    longer := SoloExtendsRun(longer, Given(s, w, x), w, k, asking);
  }

  // The provider has been called for the recorded amount and payload, on committed budget.
  predicate Executed(c: Cell) {
    && c.past.provider == Provider(1, c.rec.amount, c.rec.payload)
    && (Budgeted(c.rec) ==> c.reservation == Committed && c.rec.committed && c.past.funded)
  }

  ghost predicate Reaches(tr: seq<System>, longer: seq<System>, k: Key) {
    Run(longer) && tr <= longer && k in longer[|longer| - 1].cells && Executed(longer[|longer| - 1].cells[k])
  }

  // A call to the provider, at whatever later moment, excludes a reservation that was given
  // back while the operation was still RESERVED.
  lemma CallNeedsReservation(longer: seq<System>, i: nat, k: Key)
    requires Run(longer) && i < |longer| && k in longer[i].cells && longer[i].cells[k].rec.state == Reserved
    requires k in longer[|longer| - 1].cells && longer[|longer| - 1].cells[k].past.provider.calls > 0
    ensures Budgeted(longer[i].cells[k].rec) ==> longer[i].cells[k].reservation == Outstanding
  {
    RunKeepsInv(longer, i);
    RunKeepsInv(longer, |longer| - 1);
    assert CellInv(longer[i].cells[k]) && CellInv(longer[|longer| - 1].cells[k]);
    RunIsSteady(longer);
    SteadyEvolves(longer, i, |longer| - 1, k);
  }

  // From any state of any run in which an operation is RESERVED and may be dispatched, the
  // run has a continuation to its one provider call exactly when its reservation, if it
  // needs one, is still outstanding; one undisturbed call of an idle worker is then enough.
  // An escalation that expired and was approved again has lost it.
  lemma ProviderReachableExactly(tr: seq<System>, w: Worker, k: Key, x: Argument)
    requires Run(tr) && Ready(tr, w, k) && Dispatchable(tr[|tr| - 1], k, x)
    ensures var c := tr[|tr| - 1].cells[k];
      (exists longer :: Reaches(tr, longer, k)) <==> (Budgeted(c.rec) ==> c.reservation == Outstanding)
  {
    var c := tr[|tr| - 1].cells[k];
    if Budgeted(c.rec) ==> c.reservation == Outstanding {
      RunKeepsInv(tr, |tr| - 1);
      assert CellInv(c);
      var longer := DispatchExtendsRun(tr, w, k, x);
      assert Reaches(tr, longer, k);
    }
    forall longer | Reaches(tr, longer, k) ensures Budgeted(c.rec) ==> c.reservation == Outstanding {
      CallNeedsReservation(longer, |tr| - 1, k);
    }
  }

  // ---------------------------------------------------------------- a whole life

  lemma AdmissionExtendsRun(tr: seq<System>, w: Worker, k: Key, c: Cell, e: Evidence) returns (longer: seq<System>)
    requires Run(tr) && NewCell(w, c) && Admissible(e) && e.budgetInScope == Budgeted(c.rec)
    requires var s := tr[|tr| - 1]; Idle(s, w) && k !in s.cells && s.guard.None? && !s.quarantined
    ensures Run(longer) && tr <= longer
    ensures longer[|longer| - 1] == Placed(tr[|tr| - 1], w, k, View(AdmittedCell(c, e), Done, None))
  {
    var s := tr[|tr| - 1];
    var begun := Placed(s, w, k, View(c, Evaluating, None));
    assert Registers(s, begun, w, k);
    RunExtends(tr, begun);
    var vs := AdmissionReachesReserved(w, ArgumentOf(s, w), c, e);
    longer := SoloExtendsRun(tr + [begun], s, w, k, vs);
  }

  // The provider's answer CONFIRMED takes the worker to confirm.
  lemma AnswerExtendsRun(tr: seq<System>, w: Worker, k: Key) returns (longer: seq<System>)
    requires Run(tr) && w in tr[|tr| - 1].workers && tr[|tr| - 1].workers[w] == Proc(k, Returned)
    requires k in tr[|tr| - 1].cells
    ensures Run(longer) && tr <= longer
    ensures var s := tr[|tr| - 1];
      longer[|longer| - 1] == Placed(s, w, k, View(s.cells[k], WaitLock(ConfirmJob), s.guard))
  {
    var s := tr[|tr| - 1];
    var (a, b) := (View(s.cells[k], Returned, s.guard), View(s.cells[k], WaitLock(ConfirmJob), s.guard));
    assert Placed(s, w, k, a) == s;
    assert DispatchStep(w, s.quarantined, ArgumentOf(s, w), a, b);
    StepIsNext(s, w, k, a, b);
    RunExtends(tr, Placed(s, w, k, b));
    longer := tr + [Placed(s, w, k, b)];
  }

  lemma ConfirmedAfterCall(tr: seq<System>, w: Worker, k: Key) returns (longer: seq<System>)
    requires Run(tr) && w in tr[|tr| - 1].workers && tr[|tr| - 1].workers[w] == Proc(k, Returned)
    requires k in tr[|tr| - 1].cells && Confirmable(tr[|tr| - 1].cells[k]) && tr[|tr| - 1].cells[k].lock.None?
    ensures Run(longer) && tr <= longer
    ensures k in longer[|longer| - 1].cells && longer[|longer| - 1].cells[k] == Confirming(tr[|tr| - 1].cells[k])
  {
    var s := tr[|tr| - 1];
    var c := s.cells[k];
    RunKeepsInv(tr, |tr| - 1);
    assert CellInv(c);
    ConfirmConverges(w, s.quarantined, c);
    var answered := AnswerExtendsRun(tr, w, k);
    var vs := UndisturbedIsAHistory(w, s.quarantined, ArgumentOf(s, w), c, WaitLock(ConfirmJob), s.guard, 5);
    longer := SoloExtendsRun(answered, s, w, k, vs);
  }

  // A caller that passes the registered payload, copied if the operation is gated.
  function Faithful(c: Cell): Argument {
    Argument(c.rec.payload, if c.rec.gated then Some(c.rec.payload) else None, false)
  }

  function ExecutedCell(w: Worker, c: Cell, e: Evidence): Cell {
    Asked(Committing(ClaimedBy(AdmittedCell(c, e), w, Faithful(c))), Faithful(c))
  }

  // Every run in which a worker is idle, nobody is in the guarded section and quarantine is
  // off can go on to register a new operation, admit it on both kernels and call the
  // provider once for its amount and payload, its budget committed before.
  lemma NewOperationExecutes(tr: seq<System>, w: Worker, k: Key, c: Cell, e: Evidence) returns (longer: seq<System>)
    requires Run(tr) && NewCell(w, c) && Admissible(e) && e.budgetInScope == Budgeted(c.rec)
    requires var s := tr[|tr| - 1]; Idle(s, w) && k !in s.cells && s.guard.None? && !s.quarantined
    ensures Reaches(tr, longer, k)
    ensures var t := longer[|longer| - 1];
      t.cells[k] == ExecutedCell(w, c, e) && w in t.workers && t.workers[w] == Proc(k, Returned)
  {
    var admitted := AdmissionExtendsRun(tr, w, k, c, e);
    longer := DispatchExtendsRun(admitted, w, k, Faithful(c));
  }

  // A continuation at whose end the operation registered as `c` is CONFIRMED, the provider
  // having been called once.
  ghost predicate Completes(tr: seq<System>, longer: seq<System>, k: Key, c: Cell) {
    && Ends(tr, longer, k, Confirmed) && Reaches(tr, longer, k)
    && var r := longer[|longer| - 1].cells[k].rec;
    r.amount == c.rec.amount && r.resource == c.rec.resource && r.payload == c.rec.payload
  }

  // It can also come to CONFIRMED exactly when a positive amount names its resource. Without
  // one it is admitted and executed, and no call ever confirms it.
  lemma NewOperationCompletesExactly(tr: seq<System>, w: Worker, k: Key, c: Cell, e: Evidence)
    requires Run(tr) && NewCell(w, c) && Admissible(e) && e.budgetInScope == Budgeted(c.rec)
    requires var s := tr[|tr| - 1]; Idle(s, w) && k !in s.cells && s.guard.None? && !s.quarantined
    ensures (exists longer :: Completes(tr, longer, k, c)) <==> (c.rec.amount > 0.0 ==> c.rec.resource.Some?)
  {
    if c.rec.amount > 0.0 ==> c.rec.resource.Some? {
      var executed := NewOperationExecutes(tr, w, k, c, e);
      var longer := ConfirmedAfterCall(executed, w, k);
      assert Completes(tr, longer, k, c);
    }
    forall longer: seq<System> | Completes(tr, longer, k, c) ensures c.rec.amount > 0.0 ==> c.rec.resource.Some? {
      RunKeepsInv(longer, |longer| - 1);
      assert CellInv(longer[|longer| - 1].cells[k]);
    }
  }
}
