// Safety of the settlement protocol over every run: any number of keys and workers, any
// interleaving, crashes after any step, lost replies.
module SettlementSafety {
  import opened Wrappers
  import opened Lifecycle
  import opened Lattice
  import opened Settlement

  predicate SameBudget(c: Cell, d: Cell) {
    && d.reservation == c.reservation && d.past.effects == c.past.effects
    && d.rec.reserved == c.rec.reserved && d.rec.committed == c.rec.committed
    && d.rec.knowsReservation == c.rec.knowsReservation
  }

  // Histories only grow.
  predicate Grown(c: Cell, d: Cell) {
    && c.past.effects.reserves <= d.past.effects.reserves && c.past.effects.commits <= d.past.effects.commits
    && c.past.effects.releases <= d.past.effects.releases && c.past.effects.refunds <= d.past.effects.refunds
    && c.past.provider.calls <= d.past.provider.calls
  }

  // What a step of `w` guarantees to everybody else working on the same key.
  predicate Guarantee(w: Worker, c: Cell, d: Cell) {
    var lockedByOther := c.lock.Some? && c.lock != Some(w);
    && d.rec.amount == c.rec.amount && d.rec.resource == c.rec.resource && d.rec.payload == c.rec.payload
    && d.rec.gated == c.rec.gated && d.creator == c.creator
    && (d.rec.state == c.rec.state || Legal(c.rec.state, d.rec.state))
    && (lockedByOther ==> d.lock == c.lock && SameBudget(c, d))
    && (lockedByOther && d.rec.state != c.rec.state ==>
          c.rec.state == Created || (c.rec.state == Reserved && d.rec.state == Dispatching) || d.rec.state == Unknown)
    && (c.rec.state == Held && d.rec.state != Held ==> c.lock == Some(w))
    && (c.creator != w && c.reservation == Absent ==> d.reservation == Absent)
    && (c.creator != w && c.rec.state == Created ==> d.rec.state == Created || d.rec.state == Failed)
    && (c.rec.knowsReservation ==> d.rec.knowsReservation)
    && (c.past.winner.Some? ==> d.past.winner == c.past.winner)
    && (d.past.winner == c.past.winner ==> d.past.shown == c.past.shown)
    && (c.past.winner != Some(w) ==> d.past.provider == c.past.provider && d.past.handed == c.past.handed)
    && (c.past.funded ==> d.past.funded)
    && Grown(c, d)
    && (Compensated(c.reservation) ==> d.reservation == c.reservation)
  }

  // The moves a quarantine must stop.
  predicate AdmittingMove(before: OpState, after: OpState) {
    || (before == Created && (after == Reserved || after == Held))
    || (before == Held && after == Reserved)
    || (before == Reserved && after == Dispatching)
  }

  predicate GuardKept(w: Worker, g: Option<Worker>, h: Option<Worker>) {
    h == g || (g.None? && h == Some(w)) || (g == Some(w) && h.None?)
  }

  predicate Good(w: Worker, q: bool, v: View) {
    CellInv(v.cell) && LocalInv(w, q, v.guard, v.cell, v.pc)
  }

  predicate Sound(w: Worker, q: bool, a: View, b: View) {
    Good(w, q, b) && Guarantee(w, a.cell, b.cell) && GuardKept(w, a.guard, b.guard)
    && (q ==> !AdmittingMove(a.cell.rec.state, b.cell.rec.state))
  }

  lemma BeforeReserveSound(w: Worker, q: bool, a: View, b: View)
    requires Good(w, q, a) && AdjudicateStep(w, q, a, b)
    requires a.pc.Evaluating? || a.pc.PreCheck? || a.pc.WaitReserve?
    ensures Sound(w, q, a, b)
  {}

  lemma ReserveSound(w: Worker, q: bool, a: View, b: View)
    requires Good(w, q, a) && AdjudicateStep(w, q, a, b)
    requires a.pc.Reserving?
    ensures Sound(w, q, a, b)
  {}

  lemma RecordSound(w: Worker, q: bool, a: View, b: View)
    requires Good(w, q, a) && AdjudicateStep(w, q, a, b)
    requires a.pc.Recording? || a.pc.Undoing?
    ensures Sound(w, q, a, b)
  {}

  lemma GateSound(w: Worker, q: bool, a: View, b: View)
    requires Good(w, q, a) && AdjudicateStep(w, q, a, b) && (a.pc.AwaitGate? || a.pc.AtGate?)
    ensures Sound(w, q, a, b)
  {}

  lemma AdmitSound(w: Worker, q: bool, a: View, b: View)
    requires Good(w, q, a) && AdjudicateStep(w, q, a, b) && a.pc.Admitting?
    ensures Sound(w, q, a, b)
  {
    AdmissionNeedsBothKernels(a.pc.e);
  }

  lemma AdjudicateSound(w: Worker, q: bool, a: View, b: View)
    requires Good(w, q, a) && AdjudicateStep(w, q, a, b)
    ensures Sound(w, q, a, b)
  {
    if a.pc.Reserving? { ReserveSound(w, q, a, b); }
    else if a.pc.Recording? || a.pc.Undoing? { RecordSound(w, q, a, b); }
    else if a.pc.AwaitGate? || a.pc.AtGate? { GateSound(w, q, a, b); }
    else if a.pc.Admitting? { AdmitSound(w, q, a, b); }
    else { BeforeReserveSound(w, q, a, b); }
  }

  lemma ClaimSound(w: Worker, q: bool, x: Argument, a: View, b: View)
    requires Good(w, q, a) && DispatchStep(w, q, x, a, b) && (a.pc.AwaitClaim? || a.pc.Claiming?)
    ensures Sound(w, q, a, b)
  {}

  lemma ExecuteSound(w: Worker, q: bool, x: Argument, a: View, b: View)
    requires Good(w, q, a) && DispatchStep(w, q, x, a, b) && !(a.pc.AwaitClaim? || a.pc.Claiming?)
    ensures Sound(w, q, a, b)
  {}

  lemma DispatchSound(w: Worker, q: bool, x: Argument, a: View, b: View)
    requires Good(w, q, a) && DispatchStep(w, q, x, a, b)
    ensures Sound(w, q, a, b)
  {
    if a.pc.AwaitClaim? || a.pc.Claiming? { ClaimSound(w, q, x, a, b); } else { ExecuteSound(w, q, x, a, b); }
  }

  lemma ResolveSound(w: Worker, q: bool, a: View, b: View)
    requires Good(w, q, a) && ResolveStep(w, q, a, b)
    ensures Sound(w, q, a, b)
  {}

  // The same, for the result of a function that steps a locked cell.
  predicate Fine(w: Worker, q: bool, g: Option<Worker>, c: Cell, r: (Cell, Pc)) {
    CellInv(r.0) && LocalInv(w, q, g, r.0, r.1) && Guarantee(w, c, r.0)
    && !AdmittingMove(c.rec.state, r.0.rec.state)
  }

  predicate Holding(w: Worker, c: Cell) { CellInv(c) && c.lock == Some(w) }

  // Releasing the lock and stopping is always fine, and so is moving to a position whose
  // knowledge already holds.
  lemma GiveUpFine(w: Worker, q: bool, g: Option<Worker>, c: Cell)
    requires Holding(w, c)
    ensures Fine(w, q, g, c, GiveUp(c))
  {}

  lemma StayFine(w: Worker, q: bool, g: Option<Worker>, c: Cell, p: Pc)
    requires Holding(w, c) && LocalInv(w, q, g, c, p)
    ensures Fine(w, q, g, c, (c, p))
  {}

  // So is recording an escalation or an unknown outcome on the way out.
  lemma LeaveFine(w: Worker, q: bool, g: Option<Worker>, c: Cell, to: OpState)
    requires Holding(w, c)
    requires to == c.rec.state || (c.rec.state == Held && to == Escalated)
          || ((c.rec.state == Escalated || c.rec.state == Dispatching) && to == Unknown)
    ensures Fine(w, q, g, c, GiveUp(WithState(c, to)))
  {}

  lemma FailFine(w: Worker, q: bool, g: Option<Worker>, c: Cell, authoritative: bool)
    requires Holding(w, c)
    ensures Fine(w, q, g, c, DecideFail(c, authoritative))
  {
    var r := DecideFail(c, authoritative);
    if r.1 == Done { GiveUpFine(w, q, g, c); } else { StayFine(w, q, g, c, r.1); }
  }

  lemma ConfirmFine(w: Worker, q: bool, g: Option<Worker>, c: Cell)
    requires Holding(w, c)
    ensures Fine(w, q, g, c, DecideConfirm(c))
  {
    var r := DecideConfirm(c);
    if r.1 == Done { GiveUpFine(w, q, g, c); } else { StayFine(w, q, g, c, r.1); }
  }

  lemma ReconcileFine(w: Worker, q: bool, g: Option<Worker>, c: Cell, knew: bool, answer: Answer)
    requires Holding(w, c) && PastDispatch(c.rec.state) && (knew ==> c.rec.knowsReservation)
    ensures Fine(w, q, g, c, DecideReconcile(c, knew, answer))
  {
    match answer
    case SaysConfirmed => ReconcileConfirmedFine(w, q, g, c, knew);
    case SaysFailed => ReconcileFailedFine(w, q, g, c, knew);
    case _ => ReconcileOpenFine(w, q, g, c, knew, answer);
  }

  lemma ReconcileConfirmedFine(w: Worker, q: bool, g: Option<Worker>, c: Cell, knew: bool)
    requires Holding(w, c) && PastDispatch(c.rec.state) && (knew ==> c.rec.knowsReservation)
    ensures Fine(w, q, g, c, DecideReconcile(c, knew, SaysConfirmed))
  {
    var r := DecideReconcile(c, knew, SaysConfirmed);
    if r.1 == Done { GiveUpFine(w, q, g, c); } else { StayFine(w, q, g, c, r.1); }
  }

  lemma ReconcileFailedFine(w: Worker, q: bool, g: Option<Worker>, c: Cell, knew: bool)
    requires Holding(w, c) && PastDispatch(c.rec.state) && (knew ==> c.rec.knowsReservation)
    ensures Fine(w, q, g, c, DecideReconcile(c, knew, SaysFailed))
  {
    var r := DecideReconcile(c, knew, SaysFailed);
    if r.1 == Done { GiveUpFine(w, q, g, c); } else { StayFine(w, q, g, c, r.1); }
  }

  lemma ReconcileOpenFine(w: Worker, q: bool, g: Option<Worker>, c: Cell, knew: bool, answer: Answer)
    requires Holding(w, c) && PastDispatch(c.rec.state)
    requires answer == SaysFailedButViolated || answer == Unresolved
    ensures Fine(w, q, g, c, DecideReconcile(c, knew, answer))
  {
    if InFlight(c.rec.state) { LeaveFine(w, q, g, c, Moved(c.rec.state, Unknown)); }
    else { GiveUpFine(w, q, g, c); }
  }

  lemma ReleaseFine(w: Worker, q: bool, g: Option<Worker>, c: Cell, goal: Goal)
    requires Holding(w, c) && c.rec.state in {Held, Escalated} && goal in {ToFailed, StayOpen}
    ensures Fine(w, q, g, c, DecideRelease(c, goal))
  {
    var r := DecideRelease(c, goal);
    if r.1 == Done { GiveUpFine(w, q, g, c); } else { StayFine(w, q, g, c, r.1); }
  }

  lemma DispatchFine(w: Worker, q: bool, g: Option<Worker>, c: Cell, revalidate: bool)
    requires Holding(w, c) && LocalInv(w, q, g, c, Deciding(DispatchJob))
    ensures Fine(w, q, g, c, DecideDispatch(w, c, revalidate))
  {
    var r := DecideDispatch(w, c, revalidate);
    if r.1 == Done { GiveUpFine(w, q, g, c); } else { StayFine(w, q, g, c, r.1); }
  }

  lemma VetoFine(w: Worker, q: bool, g: Option<Worker>, c: Cell)
    requires Holding(w, c) && c.rec.state == Held
    ensures Fine(w, q, g, c, DecideVeto(c))
  {
    var r := DecideVeto(c);
    if r.1 == Done { GiveUpFine(w, q, g, c); } else { StayFine(w, q, g, c, r.1); }
  }

  lemma HoldJobFine(w: Worker, q: bool, g: Option<Worker>, c: Cell, job: Job)
    requires Holding(w, c) && (job == ResolveJob || job == EscalateJob || job == ExpireEscalatedJob)
    ensures Fine(w, q, g, c, Settle(w, c, Deciding(job), true, q))
  {
    if job == EscalateJob && c.rec.state == Held { LeaveFine(w, q, g, c, Escalated); }
    else if job == ExpireEscalatedJob && c.rec.state == Escalated { LeaveFine(w, q, g, c, Unknown); }
    else if job == ResolveJob && c.rec.state == Held && !q { StayFine(w, q, g, c, ReEvaluating); }
    else { GiveUpFine(w, q, g, c); }
  }

  lemma DecideFine(w: Worker, q: bool, g: Option<Worker>, c: Cell, job: Job, revalidate: bool)
    requires Holding(w, c) && LocalInv(w, q, g, c, Deciding(job))
    ensures Fine(w, q, g, c, Settle(w, c, Deciding(job), revalidate, q))
  {
    match job
    case FailJob(authoritative) => FailFine(w, q, g, c, authoritative);
    case ConfirmJob => ConfirmFine(w, q, g, c);
    case ReconcileJob(knew, answer) => ReconcileFine(w, q, g, c, knew, answer);
    case DispatchJob => DispatchFine(w, q, g, c, revalidate);
    case VetoJob => VetoFine(w, q, g, c);
    case ExitJob(approve) => ExitFine(w, q, g, c, approve);
    case ExpireHoldJob => ExpireFine(w, q, g, c);
    case _ => HoldJobFine(w, q, g, c, job);
  }

  lemma ExitFine(w: Worker, q: bool, g: Option<Worker>, c: Cell, approve: bool)
    requires Holding(w, c)
    ensures Fine(w, q, g, c, Settle(w, c, Deciding(ExitJob(approve)), true, q))
  {
    if c.rec.state != Escalated || (approve && q) { GiveUpFine(w, q, g, c); }
    else if approve { StayFine(w, q, g, c, Closing(Held)); }
    else { ReleaseFine(w, q, g, c, ToFailed); }
  }

  lemma ExpireFine(w: Worker, q: bool, g: Option<Worker>, c: Cell)
    requires Holding(w, c)
    ensures Fine(w, q, g, c, Settle(w, c, Deciding(ExpireHoldJob), true, q))
  {
    if c.rec.state == Held { ReleaseFine(w, q, g, c, ToFailed); }
    else if c.rec.state == Escalated { ReleaseFine(w, q, g, c, StayOpen); }
    else { GiveUpFine(w, q, g, c); }
  }

  lemma CommitCallFine(w: Worker, q: bool, g: Option<Worker>, c: Cell, goal: Goal)
    requires Holding(w, c) && LocalInv(w, q, g, c, BackendCall(CommitCall, goal))
    ensures Fine(w, q, g, c, Settle(w, c, BackendCall(CommitCall, goal), true, q))
  {}

  lemma ReleaseCallFine(w: Worker, q: bool, g: Option<Worker>, c: Cell, goal: Goal)
    requires Holding(w, c) && LocalInv(w, q, g, c, BackendCall(ReleaseCall, goal))
    ensures Fine(w, q, g, c, Settle(w, c, BackendCall(ReleaseCall, goal), true, q))
  {}

  lemma RefundCallFine(w: Worker, q: bool, g: Option<Worker>, c: Cell, goal: Goal)
    requires Holding(w, c) && LocalInv(w, q, g, c, BackendCall(RefundCall, goal))
    ensures Fine(w, q, g, c, Settle(w, c, BackendCall(RefundCall, goal), true, q))
  {}

  lemma FlagFine(w: Worker, q: bool, g: Option<Worker>, c: Cell, reserved: bool, committed: bool, goal: Goal)
    requires Holding(w, c) && LocalInv(w, q, g, c, Flagging(reserved, committed, goal))
    ensures Fine(w, q, g, c, Settle(w, c, Flagging(reserved, committed, goal), true, q))
  {}

  lemma RepairFine(w: Worker, q: bool, g: Option<Worker>, c: Cell, reserved: bool, committed: bool, job: Job)
    requires Holding(w, c) && LocalInv(w, q, g, c, Repairing(reserved, committed, job))
    ensures Fine(w, q, g, c, Settle(w, c, Repairing(reserved, committed, job), true, q))
  {}

  lemma CloseFine(w: Worker, q: bool, g: Option<Worker>, c: Cell, target: OpState)
    requires Holding(w, c) && LocalInv(w, q, g, c, Closing(target))
    ensures Fine(w, q, g, c, Settle(w, c, Closing(target), true, q))
  {}

  lemma LockFine(w: Worker, q: bool, g: Option<Worker>, c: Cell, job: Job)
    requires CellInv(c) && c.lock.None? && LocalInv(w, q, g, c, WaitLock(job)) && job != VetoJob
    ensures Fine(w, q, g, c, Settle(w, c, WaitLock(job), true, q))
  {}

  lemma DecideSound(w: Worker, q: bool, a: View, b: View)
    requires Good(w, q, a) && SettleStep(w, q, a, b) && a.pc.Deciding?
    ensures Sound(w, q, a, b)
  {
    DecideFine(w, q, a.guard, a.cell, a.pc.job, true);
    DecideFine(w, q, a.guard, a.cell, a.pc.job, false);
    assert Fine(w, q, a.guard, a.cell, (b.cell, b.pc));
  }

  lemma CallSound(w: Worker, q: bool, a: View, b: View)
    requires Good(w, q, a) && SettleStep(w, q, a, b) && a.pc.BackendCall?
    ensures Sound(w, q, a, b)
  {
    match a.pc.call {
      case CommitCall => CommitCallFine(w, q, a.guard, a.cell, a.pc.goal);
      case ReleaseCall => ReleaseCallFine(w, q, a.guard, a.cell, a.pc.goal);
      case RefundCall => RefundCallFine(w, q, a.guard, a.cell, a.pc.goal);
    }
    assert Fine(w, q, a.guard, a.cell, (b.cell, b.pc));
  }

  lemma FlagSound(w: Worker, q: bool, a: View, b: View)
    requires Good(w, q, a) && SettleStep(w, q, a, b) && a.pc.Flagging?
    ensures Sound(w, q, a, b)
  {
    FlagFine(w, q, a.guard, a.cell, a.pc.reserved, a.pc.committed, a.pc.goal);
    assert Fine(w, q, a.guard, a.cell, (b.cell, b.pc));
  }

  lemma EdgeSound(w: Worker, q: bool, a: View, b: View)
    requires Good(w, q, a) && SettleStep(w, q, a, b)
    requires a.pc.WaitLock? || a.pc.Repairing? || a.pc.Closing?
    ensures Sound(w, q, a, b)
  {
    match a.pc
    case WaitLock(job) => LockFine(w, q, a.guard, a.cell, job);
    case Repairing(r, m, job) => RepairFine(w, q, a.guard, a.cell, r, m, job);
    case Closing(target) => CloseFine(w, q, a.guard, a.cell, target);
  }

  lemma SettleSound(w: Worker, q: bool, a: View, b: View)
    requires Good(w, q, a) && SettleStep(w, q, a, b)
    ensures Sound(w, q, a, b)
  {
    match a.pc
    case Deciding(_) => DecideSound(w, q, a, b);
    case BackendCall(_, _) => CallSound(w, q, a, b);
    case Flagging(_, _, _) => FlagSound(w, q, a, b);
    case _ => EdgeSound(w, q, a, b);
  }

  lemma StopSound(w: Worker, q: bool, a: View, b: View)
    requires Good(w, q, a) && Stops(w, a, b)
    ensures Sound(w, q, a, b)
  {}

  lemma StepSound(w: Worker, q: bool, x: Argument, a: View, b: View)
    requires Good(w, q, a) && WorkerStep(w, q, x, a, b)
    ensures Sound(w, q, a, b)
  {
    if Stops(w, a, b) { StopSound(w, q, a, b); }
    else if AdjudicateStep(w, q, a, b) { AdjudicateSound(w, q, a, b); }
    else if DispatchStep(w, q, x, a, b) { DispatchSound(w, q, x, a, b); }
    else if ResolveStep(w, q, a, b) { ResolveSound(w, q, a, b); }
    else { SettleSound(w, q, a, b); }
  }

  // Whatever another worker does, what I know at my position stays true.
  lemma KnowledgeStands(w: Worker, v: Worker, q: bool, g: Option<Worker>, h: Option<Worker>, c: Cell, d: Cell, p: Pc)
    requires v != w && CellInv(c) && LocalInv(v, q, g, c, p)
    requires Guarantee(w, c, d) && GuardKept(w, g, h) && CellInv(d)
    ensures LocalInv(v, q, h, d, p)
  {}

  // ---------------------------------------------------------------- all runs

  lemma OpeningIsGood(s: System, w: Worker, k: Key, p: Pc)
    requires Inv(s) && k in s.cells && Opens(s.cells[k], p)
    ensures LocalInv(w, s.quarantined, s.guard, s.cells[k], p)
  {}

  lemma MoveKeepsInv(s: System, t: System, w: Worker)
    requires Inv(s) && Moves(s, t, w)
    ensures Inv(t)
    ensures Guarantee(w, s.cells[s.workers[w].key], t.cells[s.workers[w].key])
  {
    var k := s.workers[w].key;
    var a := View(s.cells[k], s.workers[w].pc, s.guard);
    var b := View(t.cells[k], t.workers[w].pc, t.guard);
    StepSound(w, s.quarantined, ArgumentOf(s, w), a, b);
    forall v | v in t.workers && t.workers[v].pc != Done
      ensures t.workers[v].key in t.cells
        && LocalInv(v, t.quarantined, t.guard, t.cells[t.workers[v].key], t.workers[v].pc)
    {
      if v != w {
        var m := s.workers[v].key;
        if m == k {
          KnowledgeStands(w, v, s.quarantined, s.guard, t.guard, s.cells[k], t.cells[k], s.workers[v].pc);
        } else {
          Elsewhere(w, v, s.quarantined, s.guard, t.guard, s.cells[m], s.workers[v].pc);
        }
      }
    }
  }

  lemma Elsewhere(w: Worker, v: Worker, q: bool, g: Option<Worker>, h: Option<Worker>, c: Cell, p: Pc)
    requires v != w && LocalInv(v, q, g, c, p) && GuardKept(w, g, h)
    ensures LocalInv(v, q, h, c, p)
  {}

  // The mark can only change while nobody is past the final quarantine check.
  lemma QuarantineKeepsInv(s: System, t: System)
    requires Inv(s) && Quarantines(s, t)
    ensures Inv(t)
  {
    forall v | v in t.workers && t.workers[v].pc != Done
      ensures LocalInv(v, t.quarantined, t.guard, t.cells[t.workers[v].key], t.workers[v].pc)
    {
      assert LocalInv(v, s.quarantined, s.guard, s.cells[s.workers[v].key], s.workers[v].pc);
    }
  }

  lemma RegisterKeepsInv(s: System, t: System, w: Worker, k: Key)
    requires Inv(s) && Registers(s, t, w, k)
    ensures Inv(t)
  {
    assert CellInv(t.cells[k]);
  }

  lemma StartKeepsInv(s: System, t: System, w: Worker, k: Key)
    requires Inv(s) && Starts(s, t, w, k)
    ensures Inv(t)
  {
    OpeningIsGood(s, w, k, t.workers[w].pc);
  }

  lemma StepKeepsInv(s: System, t: System)
    requires Inv(s) && Next(s, t)
    ensures Inv(t)
  {
    if w: Worker, k: Key :| Registers(s, t, w, k) {
      RegisterKeepsInv(s, t, w, k);
    } else if w: Worker, k: Key :| Starts(s, t, w, k) {
      StartKeepsInv(s, t, w, k);
    } else if w: Worker :| Moves(s, t, w) {
      MoveKeepsInv(s, t, w);
    } else if w: Worker :| Mutates(s, t, w) {
    } else {
      QuarantineKeepsInv(s, t);
    }
  }

  lemma {:induction false} RunKeepsInv(tr: seq<System>, i: nat)
    requires Run(tr) && i < |tr|
    ensures Inv(tr[i])
  {
    if i > 0 {
      RunKeepsInv(tr, i - 1);
      assert StepAt(tr, i);
      StepKeepsInv(tr[i - 1], tr[i]);
    }
  }

  // In every reachable state, for every key: a FAILED operation holds no budget, a
  // CONFIRMED one with a positive amount has its reservation COMMITTED, the provider ran
  // at most once, with the recorded amount and only after the reservation was
  // committed and that ownership persisted, and whoever won the dispatch claim was
  // admitted on the answers of both kernels. The backend saw each effect at most once.
  lemma SettlementIsSafe(tr: seq<System>, i: nat, k: Key)
    requires Run(tr) && i < |tr| && k in tr[i].cells
    ensures SafeCell(tr[i].cells[k])
  {
    RunKeepsInv(tr, i);
  }

  // A key's cell from one state to the next: everything that never happens backwards.
  predicate Evolves(c: Cell, d: Cell) {
    && d.rec.amount == c.rec.amount && d.rec.resource == c.rec.resource && d.rec.payload == c.rec.payload
    && (d.rec.state == c.rec.state || Legal(c.rec.state, d.rec.state))
    && Grown(c, d)
    && (c.rec.knowsReservation ==> d.rec.knowsReservation)
    && (c.past.winner.Some? ==> d.past.winner == c.past.winner)
    && (Compensated(c.reservation) ==> d.reservation == c.reservation)
  }

  lemma GuaranteeEvolves(w: Worker, c: Cell, d: Cell)
    requires Guarantee(w, c, d)
    ensures Evolves(c, d)
  {}

  lemma MoveEvolves(s: System, t: System, w: Worker, k: Key)
    requires Inv(s) && Moves(s, t, w) && k in s.cells
    ensures k in t.cells && Evolves(s.cells[k], t.cells[k])
  {
    MoveKeepsInv(s, t, w);
    if k == s.workers[w].key { GuaranteeEvolves(w, s.cells[k], t.cells[k]); }
  }

  lemma StepEvolves(s: System, t: System, k: Key)
    requires Inv(s) && Next(s, t) && k in s.cells
    ensures k in t.cells && Evolves(s.cells[k], t.cells[k])
  {
    if w: Worker, m: Key :| Registers(s, t, w, m) {
    } else if w: Worker, m: Key :| Starts(s, t, w, m) {
    } else if w: Worker :| Moves(s, t, w) {
      MoveEvolves(s, t, w, k);
    }
  }

  predicate EvolvesLate(c: Cell, d: Cell) {
    && d.rec.amount == c.rec.amount && d.rec.resource == c.rec.resource && d.rec.payload == c.rec.payload
    && Grown(c, d)
    && (Compensated(c.reservation) ==> d.reservation == c.reservation)
    && (c.rec.state == Confirmed ==> d.rec.state == Confirmed)
    && (c.rec.state == Failed ==> d.rec.state == Failed)
    && (PastDispatch(c.rec.state) ==> PastDispatch(d.rec.state))
  }

  lemma LateThenStep(c: Cell, d: Cell, e: Cell)
    requires EvolvesLate(c, d) && Evolves(d, e)
    ensures EvolvesLate(c, e)
  {}

  ghost predicate Forward(s: System, t: System) {
    forall k :: k in s.cells ==> k in t.cells && Evolves(s.cells[k], t.cells[k])
  }

  // Every step of the run moves every key forward.
  ghost predicate Steady(tr: seq<System>) {
    forall m :: 0 < m < |tr| ==> ForwardAt(tr, m)
  }

  ghost predicate ForwardAt(tr: seq<System>, m: nat)
    requires 0 < m < |tr|
  {
    Forward(tr[m - 1], tr[m])
  }

  lemma StepIsForward(s: System, t: System)
    requires Inv(s) && Next(s, t)
    ensures Forward(s, t)
  {
    forall k | k in s.cells ensures k in t.cells && Evolves(s.cells[k], t.cells[k]) {
      StepEvolves(s, t, k);
    }
  }

  lemma RunIsSteady(tr: seq<System>)
    requires Run(tr)
    ensures Steady(tr)
  {
    forall m | 0 < m < |tr| ensures ForwardAt(tr, m) {
      RunKeepsInv(tr, m - 1);
      assert StepAt(tr, m);
      StepIsForward(tr[m - 1], tr[m]);
    }
  }

  lemma {:induction false} SteadyEvolves(tr: seq<System>, i: nat, j: nat, k: Key)
    requires Steady(tr) && i <= j < |tr| && k in tr[i].cells
    ensures k in tr[j].cells && EvolvesLate(tr[i].cells[k], tr[j].cells[k])
  {
    if i < j {
      SteadyEvolves(tr, i, j - 1, k);
      assert ForwardAt(tr, j);
      LateThenStep(tr[i].cells[k], tr[j - 1].cells[k], tr[j].cells[k]);
    }
  }

  // CONFIRMED with a positive amount keeps its committed reservation for the rest of the
  // run, and FAILED stays free of one.
  lemma TerminalBudgetIsForever(tr: seq<System>, i: nat, j: nat, k: Key)
    requires Run(tr) && i <= j < |tr| && k in tr[i].cells
    ensures k in tr[j].cells
    ensures tr[i].cells[k].rec.state == Confirmed && tr[i].cells[k].rec.amount > 0.0 ==>
              tr[j].cells[k].rec.state == Confirmed && tr[j].cells[k].reservation == Committed
    ensures tr[i].cells[k].rec.state == Failed ==>
              tr[j].cells[k].rec.state == Failed
              && tr[j].cells[k].reservation !in {Outstanding, Committed}
  {
    RunIsSteady(tr);
    SteadyEvolves(tr, i, j, k);
    SettlementIsSafe(tr, j, k);
  }

  // Once compensated, no later answer, repetition or crash can make the operation
  // CONFIRMED.
  lemma RefundedIsNeverConfirmed(tr: seq<System>, i: nat, j: nat, k: Key)
    requires Run(tr) && i <= j < |tr| && k in tr[i].cells
    requires Compensated(tr[i].cells[k].reservation)
    ensures k in tr[j].cells && tr[j].cells[k].rec.state != Confirmed
  {
    RunIsSteady(tr);
    SteadyEvolves(tr, i, j, k);
    SettlementIsSafe(tr, j, k);
    if tr[j].cells[k].rec.amount <= 0.0 { ZeroAmountHasNoReservation(tr, j, k); }
  }

  // From registration on the resource, amount and payload never change, and the recorded
  // amount is what the provider is asked for, on an admission that both kernels answered.
  lemma IdentityIsFixed(tr: seq<System>, i: nat, j: nat, k: Key)
    requires Run(tr) && i <= j < |tr| && k in tr[i].cells
    ensures k in tr[j].cells
    ensures var (c, d) := (tr[i].cells[k], tr[j].cells[k]);
      && d.rec.amount == c.rec.amount && d.rec.resource == c.rec.resource && d.rec.payload == c.rec.payload
      && d.past.provider.calls <= 1
      && (d.past.provider.calls == 1 ==>
            && d.past.provider.amount == c.rec.amount
            && d.past.admission.Some? && Admissible(d.past.admission.value))
  {
    RunIsSteady(tr);
    SteadyEvolves(tr, i, j, k);
    SettlementIsSafe(tr, j, k);
  }

  lemma ZeroAmountHasNoReservation(tr: seq<System>, i: nat, k: Key)
    requires Run(tr) && i < |tr| && k in tr[i].cells && tr[i].cells[k].rec.amount <= 0.0
    ensures tr[i].cells[k].reservation == Absent
  {
    RunKeepsInv(tr, i);
    assert CellInv(tr[i].cells[k]);
  }

  lemma NoAdmissionMove(s: System, t: System, w: Worker, k: Key)
    requires Inv(s) && Moves(s, t, w) && s.quarantined && k in s.cells && k in t.cells
    ensures !AdmittingMove(s.cells[k].rec.state, t.cells[k].rec.state)
  {
    if s.workers[w].key == k {
      var a := View(s.cells[k], s.workers[w].pc, s.guard);
      var b := View(t.cells[k], t.workers[w].pc, t.guard);
      StepSound(w, true, ArgumentOf(s, w), a, b);
    }
  }

  // No admission and no dispatch happens while the quarantine mark is set, wherever the
  // mark's activation fell among reservations and kernel evaluations in flight.
  lemma QuarantineBlocksAdmission(tr: seq<System>, i: nat, k: Key)
    requires Run(tr) && 0 < i < |tr| && tr[i - 1].quarantined
    requires k in tr[i - 1].cells && k in tr[i].cells
    ensures !AdmittingMove(tr[i - 1].cells[k].rec.state, tr[i].cells[k].rec.state)
  {
    RunKeepsInv(tr, i - 1);
    assert StepAt(tr, i);
    NoAdmissionNext(tr[i - 1], tr[i], k);
  }

  lemma NoAdmissionNext(s: System, t: System, k: Key)
    requires Inv(s) && Next(s, t) && s.quarantined && k in s.cells && k in t.cells
    ensures !AdmittingMove(s.cells[k].rec.state, t.cells[k].rec.state)
  {
    if w: Worker, m: Key :| Registers(s, t, w, m) {
    } else if w: Worker, m: Key :| Starts(s, t, w, m) {
    } else if w: Worker :| Moves(s, t, w) {
      NoAdmissionMove(s, t, w, k);
    }
  }
}
