// The settlement protocol of DualKernelGovernor with a durable budget backend
// (tenir_governance/composition/governor.py), as a transition system.
//
// Every governor call is a worker with a program counter; one step is one registry or
// backend call, or one lock operation. A worker may stop after any step (a crash or an
// uncaught exception), which frees its locks. Calls whose exception the code catches and
// handles have their own steps here, with and without the call having taken effect.
module Settlement {
  import opened Wrappers
  import opened Lifecycle
  import opened Lattice

  type Key = string

  // ---------------------------------------------------------------- durable data

  // The backend's reservation row for one key. Its identifier is minted with the row
  // and the key is unique, so the registry either knows that identifier or none.
  datatype Reservation = Absent | Outstanding | Committed | Released | Refunded

  // How often each backend call has taken effect on the row.
  datatype Tally = Tally(reserves: nat, commits: nat, releases: nat, refunds: nat)

  // What the external provider was asked to do, if anything, and how often.
  datatype Provider = Provider(calls: nat, amount: real, payload: string)

  datatype Record = Record(
    state: OpState,
    amount: real,
    resource: Option<string>,
    payload: string,
    gated: bool,
    claimedBy: Option<nat>,
    reserved: bool,
    committed: bool,
    knowsReservation: bool)

  // The payload a dispatch call was given: the caller's mapping, which the caller may still
  // change, and the frozen copy made of it when the call read a gated record. A call that
  // began before its key was registered is early: it read no record and made no copy.
  datatype Argument = Argument(given: string, copy: Option<string>, early: bool)

  function Content(x: Argument): string { if x.copy.Some? then x.copy.value else x.given }

  // What the theorems talk about besides the current state: how often the backend calls
  // took effect, the evidence of the admission, the call that won the dispatch claim and
  // the argument it showed there, whether it went on to persist its committed budget, the
  // external effect, and the argument as it was when the provider was called.
  datatype History = History(
    effects: Tally,
    admission: Option<Evidence>,
    winner: Option<Worker>,
    shown: Option<Argument>,
    funded: bool,
    provider: Provider,
    handed: Option<Argument>)

  // One key: the registry record, the backend row and the per-key settlement lock.
  datatype Cell = Cell(
    rec: Record,
    reservation: Reservation,
    lock: Option<Worker>,
    creator: Worker,
    past: History)

  predicate Budgeted(r: Record) { r.resource.Some? && r.amount > 0.0 }

  predicate InFlight(s: OpState) { s == Dispatching || s == Unknown }

  // ---------------------------------------------------------------- worker positions

  datatype Answer = SaysConfirmed | SaysFailed | SaysFailedButViolated | Unresolved

  // What runs under the per-key settlement lock.
  datatype Job =
    | FailJob(authoritative: bool)
    | ConfirmJob
    | ReconcileJob(knew: bool, answer: Answer)
    | DispatchJob
    | ResolveJob
    | VetoJob
    | EscalateJob
    | ExitJob(approve: bool)
    | ExpireHoldJob
    | ExpireEscalatedJob

  datatype Call = CommitCall | ReleaseCall | RefundCall

  datatype Goal = ToFailed | ToConfirmed | ToExecute | StayOpen

  datatype Pc =
    | Done
    // adjudicate
    | Evaluating
    | PreCheck(e: Evidence)
    | WaitReserve(e: Evidence)
    | Reserving(e: Evidence)
    | Recording(e: Evidence)
    | Undoing(e: Evidence)
    | AwaitGate(e: Evidence, d: Decision, tried: bool)
    | AtGate(e: Evidence, d: Decision, tried: bool)
    | Admitting(e: Evidence, d: Decision, tried: bool)
    // dispatch, dispatch_and_execute
    | AwaitClaim
    | Claiming
    | Executing
    | Returned
    | MarkingUnknown
    // reconcile_unknown before the lock
    | Asking(knew: bool)
    // under the settlement lock
    | WaitLock(job: Job)
    | Deciding(job: Job)
    | Repairing(reserved: bool, committed: bool, job: Job)
    | BackendCall(call: Call, goal: Goal)
    | Flagging(reserved: bool, committed: bool, goal: Goal)
    | Closing(target: OpState)
    // re-adjudication of a HOLD, under the settlement lock
    | ReEvaluating
    | ReAwaitGate(e: Evidence)
    | ReAdmitting(e: Evidence)

  datatype Proc = Proc(key: Key, pc: Pc)

  datatype System = System(
    cells: map<Key, Cell>,
    workers: map<Worker, Proc>,
    guard: Option<Worker>,
    quarantined: bool,
    args: map<Worker, Argument>)

  // ---------------------------------------------------------------- calls as functions

  function WithState(c: Cell, s: OpState): Cell { c.(rec := c.rec.(state := s)) }

  function AdmittedOn(c: Cell, e: Evidence): Cell {
    WithState(c, Reserved).(past := c.past.(admission := Some(e)))
  }

  function WithFlags(c: Cell, reserved: bool, committed: bool): Cell {
    c.(rec := c.rec.(reserved := reserved, committed := committed, knowsReservation := true))
  }

  function Recorded(c: Cell, v: Reservation, effects: Tally): Cell {
    c.(reservation := v, past := c.past.(effects := effects))
  }

  function Unlocked(c: Cell): Cell { c.(lock := None) }

  // The backend: `accepted` is the caller's test on the returned status, which takes
  // COMMITTED/ALREADY_COMMITTED, RELEASED/ALREADY_RELEASED, REFUNDED/ALREADY_REFUNDED.
  function AfterCall(c: Cell, call: Call): (Cell, bool) {
    match (call, c.reservation)
    case (CommitCall, Outstanding) =>
      (Recorded(c, Committed, c.past.effects.(commits := c.past.effects.commits + 1)), true)
    case (CommitCall, Committed) => (c, true)
    case (ReleaseCall, Outstanding) =>
      (Recorded(c, Released, c.past.effects.(releases := c.past.effects.releases + 1)), true)
    case (ReleaseCall, Released) => (c, true)
    case (RefundCall, Committed) =>
      (Recorded(c, Refunded, c.past.effects.(refunds := c.past.effects.refunds + 1)), true)
    case (RefundCall, Refunded) => (c, true)
    case _ => (c, false)
  }

  function GiveUp(c: Cell): (Cell, Pc) { (Unlocked(c), Done) }

  // _fail_under_settlement_lock, after its reads.
  function DecideFail(c: Cell, authoritative: bool): (Cell, Pc) {
    var r := c.rec;
    var owns := r.reserved || r.committed;
    if Budgeted(r) && !r.knowsReservation && c.reservation != Absent then
      (c, Repairing(c.reservation == Outstanding, c.reservation == Committed, FailJob(authoritative)))
    else if owns && !r.knowsReservation then GiveUp(c)
    else if owns && r.committed then
      if authoritative && InFlight(r.state) then (c, BackendCall(RefundCall, ToFailed)) else GiveUp(c)
    else if owns then
      if r.state in {Created, Held, Reserved, Escalated}
      then (c, BackendCall(ReleaseCall, ToFailed)) else GiveUp(c)
    else (c, Closing(Failed))
  }

  // _confirm_under_settlement_lock, after its reads.
  function DecideConfirm(c: Cell): (Cell, Pc) {
    var r := c.rec;
    if !InFlight(r.state) then GiveUp(c)
    else if r.amount <= 0.0 then (c, Closing(Confirmed))
    else if r.resource.None? || !r.knowsReservation then GiveUp(c)
    else match c.reservation
      case Outstanding => (c, BackendCall(CommitCall, ToConfirmed))
      case Committed => (c, Flagging(false, true, ToConfirmed))
      case _ => GiveUp(c)
  }

  // The settlement phase of reconcile_unknown. `knew` is whether the record read before
  // the lock carried the reservation identifier.
  function DecideReconcile(c: Cell, knew: bool, answer: Answer): (Cell, Pc) {
    var r := c.rec;
    if !InFlight(r.state) then GiveUp(c)
    else match answer
      case SaysFailedButViolated => GiveUp(WithState(c, Moved(r.state, Unknown)))
      case Unresolved => GiveUp(WithState(c, Moved(r.state, Unknown)))
      case SaysConfirmed =>
        if r.amount <= 0.0 then (c, Closing(Confirmed))
        else if r.resource.None? || c.reservation == Absent then GiveUp(c)
        else if !knew then (c, Repairing(r.reserved, r.committed, ReconcileJob(true, answer)))
        else if c.reservation == Outstanding then (c, BackendCall(CommitCall, ToConfirmed))
        else if c.reservation == Committed then (c, Flagging(false, true, ToConfirmed))
        else GiveUp(c)
      case SaysFailed =>
        if r.amount <= 0.0 then (c, Closing(Failed))
        else if r.resource.None? || c.reservation == Absent then GiveUp(c)
        else if !knew then (c, Repairing(r.reserved, r.committed, ReconcileJob(true, answer)))
        else if c.reservation == Committed || c.reservation == Refunded
        then (c, BackendCall(RefundCall, ToFailed))
        else (c, BackendCall(ReleaseCall, ToFailed))
  }

  // _complete_claimed_backend_dispatch; `revalidate` is the policy switch.
  function DecideDispatch(w: Worker, c: Cell, revalidate: bool): (Cell, Pc) {
    var r := c.rec;
    if r.state != Dispatching || r.claimedBy != Some(w.process) || !r.knowsReservation then GiveUp(c)
    else if revalidate && c.reservation != Outstanding then GiveUp(c)
    else (c, BackendCall(CommitCall, ToExecute))
  }

  // _release_hold_budget_before_terminal_transition, then the goal.
  function DecideRelease(c: Cell, goal: Goal): (Cell, Pc) {
    var r := c.rec;
    if r.committed then GiveUp(c)
    else if !r.reserved then if goal == ToFailed then (c, Closing(Failed)) else GiveUp(c)
    else if !Budgeted(r) || !r.knowsReservation then GiveUp(c)
    else (c, BackendCall(ReleaseCall, goal))
  }

  // The HARD_VETO branch of _re_adjudicate_hold.
  function DecideVeto(c: Cell): (Cell, Pc) {
    var r := c.rec;
    if Budgeted(r) && r.reserved then
      if r.knowsReservation then (c, BackendCall(ReleaseCall, ToFailed)) else GiveUp(c)
    else (c, Closing(Failed))
  }

  // The uninterrupted outcome of one step under the settlement lock. `revalidate` and
  // `quarantined` are the policy switch and the shared mark as read at the step.
  function Settle(w: Worker, c: Cell, p: Pc, revalidate: bool, quarantined: bool): (Cell, Pc)
    requires p.WaitLock? || p.Deciding? || p.Repairing? || p.BackendCall? || p.Flagging? || p.Closing?
  {
    match p
    case WaitLock(job) => (c.(lock := Some(w)), Deciding(job))
    case Deciding(job) =>
      (match job
       case FailJob(authoritative) => DecideFail(c, authoritative)
       case ConfirmJob => DecideConfirm(c)
       case ReconcileJob(knew, answer) => DecideReconcile(c, knew, answer)
       case DispatchJob => DecideDispatch(w, c, revalidate)
       case ResolveJob =>
         if c.rec.state != Held || quarantined then GiveUp(c) else (c, ReEvaluating)
       case VetoJob => DecideVeto(c)
       case EscalateJob =>
         if c.rec.state == Held then GiveUp(WithState(c, Escalated)) else GiveUp(c)
       case ExitJob(approve) =>
         if c.rec.state != Escalated then GiveUp(c)
         else if !approve then DecideRelease(c, ToFailed)
         else if quarantined then GiveUp(c)
         else (c, Closing(Held))
       case ExpireHoldJob =>
         if c.rec.state == Held then DecideRelease(c, ToFailed)
         else if c.rec.state == Escalated then DecideRelease(c, StayOpen)
         else GiveUp(c)
       case ExpireEscalatedJob =>
         if c.rec.state == Escalated then GiveUp(WithState(c, Unknown)) else GiveUp(c))
    case Repairing(reserved, committed, job) => (WithFlags(c, reserved, committed), Deciding(job))
    case BackendCall(call, goal) =>
      var (c', accepted) := AfterCall(c, call);
      if !accepted then GiveUp(c')
      else if call == CommitCall then (c', Flagging(false, true, goal))
      else (c', Flagging(false, false, goal))
    case Flagging(reserved, committed, goal) =>
      var c' := WithFlags(c, reserved, committed);
      (match goal
       case ToFailed => (c', Closing(Failed))
       case ToConfirmed => (c', Closing(Confirmed))
       case ToExecute => (Unlocked(c').(past := c'.past.(funded := true)), Executing)
       case StayOpen => GiveUp(c'))
    case Closing(target) => GiveUp(WithState(c, Moved(c.rec.state, target)))
  }

  // ---------------------------------------------------------------- one step of a worker

  // The part of the system one worker step reads and writes.
  datatype View = View(cell: Cell, pc: Pc, guard: Option<Worker>)

  function Release(g: Option<Worker>, w: Worker): Option<Worker> {
    if g == Some(w) then None else g
  }

  // The worker stops: crash, uncaught exception, or an early return.
  predicate Stops(w: Worker, a: View, b: View) {
    b == View(a.cell.(lock := Release(a.cell.lock, w)), Done, Release(a.guard, w))
  }

  predicate AdjudicateStep(w: Worker, q: bool, a: View, b: View) {
    var c := a.cell;
    match a.pc
    case Evaluating =>
      b.cell == c && b.guard == a.guard
      && (match b.pc
          case PreCheck(e) => Retains(Compose(e)) && Budgeted(c.rec) && e.budgetInScope
          case AwaitGate(e, d, tried) =>
            d == Compose(e) && !tried && e.budgetInScope == Budgeted(c.rec)
            && !(Retains(d) && Budgeted(c.rec))
          case _ => false)
    case PreCheck(e) =>
      a.guard.None? && b == a.(pc := if q then AwaitGate(e, HardVeto, false) else WaitReserve(e))
    case WaitReserve(e) =>
      || (c.lock.None? && b == View(c.(lock := Some(w)), Reserving(e), a.guard))
      || b == a.(pc := AwaitGate(e, HardVeto, true))
    case Reserving(e) =>
      var refused := View(Unlocked(c), AwaitGate(e, HardVeto, true), a.guard);
      if c.rec.state != Created then b == refused
      else if c.rec.reserved then
        b == View(Unlocked(c), AwaitGate(e, if c.rec.knowsReservation then Compose(e) else HardVeto, true), a.guard)
      else if c.reservation == Absent then
        var booked := Recorded(c, Outstanding, c.past.effects.(reserves := c.past.effects.reserves + 1));
        // recorded; refused or failed before the effect; failed after the effect
        || b == View(booked, Recording(e), a.guard)
        || b == refused
        || b == View(Unlocked(booked), AwaitGate(e, HardVeto, true), a.guard)
      else if c.reservation == Outstanding then b == a.(pc := Recording(e)) || b == refused
      else b == refused
    case Recording(e) =>
      || b == View(Unlocked(WithFlags(c, true, false)), AwaitGate(e, Compose(e), true), a.guard)
      || b == a.(pc := Undoing(e))
      || b == View(WithFlags(c, true, false), Undoing(e), a.guard)
    case Undoing(e) =>
      || b == View(Unlocked(c), AwaitGate(e, HardVeto, true), a.guard)
      || b == View(Unlocked(AfterCall(c, ReleaseCall).0), AwaitGate(e, HardVeto, true), a.guard)
    case AwaitGate(e, d, tried) =>
      a.guard.None? && b == View(c, AtGate(e, d, tried), Some(w))
    case AtGate(e, d, tried) =>
      b == a.(pc := Admitting(e, if Retains(d) && q then HardVeto else d, tried))
    case Admitting(e, d, tried) =>
      if Admits(d) then
        if Legal(c.rec.state, Reserved) && !q
        then b == View(AdmittedOn(c, e), Done, None)
        else b == a.(pc := Admitting(e, HardVeto, tried))
      else if d == Hold then
        b == View(if c.rec.state == Created then WithState(c, Held) else c, Done, None)
      else if tried then b == View(c, WaitLock(FailJob(false)), None)
      else b == View(WithState(c, Moved(c.rec.state, Failed)), Done, None)
    case _ => false
  }

  // The claim won by `w` on showing `x`, and the provider called on holding `x`.
  function ClaimedBy(c: Cell, w: Worker, x: Argument): Cell {
    c.(rec := c.rec.(state := Dispatching, claimedBy := Some(w.process)),
       past := c.past.(winner := Some(w), shown := Some(x)))
  }

  function Asked(c: Cell, x: Argument): Cell {
    c.(past := c.past.(provider := Provider(c.past.provider.calls + 1, c.rec.amount, Content(x)), handed := Some(x)))
  }

  // `x` is the call's argument as it is at the step. The hash check compares its content
  // with the record; the provider is handed whatever the content is later.
  predicate DispatchStep(w: Worker, q: bool, x: Argument, a: View, b: View) {
    var c := a.cell;
    match a.pc
    case AwaitClaim => a.guard.None? && b == View(c, Claiming, Some(w))
    case Claiming =>
      if Content(x) == c.rec.payload && !q && Legal(c.rec.state, Dispatching)
      then b == View(ClaimedBy(c, w, x), if Budgeted(c.rec) then WaitLock(DispatchJob) else Executing, None)
      else b == View(c, Done, None)
    case Executing => b == a.(cell := Asked(c, x), pc := Returned)
    case Returned =>
      // exception or UNKNOWN or contradicted FAILED; CONFIRMED; FAILED; PENDING
      b.cell == c && b.guard == a.guard
      && b.pc in {MarkingUnknown, WaitLock(ConfirmJob), WaitLock(FailJob(true)), Done}
    case MarkingUnknown => b == View(WithState(c, Moved(c.rec.state, Unknown)), Done, a.guard)
    case Asking(knew) =>
      b.cell == c && b.guard == a.guard
      && (b.pc == MarkingUnknown || (b.pc.WaitLock? && b.pc.job.ReconcileJob? && b.pc.job.knew == knew))
    case _ => false
  }

  predicate ResolveStep(w: Worker, q: bool, a: View, b: View) {
    var c := a.cell;
    match a.pc
    case ReEvaluating =>
      (match b.pc
       case ReAwaitGate(e) => Admits(Compose(e)) && b.cell == c && b.guard == a.guard
       case Deciding(job) => job == VetoJob && b.cell == c && b.guard == a.guard
       case Done => b == View(Unlocked(c), Done, a.guard)
       case _ => false)
    case ReAwaitGate(e) => a.guard.None? && b == View(c, ReAdmitting(e), Some(w))
    case ReAdmitting(e) =>
      if !q && Legal(c.rec.state, Reserved)
      then b == View(Unlocked(AdmittedOn(c, e)), Done, None)
      else b == View(Unlocked(c), Done, None)
    case _ => false
  }

  predicate SettleStep(w: Worker, q: bool, a: View, b: View) {
    match a.pc
    case WaitLock(_) => a.cell.lock.None? && Settled(w, q, a, b)
    case Deciding(_) => Settled(w, q, a, b)
    case Repairing(_, _, _) => Settled(w, q, a, b)
    case BackendCall(_, _) => Settled(w, q, a, b)
    case Flagging(_, _, _) => Settled(w, q, a, b)
    case Closing(_) => Settled(w, q, a, b)
    case _ => false
  }

  predicate Settled(w: Worker, q: bool, a: View, b: View)
    requires a.pc.WaitLock? || a.pc.Deciding? || a.pc.Repairing? || a.pc.BackendCall? || a.pc.Flagging? || a.pc.Closing?
  {
    b.guard == a.guard
    && ((b.cell, b.pc) == Settle(w, a.cell, a.pc, true, q) || (b.cell, b.pc) == Settle(w, a.cell, a.pc, false, q))
  }

  predicate WorkerStep(w: Worker, q: bool, x: Argument, a: View, b: View) {
    || Stops(w, a, b)
    || AdjudicateStep(w, q, a, b)
    || DispatchStep(w, q, x, a, b)
    || ResolveStep(w, q, a, b)
    || SettleStep(w, q, a, b)
  }

  // How a governor call on an existing key begins. reconcile_unknown reads the record
  // before it takes the lock; all others start by waiting.
  predicate Opens(c: Cell, p: Pc) {
    match p
    case AwaitClaim => true
    case MarkingUnknown => true
    case Asking(knew) => InFlight(c.rec.state) && knew == c.rec.knowsReservation
    case WaitLock(job) => !job.DispatchJob? && !job.VetoJob? && !job.ReconcileJob?
    case _ => false
  }

  // ---------------------------------------------------------------- the whole system

  predicate Idle(s: System, w: Worker) {
    w in s.workers ==> s.workers[w].pc == Done
  }

  // A cell as registration leaves it.
  predicate NewCell(w: Worker, c: Cell) {
    && c.rec.state == Created && c.rec.amount >= 0.0
    && (c.rec.resource.Some? ==> c.rec.amount > 0.0)
    && c.rec.claimedBy == None && !c.rec.reserved && !c.rec.committed && !c.rec.knowsReservation
    && c.reservation == Absent && c.lock == None && c.creator == w
    && c.past.effects == Tally(0, 0, 0, 0) && c.past.admission == None && c.past.winner == None
    && c.past.shown == None && !c.past.funded && c.past.provider.calls == 0 && c.past.handed == None
  }

  // adjudicate registers an unknown key: the durable claim that precedes everything.
  predicate Registers(s: System, t: System, w: Worker, k: Key) {
    && Idle(s, w) && k !in s.cells && k in t.cells && NewCell(w, t.cells[k])
    && t == s.(cells := s.cells[k := t.cells[k]], workers := s.workers[w := Proc(k, Evaluating)])
  }

  predicate Starts(s: System, t: System, w: Worker, k: Key) {
    && Idle(s, w) && k in s.cells && w in t.workers
    && Opens(s.cells[k], t.workers[w].pc)
    && (t.workers[w].pc == AwaitClaim ==> w in t.args && CopiedAtStart(t.args[w], s.cells[k].rec))
    && t == s.(workers := s.workers[w := Proc(k, t.workers[w].pc)],
               args := if t.workers[w].pc == AwaitClaim then s.args[w := t.args[w]] else s.args)
  }

  // dispatch_and_execute freezes the payload of a gated operation whose record it read.
  predicate CopiedAtStart(x: Argument, r: Record) {
    x.copy == if r.gated && !x.early then Some(x.given) else None
  }

  function ArgumentOf(s: System, w: Worker): Argument {
    if w in s.args then s.args[w] else Argument("", None, true)
  }

  predicate Moves(s: System, t: System, w: Worker) {
    && w in s.workers && s.workers[w].pc != Done && w in t.workers
    && var k := s.workers[w].key;
    && k in s.cells && k in t.cells
    && WorkerStep(w, s.quarantined, ArgumentOf(s, w), View(s.cells[k], s.workers[w].pc, s.guard),
                  View(t.cells[k], t.workers[w].pc, t.guard))
    && t == System(s.cells[k := t.cells[k]], s.workers[w := Proc(k, t.workers[w].pc)], t.guard, s.quarantined,
                   s.args)
  }

  // Activation and release of QUARANTINE_LOCK take the shared guard.
  predicate Quarantines(s: System, t: System) {
    s.guard.None? && t == s.(quarantined := t.quarantined)
  }

  // The owner of a mapping passed to a dispatch changes it, at any moment.
  predicate Mutates(s: System, t: System, w: Worker) {
    w in s.args && w in t.args && t == s.(args := s.args[w := s.args[w].(given := t.args[w].given)])
  }

  ghost predicate Next(s: System, t: System) {
    || (exists w: Worker, k: Key :: Registers(s, t, w, k))
    || (exists w: Worker, k: Key :: Starts(s, t, w, k))
    || (exists w: Worker :: Moves(s, t, w))
    || (exists w: Worker :: Mutates(s, t, w))
    || Quarantines(s, t)
  }

  predicate Init(s: System) { s.cells == map[] && s.workers == map[] && s.guard == None && s.args == map[] }

  ghost predicate StepAt(tr: seq<System>, i: nat)
    requires 0 < i < |tr|
  {
    Next(tr[i - 1], tr[i])
  }

  ghost predicate Run(tr: seq<System>) {
    |tr| > 0 && Init(tr[0]) && forall i :: 0 < i < |tr| ==> StepAt(tr, i)
  }

  // ---------------------------------------------------------------- invariants

  // The calls that led to each state of the row, each having taken effect once.
  function CallsBehind(r: Reservation): Tally {
    match r
    case Absent => Tally(0, 0, 0, 0)
    case Outstanding => Tally(1, 0, 0, 0)
    case Committed => Tally(1, 1, 0, 0)
    case Released => Tally(1, 0, 1, 0)
    case Refunded => Tally(1, 1, 0, 1)
  }

  predicate Compensated(r: Reservation) { r == Released || r == Refunded }

  // The properties a reader cares about, for one key.
  predicate SafeCell(c: Cell) {
    && (c.rec.state == Failed ==> c.reservation != Outstanding && c.reservation != Committed)
    && (c.rec.state == Confirmed && c.rec.amount > 0.0 ==> c.reservation == Committed && c.rec.committed)
    && c.past.provider.calls <= 1
    && (c.past.provider.calls == 1 ==>
          && c.past.provider.amount == c.rec.amount
          && c.past.winner.Some?
          && (Budgeted(c.rec) ==> c.past.funded && c.past.effects.commits == 1))
    && (c.past.winner.Some? || c.rec.state == Reserved || c.rec.state == Dispatching ==>
          c.past.admission.Some? && Admissible(c.past.admission.value))
    && c.past.effects == CallsBehind(c.reservation)
  }

  predicate RecordInv(r: Record, v: Reservation) {
    && (r.state == Failed ==> v != Outstanding && v != Committed)
    && (r.state == Confirmed && r.amount > 0.0 ==> v == Committed && r.committed)
    && (r.resource.Some? ==> r.amount > 0.0)
    && !(r.reserved && r.committed)
    && (r.reserved || r.committed ==> r.knowsReservation)
    && (r.knowsReservation ==> v != Absent)
    && (r.knowsReservation && !r.reserved && !r.committed ==> Compensated(v))
    && (r.committed ==> v == Committed || v == Refunded)
    && (!Budgeted(r) ==> v == Absent)
    && (v == Committed || v == Refunded ==> PastDispatch(r.state))
    && (Budgeted(r) && r.state != Created && r.state != Failed ==> r.knowsReservation)
  }

  predicate PastInv(r: Record, v: Reservation, h: History) {
    && h.effects == CallsBehind(v)
    && h.provider.calls <= 1
    && (h.provider.calls == 1 ==>
          h.provider.amount == r.amount && h.winner.Some? && (Budgeted(r) ==> h.funded))
    && (h.winner.Some? || r.state == Reserved || r.state == Dispatching ==>
          h.admission.Some? && Admissible(h.admission.value))
    && (h.winner.Some? ==> PastDispatch(r.state))
    && (r.state == Dispatching ==> h.winner.Some?)
    && (h.funded ==> h.effects.commits == 1)
  }

  predicate CellInv(c: Cell) {
    RecordInv(c.rec, c.reservation) && PastInv(c.rec, c.reservation, c.past)
  }

  // What a worker knows at its position.
  predicate LocalInv(w: Worker, q: bool, guard: Option<Worker>, c: Cell, p: Pc) {
    var mine := c.lock == Some(w);
    var untouched := c.reservation == Absent && (c.rec.state == Created || c.rec.state == Failed);
    match p
    case Done => true
    case Evaluating => c.creator == w && untouched
    case PreCheck(e) => c.creator == w && untouched && Budgeted(c.rec) && Retains(Compose(e))
    case WaitReserve(e) => c.creator == w && untouched && Budgeted(c.rec) && Retains(Compose(e))
    case Reserving(e) => c.creator == w && untouched && mine && Budgeted(c.rec) && Retains(Compose(e))
    case Recording(e) =>
      c.creator == w && mine && c.rec.state == Created && c.reservation == Outstanding
      && Budgeted(c.rec) && Retains(Compose(e))
    case Undoing(e) =>
      c.creator == w && mine && c.rec.state == Created && c.reservation == Outstanding && !c.rec.committed
    case AwaitGate(e, d, tried) => GateInv(w, c, e, d, tried)
    case AtGate(e, d, tried) => GateInv(w, c, e, d, tried) && guard == Some(w)
    case Admitting(e, d, tried) => GateInv(w, c, e, d, tried) && guard == Some(w) && (Retains(d) ==> !q)
    case AwaitClaim => true
    case Claiming => guard == Some(w)
    case Executing =>
      c.past.winner == Some(w) && c.past.provider.calls == 0 && (Budgeted(c.rec) ==> c.past.funded)
    case Returned => true
    case MarkingUnknown => true
    case Asking(knew) => PastDispatch(c.rec.state) && (knew ==> c.rec.knowsReservation)
    case WaitLock(job) => JobInv(w, c, job) && job != VetoJob
    case Deciding(job) => mine && JobInv(w, c, job) && (job == VetoJob ==> c.rec.state == Held)
    case Repairing(reserved, committed, job) =>
      mine && JobInv(w, c, job) && c.reservation != Absent
      && (if job.FailJob?
          then reserved == (c.reservation == Outstanding) && committed == (c.reservation == Committed)
          else job.ReconcileJob? && reserved == c.rec.reserved && committed == c.rec.committed
               && c.rec.knowsReservation)
    case BackendCall(call, goal) =>
      mine && c.rec.knowsReservation
      && (match call
          case ReleaseCall => (goal == ToFailed || goal == StayOpen) && !c.rec.committed
          case RefundCall => goal == ToFailed && InFlight(c.rec.state)
          case CommitCall =>
            InFlight(c.rec.state) && Budgeted(c.rec)
            && (goal == ToConfirmed || (goal == ToExecute && c.past.winner == Some(w) && c.past.provider.calls == 0)))
    case Flagging(reserved, committed, goal) =>
      mine && c.rec.knowsReservation && !reserved
      && (if committed
          then c.reservation == Committed && InFlight(c.rec.state)
               && (goal == ToConfirmed || (goal == ToExecute && c.past.winner == Some(w) && c.past.provider.calls == 0))
          else Compensated(c.reservation) && (goal == ToFailed || goal == StayOpen))
    case Closing(target) =>
      mine
      && (match target
          case Failed => c.reservation == Absent || Compensated(c.reservation)
          case Confirmed =>
            InFlight(c.rec.state) && (c.rec.amount <= 0.0 || (c.reservation == Committed && c.rec.committed))
          case Held => c.rec.state == Escalated || c.rec.state == Unknown
          case _ => false)
    case ReEvaluating => mine && c.rec.state == Held
    case ReAwaitGate(e) => mine && c.rec.state == Held && Admits(Compose(e))
    case ReAdmitting(e) => mine && c.rec.state == Held && Admits(Compose(e)) && guard == Some(w)
  }

  predicate GateInv(w: Worker, c: Cell, e: Evidence, d: Decision, tried: bool) {
    && c.creator == w && (c.rec.state == Created || c.rec.state == Failed)
    && (!tried ==> c.reservation == Absent && (Retains(d) ==> !Budgeted(c.rec)))
    && (tried && Retains(d) ==> c.rec.knowsReservation)
    && (Retains(d) ==> d == Compose(e))
  }

  predicate JobInv(w: Worker, c: Cell, job: Job) {
    match job
    case ReconcileJob(knew, _) => PastDispatch(c.rec.state) && (knew ==> c.rec.knowsReservation)
    case DispatchJob => c.past.winner == Some(w) && c.past.provider.calls == 0
    case _ => true
  }

  ghost predicate Inv(s: System) {
    && (forall k :: k in s.cells ==> CellInv(s.cells[k]))
    && (forall w :: w in s.workers && s.workers[w].pc != Done ==>
          s.workers[w].key in s.cells
          && LocalInv(w, s.quarantined, s.guard, s.cells[s.workers[w].key], s.workers[w].pc))
  }
}
