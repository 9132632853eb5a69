// The governor's side of the Profile S gate: workers that bind a request to an operation,
// obtain and record the authority's receipts, recover lost replies, and claim the dispatch
// (tenir_governance/composition/governor.py, operations/registry.py). Each action is one
// registry or authority call; any worker may stop after any of them.
module CommitGate {
  import opened Wrappers
  import opened Lifecycle
  import opened Trust
  import opened Checkpoints
  import opened CommitRecords
  import opened CommitAuthority
  import opened CommitSafety

  type WorkerId = Lifecycle.Worker

  // `claimId` derives the dispatch claim from the idempotency key and the request id.
  datatype Gov = Gov(cfg: Config, claimId: (string, string) -> string)

  // What registration fixes; `amount` is the canonical text of the recorded amount.
  datatype Fields = Fields(
    institutionalScope: string, operation: string, passage: string, agent: string, actionType: string,
    resource: string, amount: Option<string>, payloadDigest: string)

  // The registry record, as far as the gate reads it. Receipts are stored without the
  // replay mark; an empty claim is no claim.
  datatype Gate = Gate(
    fields: Fields, required: bool, state: OpState, claimedBy: Option<WorkerId>,
    request: Option<Request>, receipt: Option<AuthReceipt>, claim: string, consumption: Option<ConsReceipt>)

  // What a worker remembers between two calls.
  datatype Worker =
    | Idle
    | Requested(key: string, request: Request)
    | Granted(key: string, request: Request, receipt: AuthReceipt)
    | ToConsume(key: string, request: Request, receipt: AuthReceipt)
    | Claimed(key: string, request: Request, receipt: AuthReceipt, claim: string)
    | Served(key: string, request: Request, receipt: AuthReceipt, claim: string, consumption: ConsReceipt)
    | Checked(key: string)

  datatype System = System(store: Store, gates: map<string, Gate>, workers: map<WorkerId, Worker>)

  datatype Act =
    | Register(key: string, fields: Fields, required: bool)
    | Move(key: string, to: OpState)
    | Trust(call: Call)
    | BindRequest(key: string, request: Request)
    | CallAuthorize(inputs: Inputs, fault: Interrupt)
    | LookUpAuthorization
    | RecordReceipt
    | StartConsume(key: string)
    | TakeClaim
    | CallConsume(fault: Interrupt)
    | LookUpConsumption
    | RecordConsumption
    | CheckGate(key: string)
    | ClaimDispatch
    | Crash

  predicate Matches(gov: Gov, k: string, f: Fields, r: Request) {
    var b := r.binding;
    && Names(gov.cfg, b)
    && b.institutionalScope == f.institutionalScope && b.operation == f.operation && b.idempotencyKey == k
    && b.passage == f.passage && b.agent == f.agent && b.actionType == f.actionType && b.resource == f.resource
    && Some(b.amount) == f.amount && b.payloadDigest == f.payloadDigest
  }

  predicate Verified(gov: Gov, a: AuthReceipt, r: Request) {
    VerifyAuthorization(a, r, Keys(gov.cfg), gov.cfg.valid)
  }

  predicate VerifiedUse(gov: Gov, c: ConsReceipt, r: Request, a: AuthReceipt) {
    VerifyConsumption(c, r, a, Keys(gov.cfg), gov.cfg.valid)
  }

  // _valid_commit_consumption
  predicate ValidConsumption(gov: Gov, k: string, g: Gate) {
    g.required ==>
      && g.request.Some? && g.receipt.Some? && g.consumption.Some?
      && Matches(gov, k, g.fields, g.request.value)
      && g.receipt.value.body.decision == Authorized
      && g.consumption.value.body.decision == Consumed
      && g.consumption.value.body.claim == g.claim
      && Verified(gov, g.receipt.value, g.request.value)
      && VerifiedUse(gov, g.consumption.value, g.request.value, g.receipt.value)
  }

  // The registry's own check on entering DISPATCHING.
  predicate RegistryAdmits(g: Gate) {
    g.required ==>
      && g.consumption.Some? && g.consumption.value.body.decision == Consumed
      && g.claim != "" && g.consumption.value.body.claim == g.claim
  }

  // ---------------------------------------------------------------- one action

  function Holding(s: System, w: WorkerId): Worker {
    if w in s.workers then s.workers[w] else Idle
  }

  function StoreAfter(gov: Gov, s: System, m: Worker, act: Act): Store {
    match act
    case Trust(call) => s.store.(checkpoint := After(s.store.checkpoint, call))
    case CallAuthorize(x, fault) =>
      if m.Requested? then Authorizing(gov.cfg, s.store, m.request, x, fault).0 else s.store
    case CallConsume(fault) =>
      if m.Claimed? then Consuming(gov.cfg, s.store, m.request, m.receipt, m.claim, fault).0 else s.store
    case _ => s.store
  }

  // The gate a worker's call writes, when it writes one.
  function Written(gov: Gov, s: System, w: WorkerId, m: Worker, act: Act): Option<(string, Gate)> {
    match act
    case Register(k, fields, required) =>
      if k in s.gates then None else Some((k, Gate(fields, required, Created, None, None, None, "", None)))
    case Move(k, to) =>
      if k in s.gates && to != Dispatching then Some((k, s.gates[k].(state := Moved(s.gates[k].state, to)))) else None
    case BindRequest(k, r) =>
      if m.Idle? && k in s.gates && Matches(gov, k, s.gates[k].fields, r) && gov.cfg.valid(r)
         && s.gates[k].required && s.gates[k].request.None? && s.gates[k].state == Reserved
      then Some((k, s.gates[k].(request := Some(r)))) else None
    case RecordReceipt =>
      if m.Granted? && m.key in s.gates && Verified(gov, m.receipt, m.request)
         && s.gates[m.key].required && s.gates[m.key].receipt.None? && s.gates[m.key].state == Reserved
      then Some((m.key, s.gates[m.key].(receipt := Some(m.receipt.(replayed := false))))) else None
    case TakeClaim =>
      if m.ToConsume? && m.key in s.gates && gov.claimId(m.key, m.request.id) != "" && s.gates[m.key].required
         && s.gates[m.key].state == Reserved && s.gates[m.key].receipt.Some? && s.gates[m.key].claim == ""
      then Some((m.key, s.gates[m.key].(claim := gov.claimId(m.key, m.request.id)))) else None
    case RecordConsumption =>
      if m.Served? && m.key in s.gates && m.consumption.body.claim == m.claim
         && VerifiedUse(gov, m.consumption, m.request, m.receipt)
         && s.gates[m.key].claim != "" && m.consumption.body.claim == s.gates[m.key].claim
         && s.gates[m.key].required && s.gates[m.key].consumption.None? && s.gates[m.key].receipt.Some?
         && s.gates[m.key].state == Reserved
      then Some((m.key, s.gates[m.key].(consumption := Some(m.consumption.(replayed := false))))) else None
    case ClaimDispatch =>
      if m.Checked? && m.key in s.gates && Legal(s.gates[m.key].state, Dispatching) && RegistryAdmits(s.gates[m.key])
      then Some((m.key, s.gates[m.key].(state := Dispatching, claimedBy := Some(w)))) else None
    case _ => None
  }

  function GatesAfter(gov: Gov, s: System, w: WorkerId, m: Worker, act: Act): map<string, Gate> {
    match Written(gov, s, w, m, act)
    case None => s.gates
    case Some((k, g)) => s.gates[k := g]
  }

  // `gates` is the registry after the call.
  function WorkerAfter(gov: Gov, s: System, gates: map<string, Gate>, m: Worker, act: Act): Worker {
    match act
    case BindRequest(k, r) =>
      if m.Idle? && k in gates && Matches(gov, k, gates[k].fields, r) && gov.cfg.valid(r)
         && gates[k].required && gates[k].request == Some(r) then Requested(k, r) else m
    case CallAuthorize(x, fault) =>
      if !m.Requested? then m
      else (match Authorizing(gov.cfg, s.store, m.request, x, fault).1
            case Authorization(receipt) => Granted(m.key, m.request, receipt)
            case _ => m)
    case LookUpAuthorization =>
      if !m.Requested? then m
      else (match RecordedAuthorization(gov.cfg, s.store, m.request)
            case Some(Authorization(receipt)) => Granted(m.key, m.request, receipt)
            case _ => m)
    case StartConsume(k) =>
      if m.Idle? && k in gates && gates[k].state == Reserved && gates[k].request.Some? && gates[k].receipt.Some?
         && Matches(gov, k, gates[k].fields, gates[k].request.value)
         && Verified(gov, gates[k].receipt.value, gates[k].request.value)
         && gates[k].receipt.value.body.decision == Authorized
      then ToConsume(k, gates[k].request.value, gates[k].receipt.value) else m
    case TakeClaim =>
      if m.ToConsume? && m.key in gates && gates[m.key].claim != "" && gates[m.key].state == Reserved
      then Claimed(m.key, m.request, m.receipt, gates[m.key].claim) else if m.ToConsume? then Idle else m
    case CallConsume(fault) =>
      if !m.Claimed? then m
      else (match Consuming(gov.cfg, s.store, m.request, m.receipt, m.claim, fault).1
            case Consumption(receipt) => Served(m.key, m.request, m.receipt, m.claim, receipt)
            case _ => m)
    case LookUpConsumption =>
      if !m.Claimed? then m
      else (match RecordedConsumption(gov.cfg, s.store, m.request)
            case Some(Consumption(receipt)) => Served(m.key, m.request, m.receipt, m.claim, receipt)
            case _ => m)
    case CheckGate(k) => if m.Idle? && k in gates && ValidConsumption(gov, k, gates[k]) then Checked(k) else m
    case RecordReceipt => if m.Granted? then Idle else m
    case RecordConsumption => if m.Served? then Idle else m
    case ClaimDispatch => if m.Checked? then Idle else m
    case Crash => Idle
    case _ => m
  }

  function Do(gov: Gov, s: System, w: WorkerId, act: Act): System {
    var m := Holding(s, w);
    var gates := GatesAfter(gov, s, w, m, act);
    System(StoreAfter(gov, s, m, act), gates, s.workers[w := WorkerAfter(gov, s, gates, m, act)])
  }

  // ---------------------------------------------------------------- the invariant

  predicate IssuedAuth(store: Store, r: Request, a: AuthReceipt) {
    var row := FindAuth(store.auths, r.id);
    row.Some? && row.value.requestDigest == r && row.value.body == a.body && row.value.signature == a.signature
  }

  predicate IssuedCons(store: Store, r: Request, c: ConsReceipt) {
    var row := FindCons(store.cons, r.id);
    row.Some? && row.value.body == c.body && row.value.signature == c.signature
  }

  predicate GateSound(gov: Gov, store: Store, k: string, g: Gate) {
    && (g.request.Some? ==> Matches(gov, k, g.fields, g.request.value))
    && (g.receipt.Some? ==>
          g.request.Some? && Verified(gov, g.receipt.value, g.request.value)
          && IssuedAuth(store, g.request.value, g.receipt.value))
    && (g.claim != "" ==> g.receipt.Some? && g.claim == gov.claimId(k, g.request.value.id))
    && (g.consumption.Some? ==>
          && g.claim != "" && g.receipt.Some? && g.consumption.value.body.claim == g.claim
          && VerifiedUse(gov, g.consumption.value, g.request.value, g.receipt.value)
          && IssuedCons(store, g.request.value, g.consumption.value))
    && (g.state == Dispatching ==> g.claimedBy.Some?)
    && (g.claimedBy.Some? ==> PastDispatch(g.state) && ValidConsumption(gov, k, g))
  }

  // Recorded values are set once, and the identity never changes.
  predicate Grows(g: Gate, h: Gate) {
    && h.fields == g.fields && h.required == g.required
    && (g.request.Some? ==> h.request == g.request) && (g.receipt.Some? ==> h.receipt == g.receipt)
    && (g.claim != "" ==> h.claim == g.claim) && (g.consumption.Some? ==> h.consumption == g.consumption)
    && (g.claimedBy.Some? ==> h.claimedBy == g.claimedBy)
  }

  predicate HoldsRequest(gates: map<string, Gate>, k: string, r: Request) {
    k in gates && gates[k].request == Some(r)
  }

  predicate HoldsReceipt(gates: map<string, Gate>, k: string, r: Request, a: AuthReceipt) {
    HoldsRequest(gates, k, r) && gates[k].receipt == Some(a)
  }

  predicate WorkerSound(gov: Gov, store: Store, gates: map<string, Gate>, m: Worker) {
    match m
    case Idle => true
    case Requested(k, r) => HoldsRequest(gates, k, r)
    case Granted(k, r, a) => HoldsRequest(gates, k, r) && IssuedAuth(store, r, a)
    case ToConsume(k, r, a) => HoldsReceipt(gates, k, r, a)
    case Claimed(k, r, a, claim) => HoldsReceipt(gates, k, r, a) && claim != "" && gates[k].claim == claim
    case Served(k, r, a, claim, c) =>
      HoldsReceipt(gates, k, r, a) && claim != "" && gates[k].claim == claim && IssuedCons(store, r, c)
    case Checked(k) => k in gates && ValidConsumption(gov, k, gates[k]) && (gates[k].required ==> gates[k].claim != "")
  }

  ghost predicate GatesSound(gov: Gov, store: Store, gates: map<string, Gate>) {
    forall k :: k in gates ==> GateSound(gov, store, k, gates[k])
  }

  ghost predicate GatesGrow(gates: map<string, Gate>, after: map<string, Gate>) {
    forall k :: k in gates ==> k in after && Grows(gates[k], after[k])
  }

  ghost predicate WorkersSound(gov: Gov, s: System) {
    forall w :: w in s.workers ==> WorkerSound(gov, s.store, s.gates, s.workers[w])
  }

  ghost predicate Inv(gov: Gov, s: System) {
    Sound(gov.cfg, s.store) && GatesSound(gov, s.store, s.gates) && WorkersSound(gov, s)
  }

  // ---------------------------------------------------------------- its preservation

  lemma IssuedStays(s: Store, t: Store, r: Request, a: AuthReceipt)
    requires Extends(s, t) && IssuedAuth(s, r, a)
    ensures IssuedAuth(t, r, a)
  {
    FoundAuthStays(s.auths, t.auths, r.id);
  }

  lemma IssuedConsStays(s: Store, t: Store, r: Request, c: ConsReceipt)
    requires Extends(s, t) && IssuedCons(s, r, c)
    ensures IssuedCons(t, r, c)
  {
    FoundConsStays(s.cons, t.cons, r.id);
  }

  lemma GateSoundStays(gov: Gov, s: Store, t: Store, k: string, g: Gate)
    requires Extends(s, t) && GateSound(gov, s, k, g)
    ensures GateSound(gov, t, k, g)
  {
    if g.receipt.Some? { IssuedStays(s, t, g.request.value, g.receipt.value); }
    if g.consumption.Some? { IssuedConsStays(s, t, g.request.value, g.consumption.value); }
  }

  lemma WorkerSoundStays(gov: Gov, s: Store, t: Store, gates: map<string, Gate>, after: map<string, Gate>, m: Worker)
    requires Extends(s, t) && WorkerSound(gov, s, gates, m)
    requires GatesGrow(gates, after)
    ensures WorkerSound(gov, t, after, m)
  {
    if m.Granted? { IssuedStays(s, t, m.request, m.receipt); }
    if m.Served? { IssuedConsStays(s, t, m.request, m.consumption); }
  }

  // The authority action behind a worker's call, when it makes one.
  function ActionOf(m: Worker, act: Act): Option<Action> {
    if act.Trust? then Some(DoAnchor(act.call))
    else if act.CallAuthorize? && m.Requested? then Some(DoAuthorize(m.request, act.inputs, act.fault))
    else if act.CallConsume? && m.Claimed? then Some(DoConsume(m.request, m.receipt, m.claim, act.fault))
    else None
  }

  lemma StoreStep(gov: Gov, s: System, m: Worker, act: Act)
    ensures StoreAfter(gov, s, m, act)
         == if ActionOf(m, act).Some? then Apply(gov.cfg, s.store, ActionOf(m, act).value) else s.store
  {}

  lemma StoreExtends(gov: Gov, s: System, m: Worker, act: Act)
    ensures Extends(s.store, StoreAfter(gov, s, m, act))
  {
    StoreStep(gov, s, m, act);
    if ActionOf(m, act).Some? { ApplyExtends(gov.cfg, s.store, ActionOf(m, act).value); }
  }

  lemma StoreStepSound(gov: Gov, s: System, m: Worker, act: Act)
    requires Sound(gov.cfg, s.store)
    ensures Sound(gov.cfg, StoreAfter(gov, s, m, act))
  {
    StoreStep(gov, s, m, act);
    if ActionOf(m, act).Some? { ApplyKeepsSound(gov.cfg, s.store, ActionOf(m, act).value); }
  }

  // A gate that is written stays sound and keeps what it had.
  predicate FineWrite(gov: Gov, s: System, out: Option<(string, Gate)>) {
    out.Some? ==>
      && GateSound(gov, s.store, out.value.0, out.value.1)
      && (out.value.0 in s.gates ==> Grows(s.gates[out.value.0], out.value.1))
  }

  lemma RecordingSound(gov: Gov, s: System, w: WorkerId, m: Worker, act: Act)
    requires act.RecordReceipt? || act.RecordConsumption?
    requires GatesSound(gov, s.store, s.gates) && WorkerSound(gov, s.store, s.gates, m)
    ensures FineWrite(gov, s, Written(gov, s, w, m, act))
  {
    if Written(gov, s, w, m, act).Some? { assert GateSound(gov, s.store, m.key, s.gates[m.key]); }
  }

  lemma ClaimingSound(gov: Gov, s: System, w: WorkerId, m: Worker, act: Act)
    requires act.TakeClaim? || act.ClaimDispatch?
    requires GatesSound(gov, s.store, s.gates) && WorkerSound(gov, s.store, s.gates, m)
    ensures FineWrite(gov, s, Written(gov, s, w, m, act))
  {
    if Written(gov, s, w, m, act).Some? { assert GateSound(gov, s.store, m.key, s.gates[m.key]); }
  }

  lemma MoveKeepsPast(from: OpState, to: OpState)
    requires to != Dispatching
    ensures PastDispatch(from) ==> PastDispatch(Moved(from, to))
    ensures Moved(from, to) == Dispatching ==> from == Dispatching
  {}

  lemma MovingSound(gov: Gov, store: Store, k: string, g: Gate, to: OpState)
    requires GateSound(gov, store, k, g) && to != Dispatching
    ensures var h := g.(state := Moved(g.state, to)); GateSound(gov, store, k, h) && Grows(g, h)
  {
    MoveKeepsPast(g.state, to);
  }

  lemma MoveSound(gov: Gov, s: System, w: WorkerId, m: Worker, act: Act)
    requires act.Move? && GatesSound(gov, s.store, s.gates)
    ensures FineWrite(gov, s, Written(gov, s, w, m, act))
  {
    if act.key in s.gates && act.to != Dispatching {
      MovingSound(gov, s.store, act.key, s.gates[act.key], act.to);
    }
  }

  lemma OpeningSound(gov: Gov, s: System, w: WorkerId, m: Worker, act: Act)
    requires act.Register? || act.BindRequest?
    requires GatesSound(gov, s.store, s.gates) && WorkerSound(gov, s.store, s.gates, m)
    ensures FineWrite(gov, s, Written(gov, s, w, m, act))
  {
    if act.key in s.gates { assert GateSound(gov, s.store, act.key, s.gates[act.key]); }
  }

  lemma WrittenSound(gov: Gov, s: System, w: WorkerId, m: Worker, act: Act)
    requires GatesSound(gov, s.store, s.gates) && WorkerSound(gov, s.store, s.gates, m)
    ensures FineWrite(gov, s, Written(gov, s, w, m, act))
  {
    if act.RecordReceipt? || act.RecordConsumption? { RecordingSound(gov, s, w, m, act); }
    else if act.TakeClaim? || act.ClaimDispatch? { ClaimingSound(gov, s, w, m, act); }
    else if act.Register? || act.BindRequest? { OpeningSound(gov, s, w, m, act); }
    else if act.Move? { MoveSound(gov, s, w, m, act); }
  }

  lemma GatesAfterSound(gov: Gov, s: System, w: WorkerId, m: Worker, act: Act)
    requires GatesSound(gov, s.store, s.gates) && WorkerSound(gov, s.store, s.gates, m)
    ensures GatesSound(gov, s.store, GatesAfter(gov, s, w, m, act))
    ensures GatesGrow(s.gates, GatesAfter(gov, s, w, m, act))
  {
    WrittenSound(gov, s, w, m, act);
  }

  lemma AuthorizingIssues(cfg: Config, s: Store, r: Request, x: Inputs, fault: Interrupt)
    ensures var (t, reply) := Authorizing(cfg, s, r, x, fault);
      reply.Authorization? ==> IssuedAuth(t, r, reply.receipt)
  {
    FindAuthExtends(s.auths, NewAuth(cfg, s, r, x), r.id);
  }

  lemma ConsumingIssues(cfg: Config, s: Store, r: Request, a: AuthReceipt, claim: string, fault: Interrupt)
    ensures var (t, reply) := Consuming(cfg, s, r, a, claim, fault);
      reply.Consumption? ==> IssuedCons(t, r, reply.receipt)
  {
    if Presented(cfg, s, r, a).Some? {
      FindConsExtends(s.cons, NewCons(cfg, s, r, Presented(cfg, s, r, a).value, claim), r.id);
    }
  }

  // The worker that heard from the authority.
  lemma HearingGrantSound(gov: Gov, s: System, m: Worker, act: Act)
    requires act.CallAuthorize? && m.Requested? && HoldsRequest(s.gates, m.key, m.request)
    ensures WorkerSound(gov, StoreAfter(gov, s, m, act), s.gates, WorkerAfter(gov, s, s.gates, m, act))
  {
    AuthorizingIssues(gov.cfg, s.store, m.request, act.inputs, act.fault);
  }

  lemma HearingUseSound(gov: Gov, s: System, m: Worker, act: Act)
    requires act.CallConsume? && m.Claimed? && WorkerSound(gov, s.store, s.gates, m)
    ensures WorkerSound(gov, StoreAfter(gov, s, m, act), s.gates, WorkerAfter(gov, s, s.gates, m, act))
  {
    ConsumingIssues(gov.cfg, s.store, m.request, m.receipt, m.claim, act.fault);
  }

  // Any other worker: its knowledge was sound, and what it reads from the registry is.
  lemma ReadingSound(gov: Gov, s: System, gates: map<string, Gate>, m: Worker, act: Act)
    requires !act.CallAuthorize? && !act.CallConsume?
    requires GatesSound(gov, s.store, gates) && WorkerSound(gov, s.store, gates, m)
    ensures WorkerSound(gov, s.store, gates, WorkerAfter(gov, s, gates, m, act))
  {
    if act.CheckGate? && act.key in gates { assert GateSound(gov, s.store, act.key, gates[act.key]); }
    if act.TakeClaim? && m.ToConsume? { assert GateSound(gov, s.store, m.key, gates[m.key]); }
  }

  lemma ReadingStepSound(gov: Gov, s: System, w: WorkerId, m: Worker, act: Act)
    requires !act.CallAuthorize? && !act.CallConsume?
    requires GatesSound(gov, s.store, s.gates) && WorkerSound(gov, s.store, s.gates, m)
    ensures var gates := GatesAfter(gov, s, w, m, act);
      WorkerSound(gov, s.store, gates, WorkerAfter(gov, s, gates, m, act))
  {
    var gates := GatesAfter(gov, s, w, m, act);
    GatesAfterSound(gov, s, w, m, act);
    WorkerSoundStays(gov, s.store, s.store, s.gates, gates, m);
    ReadingSound(gov, s, gates, m, act);
  }

  lemma QuietStepSound(gov: Gov, s: System, w: WorkerId, m: Worker, act: Act)
    requires !act.CallAuthorize? && !act.CallConsume?
    requires GatesSound(gov, s.store, s.gates) && WorkerSound(gov, s.store, s.gates, m)
    ensures var gates := GatesAfter(gov, s, w, m, act);
      WorkerSound(gov, StoreAfter(gov, s, m, act), gates, WorkerAfter(gov, s, gates, m, act))
  {
    var gates := GatesAfter(gov, s, w, m, act);
    ReadingStepSound(gov, s, w, m, act);
    StoreExtends(gov, s, m, act);
    WorkerSoundStays(gov, s.store, StoreAfter(gov, s, m, act), gates, gates, WorkerAfter(gov, s, gates, m, act));
  }

  lemma WorkerStepSound(gov: Gov, s: System, w: WorkerId, m: Worker, act: Act)
    requires GatesSound(gov, s.store, s.gates) && WorkerSound(gov, s.store, s.gates, m)
    ensures var gates := GatesAfter(gov, s, w, m, act);
      WorkerSound(gov, StoreAfter(gov, s, m, act), gates, WorkerAfter(gov, s, gates, m, act))
  {
    if act.CallAuthorize? {
      if m.Requested? { HearingGrantSound(gov, s, m, act); }
    } else if act.CallConsume? {
      if m.Claimed? { HearingUseSound(gov, s, m, act); }
    } else {
      QuietStepSound(gov, s, w, m, act);
    }
  }

  lemma OthersSound(gov: Gov, s: System, t: System, w: WorkerId)
    requires WorkersSound(gov, s) && Extends(s.store, t.store) && GatesGrow(s.gates, t.gates)
    requires w in t.workers && t.workers == s.workers[w := t.workers[w]]
    requires WorkerSound(gov, t.store, t.gates, t.workers[w])
    ensures WorkersSound(gov, t)
  {
    forall v | v in t.workers ensures WorkerSound(gov, t.store, t.gates, t.workers[v]) {
      if v != w { WorkerSoundStays(gov, s.store, t.store, s.gates, t.gates, s.workers[v]); }
    }
  }

  lemma AllGatesStay(gov: Gov, s: Store, t: Store, gates: map<string, Gate>)
    requires Extends(s, t) && GatesSound(gov, s, gates)
    ensures GatesSound(gov, t, gates)
  {
    forall k | k in gates ensures GateSound(gov, t, k, gates[k]) {
      GateSoundStays(gov, s, t, k, gates[k]);
    }
  }

  lemma DoKeepsInv(gov: Gov, s: System, w: WorkerId, act: Act)
    requires Inv(gov, s)
    ensures Inv(gov, Do(gov, s, w, act))
    ensures Extends(s.store, Do(gov, s, w, act).store) && GatesGrow(s.gates, Do(gov, s, w, act).gates)
  {
    var (m, t) := (Holding(s, w), Do(gov, s, w, act));
    assert WorkerSound(gov, s.store, s.gates, m);
    GatesAfterSound(gov, s, w, m, act);
    StoreStepSound(gov, s, m, act);
    StoreExtends(gov, s, m, act);
    WorkerStepSound(gov, s, w, m, act);
    AllGatesStay(gov, s.store, t.store, t.gates);
    OthersSound(gov, s, t, w);
  }

  // ---------------------------------------------------------------- every run

  datatype Event = Event(worker: WorkerId, act: Act)

  function Start(): System { System(Store(None, [], []), map[], map[]) }

  function Reached(gov: Gov, s: System, events: seq<Event>): System
    decreases |events|
  {
    if events == [] then s else Reached(gov, Do(gov, s, events[0].worker, events[0].act), events[1..])
  }

  lemma {:induction false} RunKeepsInv(gov: Gov, s: System, events: seq<Event>)
    requires Inv(gov, s)
    ensures Inv(gov, Reached(gov, s, events))
    decreases |events|
  {
    if events != [] {
      DoKeepsInv(gov, s, events[0].worker, events[0].act);
      RunKeepsInv(gov, Do(gov, s, events[0].worker, events[0].act), events[1..]);
    }
  }

  lemma {:induction false} ReachedExtends(gov: Gov, s: System, events: seq<Event>, e: Event)
    ensures Reached(gov, s, events + [e]) == Do(gov, Reached(gov, s, events), e.worker, e.act)
    decreases |events|
  {
    if events == [] {
      assert ([] + [e])[1..] == [];
    } else {
      assert (events + [e])[1..] == events[1..] + [e];
      ReachedExtends(gov, Do(gov, s, events[0].worker, events[0].act), events[1..], e);
    }
  }

  // A gated operation is claimed for dispatch only with an AUTHORIZED and a CONSUMED row in
  // the authority's tables, both for a request that repeats its recorded fields, under its
  // own claim, and at one and the same trust checkpoint. Holds in every reachable state, so
  // also for as long as the operation exists.
  lemma GatedDispatchIsAuthorized(gov: Gov, events: seq<Event>, k: string)
    requires var s := Reached(gov, Start(), events);
      k in s.gates && s.gates[k].required && (s.gates[k].state == Dispatching || s.gates[k].claimedBy.Some?)
    ensures var s := Reached(gov, Start(), events);
      var g := s.gates[k];
      && g.request.Some? && Matches(gov, k, g.fields, g.request.value)
      && var (a, c) := (FindAuth(s.store.auths, g.request.value.id), FindCons(s.store.cons, g.request.value.id));
      && a.Some? && a.value.envelope == g.request.value && a.value.decision == Authorized
      && c.Some? && c.value.decision == Consumed && c.value.claim == gov.claimId(k, g.request.value.id)
      && a.value.body.checkpoint == c.value.body.checkpoint
  {
    RunKeepsInv(gov, Start(), events);
    var s := Reached(gov, Start(), events);
    assert GateSound(gov, s.store, k, s.gates[k]);
    RowsBehindReceipts(gov, s.store, s.gates[k].request.value, s.gates[k].receipt.value, s.gates[k].consumption.value);
  }

  lemma RowsBehindReceipts(gov: Gov, store: Store, r: Request, a: AuthReceipt, c: ConsReceipt)
    requires Sound(gov.cfg, store) && IssuedAuth(store, r, a) && IssuedCons(store, r, c)
    requires c.body.decision == Consumed
    ensures var (x, y) := (FindAuth(store.auths, r.id), FindCons(store.cons, r.id));
      && x.Some? && x.value.envelope == r && x.value.decision == Authorized
      && y.Some? && y.value.decision == Consumed && y.value.claim == c.body.claim
      && y.value.body.checkpoint == x.value.body.checkpoint
  {
    var y := FindCons(store.cons, r.id).value;
    var i :| 0 <= i < |store.cons| && store.cons[i] == y;
    assert ConsRowSound(gov.cfg, store.cons[i], i + 1, FindAuth(store.auths, r.id));
    var x := FindAuth(store.auths, r.id).value;
    var j :| 0 <= j < |store.auths| && store.auths[j] == x;
    assert AuthRowSound(gov.cfg, store.auths[j], j + 1);
  }

  // What the authority sees of a call is one of its own steps, or nothing.
  lemma StoreWatched(gov: Gov, s: System, w: WorkerId, act: Act)
    ensures Steps(gov.cfg, s.store, Do(gov, s, w, act).store)
  {
    StoreStep(gov, s, Holding(s, w), act);
  }

  // The store before, between and after the events.
  function StoresOf(gov: Gov, events: seq<Event>): seq<Store> {
    seq(|events| + 1, n requires 0 <= n <= |events| => Reached(gov, Start(), events[..n]).store)
  }

  lemma StoresAreWatched(gov: Gov, events: seq<Event>)
    ensures Watched(gov.cfg, StoresOf(gov, events))
  {
    var trace := StoresOf(gov, events);
    forall n | 0 < n < |trace| ensures StepsAt(gov.cfg, trace, n) {
      assert events[..n] == events[..n - 1] + [events[n - 1]];
      ReachedExtends(gov, Start(), events[..n - 1], events[n - 1]);
      StoreWatched(gov, Reached(gov, Start(), events[..n - 1]), events[n - 1].worker, events[n - 1].act);
    }
  }

  // Behind a gated claim lies a window: one event recorded the authorization, a later one
  // the consumption, and from before the one to after the other the trust checkpoint was the
  // one the request names, at every moment.
  lemma TrustStoodStill(gov: Gov, events: seq<Event>, k: string) returns (i: nat, j: nat)
    requires var s := Reached(gov, Start(), events);
      k in s.gates && s.gates[k].required && s.gates[k].claimedBy.Some?
    ensures var s := Reached(gov, Start(), events);
      s.gates[k].request.Some?
      && Window(StoresOf(gov, events), i, j, s.gates[k].request.value.id, Bound(s.gates[k].request.value))
  {
    var s := Reached(gov, Start(), events);
    GatedDispatchIsAuthorized(gov, events, k);
    StoresAreWatched(gov, events);
    assert events[..|events|] == events;
    var actions := WatchedIsARun(gov.cfg, StoresOf(gov, events));
    i, j := ConsumedHasWindow(gov.cfg, StoresOf(gov, events), actions, |events|, s.gates[k].request.value.id);
  }

  // No consumption ever serves two operations: their requests, rows and claims all differ.
  lemma NoSharedConsumption(gov: Gov, events: seq<Event>, k: string, l: string)
    requires var s := Reached(gov, Start(), events);
      k in s.gates && l in s.gates && k != l && s.gates[k].consumption.Some? && s.gates[l].consumption.Some?
    ensures var s := Reached(gov, Start(), events);
      var (c, d) := (s.gates[k].consumption.value.body, s.gates[l].consumption.value.body);
      c.requestId != d.requestId && c.claim != d.claim && c.sequence != d.sequence
  {
    RunKeepsInv(gov, Start(), events);
    ConsumptionsDiffer(gov, Reached(gov, Start(), events), k, l);
  }

  lemma ConsumptionsDiffer(gov: Gov, s: System, k: string, l: string)
    requires Sound(gov.cfg, s.store) && GatesSound(gov, s.store, s.gates)
    requires k in s.gates && l in s.gates && k != l && s.gates[k].consumption.Some? && s.gates[l].consumption.Some?
    ensures var (c, d) := (s.gates[k].consumption.value.body, s.gates[l].consumption.value.body);
      c.requestId != d.requestId && c.claim != d.claim && c.sequence != d.sequence
  {
    assert GateSound(gov, s.store, k, s.gates[k]) && GateSound(gov, s.store, l, s.gates[l]);
    var (r, q) := (s.gates[k].request.value, s.gates[l].request.value);
    assert r.binding.idempotencyKey != q.binding.idempotencyKey;
    DistinctConsumptions(gov, s.store, r, s.gates[k].consumption.value, q, s.gates[l].consumption.value);
  }

  lemma RowBehindReceipt(gov: Gov, store: Store, r: Request, c: ConsReceipt) returns (i: nat)
    requires Sound(gov.cfg, store) && IssuedCons(store, r, c)
    ensures i < |store.cons|
    ensures var row := store.cons[i];
      row.requestId == c.body.requestId && row.claim == c.body.claim && c.body.sequence == i + 1 && row.body == c.body
  {
    var row := FindCons(store.cons, r.id).value;
    i :| 0 <= i < |store.cons| && store.cons[i] == row;
    assert ConsRowSound(gov.cfg, store.cons[i], i + 1, FindAuth(store.auths, r.id));
  }

  lemma DistinctConsumptions(gov: Gov, store: Store, r: Request, c: ConsReceipt, q: Request, d: ConsReceipt)
    requires Sound(gov.cfg, store) && IssuedCons(store, r, c) && IssuedCons(store, q, d)
    requires c.body.requestDigest == r && d.body.requestDigest == q && r != q
    ensures c.body.requestId != d.body.requestId && c.body.claim != d.body.claim && c.body.sequence != d.body.sequence
  {
    var i := RowBehindReceipt(gov, store, r, c);
    var j := RowBehindReceipt(gov, store, q, d);
    assert i != j;
    assert ConsDistinct(store.cons);
  }

  // ---------------------------------------------------------------- recovery

  // A RESERVED operation whose consumption is on record under its own claim, whoever asked
  // for it and whatever replies were lost.
  predicate ConsumedUnnoticed(gov: Gov, s: System, k: string) {
    && k in s.gates && s.gates[k].required && s.gates[k].state == Reserved
    && s.gates[k].request.Some? && s.gates[k].receipt.Some? && s.gates[k].receipt.value.body.decision == Authorized
    && gov.cfg.valid(s.gates[k].request.value) && s.gates[k].consumption.None?
    && var (r, row) := (s.gates[k].request.value, FindCons(s.store.cons, s.gates[k].request.value.id));
    && row.Some? && row.value.decision == Consumed && gov.claimId(k, r.id) != ""
    && row.value.claim == gov.claimId(k, r.id)
  }

  lemma RecordedReceiptVerifies(gov: Gov, s: System, k: string)
    requires Inv(gov, s) && ConsumedUnnoticed(gov, s, k)
    ensures var (g, row) := (s.gates[k], FindCons(s.store.cons, s.gates[k].request.value.id).value);
      && row.requestDigest == g.request.value && row.body.claim == row.claim && row.body.decision == row.decision
      && VerifiedUse(gov, ConsReceipt(row.body, row.signature, true), g.request.value, g.receipt.value)
  {
    var (g, row) := (s.gates[k], FindCons(s.store.cons, s.gates[k].request.value.id).value);
    assert GateSound(gov, s.store, k, g);
    var i :| 0 <= i < |s.store.cons| && s.store.cons[i] == row;
    assert ConsRowSound(gov.cfg, s.store.cons[i], i + 1, FindAuth(s.store.auths, row.requestId));
    var x := FindAuth(s.store.auths, row.requestId).value;
    var j :| 0 <= j < |s.store.auths| && s.store.auths[j] == x;
    assert AuthRowSound(gov.cfg, s.store.auths[j], j + 1);
  }

  lemma Restarting(gov: Gov, s: System, w: WorkerId, k: string)
    requires ConsumedUnnoticed(gov, s, k) && GateSound(gov, s.store, k, s.gates[k])
    ensures var t := Do(gov, Do(gov, s, w, Crash), w, StartConsume(k));
      && t.store == s.store && t.gates == s.gates
      && Holding(t, w) == ToConsume(k, s.gates[k].request.value, s.gates[k].receipt.value)
  {}

  lemma Reclaiming(gov: Gov, s: System, w: WorkerId, k: string)
    requires ConsumedUnnoticed(gov, s, k) && GateSound(gov, s.store, k, s.gates[k])
    requires Holding(s, w) == ToConsume(k, s.gates[k].request.value, s.gates[k].receipt.value)
    ensures var (t, g) := (Do(gov, s, w, TakeClaim), s.gates[k]);
      var claim := gov.claimId(k, g.request.value.id);
      && t.store == s.store && t.gates == s.gates[k := g.(claim := claim)]
      && Holding(t, w) == Claimed(k, g.request.value, g.receipt.value, claim)
  {}

  lemma Hearing(gov: Gov, s: System, w: WorkerId, row: ConsRow)
    requires Holding(s, w).Claimed? && gov.cfg.valid(Holding(s, w).request)
    requires FindCons(s.store.cons, Holding(s, w).request.id) == Some(row) && row.requestDigest == Holding(s, w).request
    ensures var (t, m) := (Do(gov, s, w, LookUpConsumption), Holding(s, w));
      && t.store == s.store && t.gates == s.gates
      && Holding(t, w) == Served(m.key, m.request, m.receipt, m.claim, ConsReceipt(row.body, row.signature, true))
  {}

  lemma Recording(gov: Gov, s: System, w: WorkerId, k: string)
    requires Holding(s, w).Served? && Holding(s, w).key == k && k in s.gates
    requires var (m, g) := (Holding(s, w), s.gates[k]);
      && g.required && g.state == Reserved && g.receipt.Some? && g.consumption.None? && g.claim != ""
      && m.claim == g.claim && m.consumption.body.claim == g.claim
      && VerifiedUse(gov, m.consumption, m.request, m.receipt)
    ensures var (t, m) := (Do(gov, s, w, RecordConsumption), Holding(s, w));
      && t.gates == s.gates[k := s.gates[k].(consumption := Some(m.consumption.(replayed := false)))]
      && Holding(t, w) == Idle
  {}

  lemma Entering(gov: Gov, s: System, w: WorkerId, k: string)
    requires Holding(s, w) == Idle && k in s.gates && s.gates[k].state == Reserved
    requires s.gates[k].claim != "" && ValidConsumption(gov, k, s.gates[k])
    ensures var t := Do(gov, Do(gov, s, w, CheckGate(k)), w, ClaimDispatch);
      t.gates == s.gates[k := s.gates[k].(state := Dispatching, claimedBy := Some(w))]
  {}

  function Recovered(gov: Gov, s: System, w: WorkerId, k: string): System {
    var s1 := Do(gov, Do(gov, s, w, Crash), w, StartConsume(k));
    var s2 := Do(gov, Do(gov, s1, w, TakeClaim), w, LookUpConsumption);
    var s3 := Do(gov, s2, w, RecordConsumption);
    Do(gov, Do(gov, s3, w, CheckGate(k)), w, ClaimDispatch)
  }

  // From any reachable state, one undisturbed pass by any worker turns a consumption nobody
  // noticed into a claimed dispatch, without a second consumption.
  lemma LostConsumptionIsRecovered(gov: Gov, events: seq<Event>, w: WorkerId, k: string)
    requires ConsumedUnnoticed(gov, Reached(gov, Start(), events), k)
    ensures var (s, t) := (Reached(gov, Start(), events), Recovered(gov, Reached(gov, Start(), events), w, k));
      && k in t.gates && t.gates[k].state == Dispatching && t.gates[k].claimedBy == Some(w)
      && t.gates[k].consumption.Some?
      && t.gates[k].consumption.value.body == FindCons(s.store.cons, s.gates[k].request.value.id).value.body
  {
    RunKeepsInv(gov, Start(), events);
    var s := Reached(gov, Start(), events);
    var (g, row) := (s.gates[k], FindCons(s.store.cons, s.gates[k].request.value.id).value);
    assert GateSound(gov, s.store, k, g);
    RecordedReceiptVerifies(gov, s, k);
    Restarting(gov, s, w, k);
    var s1 := Do(gov, Do(gov, s, w, Crash), w, StartConsume(k));
    Reclaiming(gov, s1, w, k);
    var s2 := Do(gov, s1, w, TakeClaim);
    Hearing(gov, s2, w, row);
    var s3 := Do(gov, s2, w, LookUpConsumption);
    Recording(gov, s3, w, k);
    var s4 := Do(gov, s3, w, RecordConsumption);
    Entering(gov, s4, w, k);
  }
}
