// The Profile S commit authority: two append-only tables beside the trust anchor
// (tenir_governance/experimental/ep02_commit_authorization.py, ProfileSCommitAuthority).
module CommitAuthority {
  import opened Wrappers
  import opened Trust
  import opened Checkpoints
  import opened CommitRecords

  datatype Config = Config(
    authority: string, profile: string, generation: int, roots: Roots,
    keyId: string, keyGeneration: int, key: Key, valid: Validator)

  // A provisioned authority validates requests with ValidRequest.
  function ProfileS(authority: string, profile: string, generation: int, roots: Roots,
                    keyId: string, keyGeneration: int, key: Key): Config {
    Config(authority, profile, generation, roots, keyId, keyGeneration, key, r => ValidRequest(r))
  }

  datatype Store = Store(checkpoint: Option<Checkpoint>, auths: seq<AuthRow>, cons: seq<ConsRow>)

  // The evidence a caller hands to `authorize`. None stands for a value of the wrong type.
  datatype Inputs = Inputs(
    finding: Option<BoundFinding>, claim: SignedClaim, snapshot: Option<SignedTrustState>, now: Moment)

  // Where a call may be interrupted. Before the commit the transaction is rolled back;
  // after it the row stands and only the reply is lost.
  datatype Interrupt = Undisturbed | AtBegin | BeforeCommit | AfterCommit

  datatype AuthReply = AuthInvalid | AuthFaulted | RequestConflict | Authorization(receipt: AuthReceipt)

  datatype ConsReply =
    | ConsInvalid | ConsFaulted | ContextConflict | ClaimConflict | ClaimTaken | Consumption(receipt: ConsReceipt)

  function Keys(cfg: Config): TrustedKeys { map[(cfg.keyId, cfg.keyGeneration) := cfg.key] }

  // ---------------------------------------------------------------- tables

  function FindAuth(rows: seq<AuthRow>, id: string): (r: Option<AuthRow>)
    ensures r.Some? ==> r.value in rows && r.value.requestId == id
    ensures r.None? ==> forall i :: 0 <= i < |rows| ==> rows[i].requestId != id
  {
    if rows == [] then None
    else if rows[0].requestId == id then Some(rows[0])
    else FindAuth(rows[1..], id)
  }

  function FindCons(rows: seq<ConsRow>, id: string): (r: Option<ConsRow>)
    ensures r.Some? ==> r.value in rows && r.value.requestId == id
    ensures r.None? ==> forall i :: 0 <= i < |rows| ==> rows[i].requestId != id
  {
    if rows == [] then None
    else if rows[0].requestId == id then Some(rows[0])
    else FindCons(rows[1..], id)
  }

  // coalesce(max(sequence), 0) + 1
  function MaxAuth(rows: seq<AuthRow>): int {
    if rows == [] then 0
    else if rows[|rows| - 1].sequence > MaxAuth(rows[..|rows| - 1]) then rows[|rows| - 1].sequence
    else MaxAuth(rows[..|rows| - 1])
  }

  function MaxCons(rows: seq<ConsRow>): int {
    if rows == [] then 0
    else if rows[|rows| - 1].sequence > MaxCons(rows[..|rows| - 1]) then rows[|rows| - 1].sequence
    else MaxCons(rows[..|rows| - 1])
  }

  predicate ClaimUsed(rows: seq<ConsRow>, claim: string) {
    exists i :: 0 <= i < |rows| && rows[i].claim == claim
  }

  // ---------------------------------------------------------------- authorize

  predicate Names(cfg: Config, b: Binding) {
    b.authority == cfg.authority && b.profile == cfg.profile && b.generation == cfg.generation
  }

  predicate FindingMatches(f: BoundFinding, b: Binding) {
    && f.trustRevision == b.trustRevision && f.trustDigest == b.trustDigest && f.policyVersion == b.policyVersion
    && f.claimDigest == Some(b.claimDigest) && f.priorDocument == b.priorDocument && f.scope == b.evidenceScope
    && f.snapshotDigest == Some(b.snapshotDigest)
  }

  predicate SnapshotMatches(s: SignedTrustState, b: Binding) {
    && s.state.revision == b.trustRevision && Canonical(s.state) == b.trustDigest
    && s.state.policyVersion == b.policyVersion && SnapshotOf(s) == Some(b.snapshotDigest)
  }

  function Evaluation(cfg: Config, r: Request, x: Inputs, current: Option<Checkpoint>): (AuthDecision, AuthReason) {
    var b := r.binding;
    if !Names(cfg, b) then (Rejected, AuthorityBindingMismatch)
    else if current.None? then (Rejected, TrustNotInitialized)
    else if current.value != Checkpoint(b.trustRevision, b.snapshotDigest) then (Rejected, TrustCheckpointStale)
    else if x.finding.None? || !FindingMatches(x.finding.value, b) then (Rejected, PreflightBindingMismatch)
    else if x.snapshot.None? || SnapshotOf(x.snapshot.value).None? then (Rejected, TrustSnapshotMalformed)
    else if !SnapshotMatches(x.snapshot.value, b) then (Rejected, TrustSnapshotMismatch)
    else
      match RevalidateBound(x.finding.value, x.claim, b.priorDocument, b.evidenceScope, x.now,
                            x.snapshot.value, cfg.roots, current.value.revision)
      case None => (Rejected, EvidenceRevalidationError)
      case Some((verdict, reason)) =>
        if verdict != Admissible then (Rejected, Evidence(reason)) else (Authorized, CommitAuthorized)
  }

  function AuthRowFor(cfg: Config, r: Request, decision: AuthDecision, reason: AuthReason,
                      checkpoint: Option<Checkpoint>, sequence: int): AuthRow {
    var body := AuthBody(cfg.authority, cfg.profile, cfg.generation, cfg.keyId, cfg.keyGeneration,
                         r.id, r, r.binding, decision, reason, checkpoint, sequence);
    AuthRow(sequence, r.id, r, r.binding, r, decision, reason, body, AuthStamp(cfg.key, body))
  }

  function NewAuth(cfg: Config, s: Store, r: Request, x: Inputs): AuthRow {
    var (decision, reason) := Evaluation(cfg, r, x, s.checkpoint);
    AuthRowFor(cfg, r, decision, reason, s.checkpoint, MaxAuth(s.auths) + 1)
  }

  function Authorizing(cfg: Config, s: Store, r: Request, x: Inputs, fault: Interrupt): (Store, AuthReply) {
    if !cfg.valid(r) then (s, AuthInvalid)
    else if fault == AtBegin then (s, AuthFaulted)
    else match FindAuth(s.auths, r.id)
      case Some(row) =>
        if row.requestDigest != r then (s, RequestConflict)
        else (s, Authorization(AuthReceipt(row.body, row.signature, true)))
      case None =>
        var row := NewAuth(cfg, s, r, x);
        if fault == BeforeCommit then (s, AuthFaulted)
        else
          (s.(auths := s.auths + [row]),
           if fault == AfterCommit then AuthFaulted else Authorization(AuthReceipt(row.body, row.signature, false)))
  }

  function RecordedAuthorization(cfg: Config, s: Store, r: Request): Option<AuthReply> {
    if !cfg.valid(r) then Some(AuthInvalid)
    else match FindAuth(s.auths, r.id)
      case None => None
      case Some(row) =>
        Some(if row.requestDigest != r then RequestConflict
             else Authorization(AuthReceipt(row.body, row.signature, true)))
  }

  // ---------------------------------------------------------------- consume

  // The recorded authorization that the presented receipt repeats exactly.
  function Presented(cfg: Config, s: Store, r: Request, a: AuthReceipt): Option<AuthRow> {
    if !VerifyAuthorization(a, r, Keys(cfg), cfg.valid) then None
    else match FindAuth(s.auths, r.id)
      case None => None
      case Some(row) =>
        if row.requestDigest != r || row.signature != a.signature || row.body != a.body then None else Some(row)
  }

  function ConsRowFor(cfg: Config, r: Request, authSequence: int, claim: string, decision: ConsDecision,
                      checkpoint: Option<Checkpoint>, sequence: int): ConsRow {
    var body := ConsBody(cfg.authority, cfg.profile, cfg.generation, cfg.keyId, cfg.keyGeneration,
                         r.id, r, r.binding, authSequence, claim, decision, checkpoint, sequence);
    ConsRow(sequence, r.id, r, r.binding, claim, decision, body, ConsStamp(cfg.key, body))
  }

  function NewCons(cfg: Config, s: Store, r: Request, row: AuthRow, claim: string): ConsRow {
    var decision :=
      if row.body.decision != Authorized then NotGranted
      else if s.checkpoint != row.body.checkpoint then Stale
      else Consumed;
    ConsRowFor(cfg, r, row.body.sequence, claim, decision, s.checkpoint, MaxCons(s.cons) + 1)
  }

  function Consuming(cfg: Config, s: Store, r: Request, a: AuthReceipt, claim: string, fault: Interrupt)
    : (Store, ConsReply)
  {
    if !Identity(claim) || !VerifyAuthorization(a, r, Keys(cfg), cfg.valid) then (s, ConsInvalid)
    else if fault == AtBegin then (s, ConsFaulted)
    else match Presented(cfg, s, r, a)
      case None => (s, ConsInvalid)
      case Some(row) =>
        match FindCons(s.cons, r.id)
        case Some(existing) =>
          if existing.claim != claim then (s, ClaimConflict)
          else (s, Consumption(ConsReceipt(existing.body, existing.signature, true)))
        case None =>
          var row := NewCons(cfg, s, r, row, claim);
          if ClaimUsed(s.cons, claim) then (s, ClaimTaken)
          else if fault == BeforeCommit then (s, ConsFaulted)
          else
            (s.(cons := s.cons + [row]),
             if fault == AfterCommit then ConsFaulted else Consumption(ConsReceipt(row.body, row.signature, false)))
  }

  function RecordedConsumption(cfg: Config, s: Store, r: Request): Option<ConsReply> {
    if !cfg.valid(r) then Some(ConsInvalid)
    else match FindCons(s.cons, r.id)
      case None => None
      case Some(row) =>
        Some(if row.requestDigest != r then ContextConflict
             else Consumption(ConsReceipt(row.body, row.signature, true)))
  }

  // ---------------------------------------------------------------- validation on reopening

  predicate AuthRowAccepted(cfg: Config, row: AuthRow) {
    && cfg.valid(row.envelope) && ReadableCheckpoint(row.body.checkpoint)
    && row.sequence >= 1 && row.requestId == row.envelope.id
    && row.requestDigest == row.envelope && row.bindingDigest == row.envelope.binding
    && row.body.sequence == row.sequence && row.body.requestId == row.requestId
    && row.body.decision == row.decision && row.body.reason == row.reason
    && VerifyAuthorization(AuthReceipt(row.body, row.signature, false), row.envelope, Keys(cfg), cfg.valid)
  }

  // `auth` is the authorization row the consumption's request id leads to.
  predicate ConsRowAccepted(cfg: Config, row: ConsRow, auth: Option<AuthRow>) {
    && auth.Some? && ReadableCheckpoint(row.body.checkpoint)
    && row.body.sequence == row.sequence && row.body.requestId == row.requestId
    && row.body.requestDigest == row.requestDigest && row.body.bindingDigest == row.bindingDigest
    && row.body.claim == row.claim && row.body.decision == row.decision
    && VerifyConsumption(ConsReceipt(row.body, row.signature, false), auth.value.envelope,
                         AuthReceipt(auth.value.body, auth.value.signature, false), Keys(cfg), cfg.valid)
  }

  predicate AuthsAccepted(cfg: Config, auths: seq<AuthRow>) {
    forall i :: 0 <= i < |auths| ==> AuthRowAccepted(cfg, auths[i])
  }

  predicate ConsAccepted(cfg: Config, auths: seq<AuthRow>, cons: seq<ConsRow>) {
    forall i :: 0 <= i < |cons| ==> ConsRowAccepted(cfg, cons[i], FindAuth(auths, cons[i].requestId))
  }

  predicate Reopens(cfg: Config, s: Store) {
    AuthsAccepted(cfg, s.auths) && ConsAccepted(cfg, s.auths, s.cons)
  }

  class ProfileSCommitAuthority {
    const cfg: Config
    const anchor: CheckpointStore
    var auths: seq<AuthRow>
    var cons: seq<ConsRow>

    constructor (authority: string, profile: string, generation: int, roots: Roots,
                 keyId: string, keyGeneration: int, key: Key)
      ensures cfg == ProfileS(authority, profile, generation, roots, keyId, keyGeneration, key)
      ensures Value() == Store(None, [], []) && fresh(anchor)
    {
      cfg := ProfileS(authority, profile, generation, roots, keyId, keyGeneration, key);
      anchor := new CheckpointStore();
      auths, cons := [], [];
    }

    function Value(): Store
      reads this, anchor
    {
      Store(anchor.stored, auths, cons)
    }

    // SELECT coalesce(max(sequence), 0) + 1
    method NextAuthSequence() returns (n: int)
      ensures n == MaxAuth(auths) + 1
    {
      n := 0;
      for i := 0 to |auths|
        invariant n == MaxAuth(auths[..i])
      {
        assert auths[..i + 1][..i] == auths[..i];
        if auths[i].sequence > n { n := auths[i].sequence; }
      }
      assert auths[..|auths|] == auths;
      n := n + 1;
    }

    method NextConsSequence() returns (n: int)
      ensures n == MaxCons(cons) + 1
    {
      n := 0;
      for i := 0 to |cons|
        invariant n == MaxCons(cons[..i])
      {
        assert cons[..i + 1][..i] == cons[..i];
        if cons[i].sequence > n { n := cons[i].sequence; }
      }
      assert cons[..|cons|] == cons;
      n := n + 1;
    }

    method Authorize(r: Request, x: Inputs, fault: Interrupt) returns (reply: AuthReply)
      modifies this
      ensures (Value(), reply) == Authorizing(cfg, old(Value()), r, x, fault)
    {
      if !cfg.valid(r) { return AuthInvalid; }
      if fault == AtBegin { return AuthFaulted; }
      var row := FindAuth(auths, r.id);
      if row.Some? {
        if row.value.requestDigest != r { return RequestConflict; }
        return Authorization(AuthReceipt(row.value.body, row.value.signature, true));
      }
      var current := anchor.Get();
      var (decision, reason) := Evaluation(cfg, r, x, current);
      var sequence := NextAuthSequence();
      var body := AuthBody(cfg.authority, cfg.profile, cfg.generation, cfg.keyId, cfg.keyGeneration,
                           r.id, r, r.binding, decision, reason, current, sequence);
      var signature := AuthStamp(cfg.key, body);
      if fault == BeforeCommit { return AuthFaulted; }
      auths := auths + [AuthRow(sequence, r.id, r, r.binding, r, decision, reason, body, signature)];
      if fault == AfterCommit { return AuthFaulted; }
      reply := Authorization(AuthReceipt(body, signature, false));
    }

    method LookupAuthorization(r: Request) returns (reply: Option<AuthReply>)
      ensures reply == RecordedAuthorization(cfg, Value(), r)
    {
      if !cfg.valid(r) { return Some(AuthInvalid); }
      var row := FindAuth(auths, r.id);
      if row.None? { return None; }
      if row.value.requestDigest != r { return Some(RequestConflict); }
      reply := Some(Authorization(AuthReceipt(row.value.body, row.value.signature, true)));
    }

    method Consume(r: Request, a: AuthReceipt, claim: string, fault: Interrupt) returns (reply: ConsReply)
      modifies this
      ensures (Value(), reply) == Consuming(cfg, old(Value()), r, a, claim, fault)
    {
      if !Identity(claim) || !VerifyAuthorization(a, r, Keys(cfg), cfg.valid) { return ConsInvalid; }
      if fault == AtBegin { return ConsFaulted; }
      var row := FindAuth(auths, r.id);
      if row.None? || row.value.requestDigest != r { return ConsInvalid; }
      var stored := row.value;
      if stored.signature != a.signature || stored.body != a.body { return ConsInvalid; }
      var existing := FindCons(cons, r.id);
      if existing.Some? {
        if existing.value.claim != claim { return ClaimConflict; }
        return Consumption(ConsReceipt(existing.value.body, existing.value.signature, true));
      }
      var current := anchor.Get();
      var decision := Consumed;
      if stored.body.decision != Authorized { decision := NotGranted; }
      else if current != stored.body.checkpoint { decision := Stale; }
      var sequence := NextConsSequence();
      var body := ConsBody(cfg.authority, cfg.profile, cfg.generation, cfg.keyId, cfg.keyGeneration,
                           r.id, r, r.binding, stored.body.sequence, claim, decision, current, sequence);
      var signature := ConsStamp(cfg.key, body);
      if exists i :: 0 <= i < |cons| && cons[i].claim == claim { return ClaimTaken; }
      if fault == BeforeCommit { return ConsFaulted; }
      cons := cons + [ConsRow(sequence, r.id, r, r.binding, claim, decision, body, signature)];
      if fault == AfterCommit { return ConsFaulted; }
      reply := Consumption(ConsReceipt(body, signature, false));
    }

    method LookupConsumption(r: Request) returns (reply: Option<ConsReply>)
      ensures reply == RecordedConsumption(cfg, Value(), r)
    {
      if !cfg.valid(r) { return Some(ConsInvalid); }
      var row := FindCons(cons, r.id);
      if row.None? { return None; }
      if row.value.requestDigest != r { return Some(ContextConflict); }
      reply := Some(Consumption(ConsReceipt(row.value.body, row.value.signature, true)));
    }

    // _validate_rows: authorizations first, each remembered under its request id, then the
    // consumptions against them. The schema keeps request ids unique.
    method ValidateRows() returns (ok: bool)
      requires forall i, j :: 0 <= i < j < |auths| ==> auths[i].requestId != auths[j].requestId
      ensures ok <==> Reopens(cfg, Value())
    {
      var requests: map<string, AuthRow>;
      ok, requests := ValidateAuthorizations(row => AuthRowAccepted(cfg, row));
      if ok { ok := ValidateConsumptions(requests, (row, auth) => ConsRowAccepted(cfg, row, auth)); }
    }

    method ValidateAuthorizations(accepted: AuthRow -> bool) returns (ok: bool, requests: map<string, AuthRow>)
      requires forall i, j :: 0 <= i < j < |auths| ==> auths[i].requestId != auths[j].requestId
      ensures ok <==> forall i :: 0 <= i < |auths| ==> accepted(auths[i])
      ensures ok ==> forall id :: FindAuth(auths, id) == if id in requests then Some(requests[id]) else None
    {
      requests := map[];
      for i := 0 to |auths|
        invariant forall j :: 0 <= j < i ==> accepted(auths[j])
        invariant forall j :: 0 <= j < i ==> auths[j].requestId in requests
        invariant forall id :: id in requests ==> requests[id].requestId == id && requests[id] in auths[..i]
      {
        if !accepted(auths[i]) { return false, requests; }
        requests := requests[auths[i].requestId := auths[i]];
      }
      ok := true;
    }

    method ValidateConsumptions(requests: map<string, AuthRow>, accepted: (ConsRow, Option<AuthRow>) -> bool)
      returns (ok: bool)
      requires forall id :: FindAuth(auths, id) == if id in requests then Some(requests[id]) else None
      ensures ok <==> forall i :: 0 <= i < |cons| ==> accepted(cons[i], FindAuth(auths, cons[i].requestId))
    {
      for i := 0 to |cons|
        invariant forall j :: 0 <= j < i ==> accepted(cons[j], FindAuth(auths, cons[j].requestId))
      {
        var auth := if cons[i].requestId in requests then Some(requests[cons[i].requestId]) else None;
        if !accepted(cons[i], auth) { return false; }
      }
      ok := true;
    }
  }
}
