// Requests, receipts and rows of the Profile S commit authority, and their verification
// (tenir_governance/experimental/ep02_commit_authorization.py). A digest is the digested
// value itself; a signature verifies only the body it was made for.
module CommitRecords {
  import opened Wrappers
  import opened Trust
  import opened Checkpoints
  import CanonicalAmount

  datatype Binding = Binding(
    authority: string, profile: string, generation: int, institutionalScope: string,
    operation: string, idempotencyKey: string, passage: string, agent: string, actionType: string,
    resource: string, amount: string, payloadDigest: string, claimDigest: SignedClaim,
    priorDocument: string, evidenceScope: string, policyVersion: string,
    trustRevision: int, trustDigest: CanonicalTrust, snapshotDigest: Message)

  datatype Request = Request(id: string, binding: Binding)

  datatype AuthDecision = Authorized | Rejected

  datatype ConsDecision = Consumed | Stale | NotGranted

  datatype AuthReason =
    | AuthorityBindingMismatch | TrustNotInitialized | TrustCheckpointStale | PreflightBindingMismatch
    | TrustSnapshotMalformed | TrustSnapshotMismatch | EvidenceRevalidationError | Evidence(reason: Reason)
    | CommitAuthorized

  // What a receipt signs. The authority names itself in it, not what the request names.
  datatype AuthBody = AuthBody(
    authority: string, profile: string, generation: int, keyId: string, keyGeneration: int,
    requestId: string, requestDigest: Request, bindingDigest: Binding,
    decision: AuthDecision, reason: AuthReason, checkpoint: Option<Checkpoint>, sequence: int)

  datatype ConsBody = ConsBody(
    authority: string, profile: string, generation: int, keyId: string, keyGeneration: int,
    requestId: string, requestDigest: Request, bindingDigest: Binding,
    authSequence: int, claim: string, decision: ConsDecision, checkpoint: Option<Checkpoint>, sequence: int)

  datatype Stamp = AuthStamp(key: Key, auth: AuthBody) | ConsStamp(key: Key, cons: ConsBody) | NoStamp

  datatype AuthReceipt = AuthReceipt(body: AuthBody, signature: Stamp, replayed: bool)

  datatype ConsReceipt = ConsReceipt(body: ConsBody, signature: Stamp, replayed: bool)

  // One row of each table, with the columns the store keeps beside the signed body.
  datatype AuthRow = AuthRow(
    sequence: int, requestId: string, requestDigest: Request, bindingDigest: Binding, envelope: Request,
    decision: AuthDecision, reason: AuthReason, body: AuthBody, signature: Stamp)

  datatype ConsRow = ConsRow(
    sequence: int, requestId: string, requestDigest: Request, bindingDigest: Binding, claim: string,
    decision: ConsDecision, body: ConsBody, signature: Stamp)

  type TrustedKeys = map<(string, int), Key>

  // The check every entry point makes of a request; `ValidRequest` below is the one in use.
  type Validator = Request -> bool

  // ---------------------------------------------------------------- validity of a request

  predicate Text(s: string) {
    1 <= |s| <= 256 && forall i :: 0 <= i < |s| ==> s[i] as int >= 32
  }

  predicate HexDigest(s: string) {
    |s| == 64 && forall i :: 0 <= i < |s| ==> '0' <= s[i] <= '9' || 'a' <= s[i] <= 'f'
  }

  predicate ValidBinding(b: Binding) {
    && Identity(b.authority) && Identity(b.profile) && b.generation >= 1
    && Identity(b.institutionalScope) && Identity(b.operation) && Identity(b.idempotencyKey)
    && Identity(b.passage) && Identity(b.agent) && Text(b.actionType)
    && (b.resource == "" || Identity(b.resource))
    && CanonicalAmount.IsCanonical(b.amount)
    && HexDigest(b.payloadDigest)
    && Text(b.priorDocument) && Text(b.evidenceScope) && Text(b.policyVersion)
    && b.trustRevision >= 1
  }

  predicate ValidRequest(r: Request) {
    Identity(r.id) && ValidBinding(r.binding)
  }

  // ---------------------------------------------------------------- receipts

  // A checkpoint that decoding a receipt body accepts.
  predicate ReadableCheckpoint(c: Option<Checkpoint>) { c.Some? ==> c.value.revision >= 1 }

  predicate VerifyAuthorization(receipt: AuthReceipt, request: Request, keys: TrustedKeys, valid: Validator) {
    var b := receipt.body;
    && valid(request)
    && (b.keyId, b.keyGeneration) in keys
    && b.authority == request.binding.authority && b.profile == request.binding.profile
    && b.generation == request.binding.generation
    && b.requestId == request.id && b.requestDigest == request && b.bindingDigest == request.binding
    && b.sequence >= 1
    && receipt.signature == AuthStamp(keys[(b.keyId, b.keyGeneration)], b)
  }

  predicate VerifyConsumption(receipt: ConsReceipt, request: Request, authorization: AuthReceipt, keys: TrustedKeys,
                              valid: Validator) {
    var (b, a) := (receipt.body, authorization.body);
    && VerifyAuthorization(authorization, request, keys, valid)
    && (b.keyId, b.keyGeneration) in keys
    && b.authority == a.authority && b.profile == a.profile && b.generation == a.generation
    && b.requestId == a.requestId && b.requestDigest == a.requestDigest && b.bindingDigest == a.bindingDigest
    && b.authSequence == a.sequence
    && b.sequence >= 1
    && receipt.signature == ConsStamp(keys[(b.keyId, b.keyGeneration)], b)
  }
}
