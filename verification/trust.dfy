// Signed trust snapshots and the preflight built on them
// (tenir_governance/experimental/ep01_policy.py, ep01_evidence.py, ep02_binding.py,
// ep02_signed_trust.py). A signature verifies only the message it was made for, and a
// hash is the hashed value itself.
module Trust {
  import opened Wrappers

  type Key = string

  // A timestamp without a zone is refused wherever it is compared.
  datatype Moment = Naive | Aware(utc: real, offset: real)

  datatype Claim = Claim(identifier: string, issuer: string, supersedes: string, effectiveAt: Moment)

  datatype TrustState = TrustState(
    revision: int, policyVersion: string, mandates: seq<(string, string)>, revoked: seq<string>)

  // Sorting makes the encodings forget the order of the lists and keep their contents.
  datatype CanonicalTrust = CanonicalTrust(
    revision: int, policyVersion: string, mandates: multiset<(string, string)>, revoked: multiset<string>)

  datatype Message =
    | SnapshotBytes(trust: CanonicalTrust, keys: multiset<(string, Key)>)
    | ClaimBytes(claim: Claim)

  datatype Signature = Signature(key: Key, message: Message) | Noise

  datatype SignedClaim = SignedClaim(claim: Claim, signature: Signature)

  datatype SignedTrustState = SignedTrustState(
    state: TrustState, signature: Signature, signer: string, issuerKeys: seq<(string, Key)>)

  predicate Verifies(key: Key, signature: Signature, message: Message) {
    signature == Signature(key, message)
  }

  // ---------------------------------------------------------------- documentary policy

  datatype Verdict = Admissible | OnHold | Reject

  datatype Reason =
    | InsufficientContext | InvalidInput | DuplicateClaim | InsufficientStanding
    | PrecedenceUnresolved | ConflictingActiveClaims | NotYetEffective | PolicyPreconditionsMet
    | UnknownIssuerKey | InvalidSignature
    | TrustSnapshotUnverified | IssuerRevoked | IssuerKeyNotBound | TrustScopeRejected
    | BoundPreflightNotCommitted | TrustOrClaimChanged | BoundPreflightValidNotCommitted

  predicate Distinct<T(==)>(s: seq<T>) {
    forall i, j :: 0 <= i < j < |s| ==> s[i] != s[j]
  }

  predicate Identifiers(claims: seq<Claim>) {
    forall i, j :: 0 <= i < j < |claims| ==> claims[i].identifier != claims[j].identifier
  }

  predicate WellFormed(c: Claim) {
    c.identifier != "" && c.issuer != "" && c.supersedes != "" && c.effectiveAt.Aware?
  }

  predicate Active(c: Claim, now: real) {
    c.effectiveAt.Aware? && c.effectiveAt.utc <= now
  }

  function ActiveCount(claims: seq<Claim>, now: real): nat {
    if claims == [] then 0 else (if Active(claims[0], now) then 1 else 0) + ActiveCount(claims[1..], now)
  }

  // None stands for the exception raised on a `now` without a zone.
  function Evaluate(claims: seq<Claim>, prior: string, scope: string, standing: set<(string, string)>, now: Moment)
    : Option<(Verdict, Reason)>
  {
    if now.Naive? then None
    else if claims == [] || prior == "" || scope == "" then Some((OnHold, InsufficientContext))
    else if exists c :: c in claims && !WellFormed(c) then Some((OnHold, InvalidInput))
    else if !Identifiers(claims) then Some((OnHold, DuplicateClaim))
    else if exists c :: c in claims && (c.issuer, scope) !in standing then Some((Reject, InsufficientStanding))
    else if exists c :: c in claims && c.supersedes != prior then Some((OnHold, PrecedenceUnresolved))
    else if ActiveCount(claims, now.utc) > 1 then Some((OnHold, ConflictingActiveClaims))
    else if ActiveCount(claims, now.utc) == 0 then Some((OnHold, NotYetEffective))
    else Some((Admissible, PolicyPreconditionsMet))
  }

  // The one claim in force, for the reading of ADMISSIBLE below.
  ghost predicate InForce(claims: seq<Claim>, i: nat, now: real) {
    && i < |claims| && Active(claims[i], now)
    && forall j :: 0 <= j < |claims| && j != i ==> !Active(claims[j], now)
  }

  lemma {:induction false} OneActive(claims: seq<Claim>, now: real)
    ensures ActiveCount(claims, now) == 0 <==> forall i :: 0 <= i < |claims| ==> !Active(claims[i], now)
    ensures ActiveCount(claims, now) == 1 <==> exists i: nat :: InForce(claims, i, now)
  {
    if claims != [] {
      var rest := claims[1..];
      OneActive(rest, now);
      assert forall i :: 0 < i < |claims| ==> claims[i] == rest[i - 1];
      if Active(claims[0], now) {
        if ActiveCount(rest, now) == 0 { assert InForce(claims, 0, now); }
        if i: nat :| InForce(claims, i, now) { assert i == 0; }
      } else {
        if i: nat :| InForce(rest, i, now) { assert InForce(claims, i + 1, now); }
        if i: nat :| InForce(claims, i, now) { assert InForce(rest, i - 1, now); }
      }
    }
  }

  // ADMISSIBLE means: every claim is complete, uniquely identified, mandated and replaces
  // the prior document, and exactly one of them is in force.
  lemma AdmissibleExactly(claims: seq<Claim>, prior: string, scope: string, standing: set<(string, string)>,
                          now: Moment)
    ensures Evaluate(claims, prior, scope, standing, now) == Some((Admissible, PolicyPreconditionsMet))
      <==> && now.Aware? && prior != "" && scope != "" && Identifiers(claims)
           && (forall c :: c in claims ==> WellFormed(c) && (c.issuer, scope) in standing && c.supersedes == prior)
           && exists i: nat :: InForce(claims, i, now.utc)
  {
    if now.Aware? { OneActive(claims, now.utc); }
  }

  // ---------------------------------------------------------------- snapshots

  predicate IdentityChar(c: char) {
    'A' <= c <= 'Z' || 'a' <= c <= 'z' || '0' <= c <= '9' || c == '.' || c == '_' || c == ':' || c == '-'
  }

  predicate Identity(s: string) {
    && 1 <= |s| <= 128
    && (forall i :: 0 <= i < |s| ==> IdentityChar(s[i]))
    && s[0] != '.' && s[0] != '_' && s[0] != ':' && s[0] != '-'
  }

  predicate ValidState(t: TrustState) {
    && t.revision >= 1 && t.policyVersion != ""
    && (forall m :: m in t.mandates ==> m.0 != "" && m.1 != "") && Distinct(t.mandates)
    && (forall r :: r in t.revoked ==> r != "") && Distinct(t.revoked)
  }

  function Canonical(t: TrustState): CanonicalTrust {
    CanonicalTrust(t.revision, t.policyVersion, multiset(t.mandates), multiset(t.revoked))
  }

  // bound_snapshot_bytes; None when it raises.
  function SnapshotOf(signed: SignedTrustState): Option<Message> {
    if ValidState(signed.state)
       && (forall i, j :: 0 <= i < j < |signed.issuerKeys| ==> signed.issuerKeys[i].0 != signed.issuerKeys[j].0)
       && (forall e :: e in signed.issuerKeys ==> Identity(e.0) && |e.1| == 32)
    then Some(SnapshotBytes(Canonical(signed.state), multiset(signed.issuerKeys)))
    else None
  }

  predicate VerifySnapshot(signed: SignedTrustState, roots: map<string, Key>, minimum: int) {
    && minimum >= 1 && Identity(signed.signer) && ValidState(signed.state)
    && signed.state.revision >= minimum
    && signed.signer in roots
    && SnapshotOf(signed).Some?
    && Verifies(roots[signed.signer], signed.signature, SnapshotOf(signed).value)
  }

  // ---------------------------------------------------------------- binding and preflight

  datatype BoundFinding = BoundFinding(
    trustRevision: int, trustDigest: CanonicalTrust, policyVersion: string, claimDigest: Option<SignedClaim>,
    priorDocument: string, scope: string, snapshotDigest: Option<Message>)

  function Bind(trust: TrustState, issuer: string, scope: string, prior: string, claimDigest: Option<SignedClaim>)
    : Option<BoundFinding>
  {
    if trust.revision < 1 || trust.policyVersion == "" || claimDigest.None? || prior == ""
       || issuer in trust.revoked || (issuer, scope) !in trust.mandates then None
    else Some(BoundFinding(trust.revision, Canonical(trust), trust.policyVersion, claimDigest, prior, scope, None))
  }

  predicate Revalidate(b: BoundFinding, current: TrustState, claimDigest: Option<SignedClaim>, prior: string,
                       scope: string) {
    && b.trustRevision == current.revision && b.trustDigest == Canonical(current)
    && b.policyVersion == current.policyVersion && b.claimDigest == claimDigest
    && b.priorDocument == prior && b.scope == scope
  }

  function Lookup(entries: seq<(string, Key)>, name: string): Option<Key> {
    if entries == [] then None
    else if Lookup(entries[1..], name).Some? then Lookup(entries[1..], name)
    else if entries[0].0 == name then Some(entries[0].1)
    else None
  }

  // verify_and_evaluate on the single claim the preflight passes.
  function VerifyAndEvaluate(c: SignedClaim, prior: string, scope: string, key: Option<Key>,
                             standing: set<(string, string)>, now: Moment): Option<(Verdict, Reason)> {
    if key.None? then Some((Reject, UnknownIssuerKey))
    else if c.claim.effectiveAt.Naive? || !Verifies(key.value, c.signature, ClaimBytes(c.claim))
    then Some((Reject, InvalidSignature))
    else Evaluate([c.claim], prior, scope, standing, now)
  }

  // verified_bound_preflight: the verdict and, when ADMISSIBLE, the finding.
  function Preflight(c: SignedClaim, prior: string, scope: string, now: Moment, trust: SignedTrustState,
                     roots: map<string, Key>, minimum: int): Option<(Verdict, Reason, Option<BoundFinding>)> {
    if !VerifySnapshot(trust, roots, minimum) then Some((Reject, TrustSnapshotUnverified, None))
    else if c.claim.issuer in trust.state.revoked then Some((Reject, IssuerRevoked, None))
    else if Lookup(trust.issuerKeys, c.claim.issuer).None? then Some((Reject, IssuerKeyNotBound, None))
    else
      var standing := set m | m in trust.state.mandates;
      match VerifyAndEvaluate(c, prior, scope, Lookup(trust.issuerKeys, c.claim.issuer), standing, now)
      case None => None
      case Some((verdict, reason)) =>
        if verdict != Admissible then Some((verdict, reason, None))
        else match Bind(trust.state, c.claim.issuer, scope, prior, Some(c))
          case None => Some((Reject, TrustScopeRejected, None))
          case Some(b) => Some((Admissible, BoundPreflightNotCommitted, Some(b.(snapshotDigest := SnapshotOf(trust)))))
  }

  function RevalidateBound(receipt: BoundFinding, c: SignedClaim, prior: string, scope: string, now: Moment,
                           current: SignedTrustState, roots: map<string, Key>, minimum: int)
    : Option<(Verdict, Reason)>
  {
    match Preflight(c, prior, scope, now, current, roots, minimum)
    case None => None
    case Some((verdict, reason, found)) =>
      if verdict != Admissible || found.None? then Some((verdict, reason))
      else if !Revalidate(receipt, current.state, found.value.claimDigest, prior, scope)
              || receipt.snapshotDigest != found.value.snapshotDigest
      then Some((OnHold, TrustOrClaimChanged))
      else Some((Admissible, BoundPreflightValidNotCommitted))
  }

  predicate Admitted(c: SignedClaim, prior: string, scope: string, now: Moment, trust: SignedTrustState,
                     roots: map<string, Key>, minimum: int) {
    var p := Preflight(c, prior, scope, now, trust, roots, minimum);
    p.Some? && p.value.0 == Admissible
  }

  lemma {:induction false} LookupFindsEntry(entries: seq<(string, Key)>, name: string)
    ensures Lookup(entries, name).Some? ==> (name, Lookup(entries, name).value) in entries
  {
    if entries != [] { LookupFindsEntry(entries[1..], name); }
  }

  // An admitted claim is signed by a key that the root-signed snapshot itself binds to its
  // issuer, the issuer is mandated for the scope and not revoked, and the claim is the one
  // in force. The finding records all of it.
  lemma AdmissionIsGrounded(c: SignedClaim, prior: string, scope: string, now: Moment, trust: SignedTrustState,
                            roots: map<string, Key>, minimum: int)
    requires Admitted(c, prior, scope, now, trust, roots, minimum)
    ensures trust.signer in roots
      && trust.signature
           == Signature(roots[trust.signer], SnapshotBytes(Canonical(trust.state), multiset(trust.issuerKeys)))
    ensures trust.state.revision >= minimum
    ensures exists key ::
      (c.claim.issuer, key) in trust.issuerKeys && c.signature == Signature(key, ClaimBytes(c.claim))
    ensures (c.claim.issuer, scope) in trust.state.mandates && c.claim.issuer !in trust.state.revoked
    ensures c.claim.supersedes == prior && now.Aware? && Active(c.claim, now.utc)
    ensures Preflight(c, prior, scope, now, trust, roots, minimum).value.2 == Some(
      BoundFinding(trust.state.revision, Canonical(trust.state), trust.state.policyVersion, Some(c), prior, scope,
                   SnapshotOf(trust)))
  {
    LookupFindsEntry(trust.issuerKeys, c.claim.issuer);
    var standing := set m | m in trust.state.mandates;
    AdmissibleExactly([c.claim], prior, scope, standing, now);
    assert c.claim in [c.claim];
  }

  // The TRUST_SCOPE_REJECTED answer cannot occur: whatever passes the policy also binds.
  lemma ScopeRejectionUnreachable(c: SignedClaim, prior: string, scope: string, now: Moment, trust: SignedTrustState,
                                  roots: map<string, Key>, minimum: int)
    ensures var p := Preflight(c, prior, scope, now, trust, roots, minimum);
      p.Some? ==> p.value.1 != TrustScopeRejected
  {
    if VerifySnapshot(trust, roots, minimum) {
      var standing := set m | m in trust.state.mandates;
      AdmissibleExactly([c.claim], prior, scope, standing, now);
      assert c.claim in [c.claim];
    }
  }

  // A finding revalidates exactly when the claim is still admitted under the current
  // snapshot and nothing it was bound to has changed: the same signed claim, document and
  // scope, and a snapshot with the same contents.
  lemma RevalidationMeansUnchanged(c: SignedClaim, prior: string, scope: string, now: Moment, trust: SignedTrustState,
                                   roots: map<string, Key>, minimum: int,
                                   c': SignedClaim, prior': string, scope': string, now': Moment,
                                   current: SignedTrustState, roots': map<string, Key>, minimum': int)
    requires Admitted(c, prior, scope, now, trust, roots, minimum)
    ensures var receipt := Preflight(c, prior, scope, now, trust, roots, minimum).value.2.value;
      RevalidateBound(receipt, c', prior', scope', now', current, roots', minimum')
        == Some((Admissible, BoundPreflightValidNotCommitted))
      <==> && Admitted(c', prior', scope', now', current, roots', minimum')
           && c' == c && prior' == prior && scope' == scope
           && Canonical(current.state) == Canonical(trust.state)
           && multiset(current.issuerKeys) == multiset(trust.issuerKeys)
  {
    AdmissionIsGrounded(c, prior, scope, now, trust, roots, minimum);
    if Admitted(c', prior', scope', now', current, roots', minimum') {
      AdmissionIsGrounded(c', prior', scope', now', current, roots', minimum');
    }
  }
}
