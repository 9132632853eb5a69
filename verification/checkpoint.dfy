// The monotone trust high-water mark under compare-and-swap
// (tenir_governance/experimental/ep02_rotation.py, ep02_checkpoint_store.py, ep02_local_cas.py).
module Checkpoints {
  import opened Wrappers
  import opened Trust

  // The fingerprint is the hash of the snapshot's canonical bytes.
  datatype Checkpoint = Checkpoint(revision: int, fingerprint: Message)

  datatype Outcome =
    | UnverifiedOrRollback | SameRevisionEquivocation | RevisionRollback | Unchanged | Advanced
    | NotInitialized | UnverifiedInitialSnapshot | Bootstrapped

  type Roots = map<string, Key>

  function ValidateSuccessor(previous: Checkpoint, candidate: SignedTrustState, roots: Roots)
    : (r: (bool, Outcome, Option<Checkpoint>))
    ensures r.0 ==> r.2.Some?
  {
    if !VerifySnapshot(candidate, roots, previous.revision) then (false, UnverifiedOrRollback, None)
    else
      var (revision, digest) := (candidate.state.revision, SnapshotOf(candidate).value);
      if revision == previous.revision then
        if digest == previous.fingerprint then (true, Unchanged, Some(previous))
        else (false, SameRevisionEquivocation, None)
      else if revision < previous.revision then (false, RevisionRollback, None)
      else (true, Advanced, Some(Checkpoint(revision, digest)))
  }

  // The rule in one place: a successor is verified and either identical or strictly newer.
  // Verification already refuses older revisions, so REVISION_ROLLBACK never comes back.
  lemma SuccessorRule(previous: Checkpoint, candidate: SignedTrustState, roots: Roots)
    ensures var r := ValidateSuccessor(previous, candidate, roots);
      && r.1 != RevisionRollback
      && (r.0 <==> VerifySnapshot(candidate, roots, previous.revision)
                   && (candidate.state.revision == previous.revision ==>
                         SnapshotOf(candidate) == Some(previous.fingerprint)))
      && (r.0 ==> r.2 == Some(previous) || r.2.value.revision > previous.revision)
  {}

  // Where a durable write may fail: before or after the replacement of the file.
  datatype Fault = NoFault | BeforeWrite | AfterWrite

  function Written(stored: Option<Checkpoint>, next: Checkpoint, fault: Fault): Option<Checkpoint> {
    if fault == BeforeWrite then stored else Some(next)
  }

  datatype Swap = Applied | SwapUnchanged | Conflict | SwapNotInitialized

  datatype Call =
    | Advance(candidate: SignedTrustState, roots: Roots, bootstrap: bool, fault: Fault)
    | CompareAndSwap(expected: Checkpoint, candidate: SignedTrustState, roots: Roots, fault: Fault)

  // What a call would write, if anything.
  function Offer(stored: Option<Checkpoint>, call: Call): Option<Checkpoint> {
    if call.CompareAndSwap? && stored != Some(call.expected) then None
    else match stored
      case None =>
        if call.Advance? && call.bootstrap && VerifySnapshot(call.candidate, call.roots, 1)
        then Some(Checkpoint(call.candidate.state.revision, SnapshotOf(call.candidate).value)) else None
      case Some(previous) =>
        var r := ValidateSuccessor(previous, call.candidate, call.roots);
        if r.0 && r.1 != Unchanged then r.2 else None
  }

  function After(stored: Option<Checkpoint>, call: Call): Option<Checkpoint> {
    match Offer(stored, call)
    case None => stored
    case Some(next) => Written(stored, next, call.fault)
  }

  // The reply; None when the write raised.
  function AdvanceReply(stored: Option<Checkpoint>, call: Call): Option<(bool, Outcome)>
    requires call.Advance?
  {
    if Offer(stored, call).Some? && call.fault != NoFault then None
    else match stored
      case None =>
        Some(if !call.bootstrap then (false, NotInitialized)
             else if Offer(stored, call).None? then (false, UnverifiedInitialSnapshot) else (true, Bootstrapped))
      case Some(previous) =>
        var r := ValidateSuccessor(previous, call.candidate, call.roots);
        Some((r.0, r.1))
  }

  function SwapReply(stored: Option<Checkpoint>, call: Call): Option<(Swap, Option<Checkpoint>)>
    requires call.CompareAndSwap?
  {
    if Offer(stored, call).Some? then
      if call.fault != NoFault then None else Some((Applied, Offer(stored, call)))
    else if stored.None? then Some((SwapNotInitialized, None))
    else if stored.value == call.expected && ValidateSuccessor(stored.value, call.candidate, call.roots).0
    then Some((SwapUnchanged, stored))
    else Some((Conflict, stored))
  }

  class CheckpointStore {
    var stored: Option<Checkpoint>

    constructor ()
      ensures stored == None
    {
      stored := None;
    }

    method Get() returns (r: Option<Checkpoint>)
      ensures r == stored
    {
      r := stored;
    }

    method WriteLocked(current: Checkpoint, fault: Fault) returns (raised: bool)
      modifies this
      ensures stored == Written(old(stored), current, fault)
      ensures raised == (fault != NoFault)
    {
      if fault == BeforeWrite { return true; }
      stored := Some(current);
      raised := fault == AfterWrite;
    }

    method Advance(candidate: SignedTrustState, roots: Roots, bootstrap: bool, fault: Fault)
      returns (reply: Option<(bool, Outcome)>)
      modifies this
      ensures var call := Call.Advance(candidate, roots, bootstrap, fault);
        stored == After(old(stored), call) && reply == AdvanceReply(old(stored), call)
    {
      var reason: Outcome;
      var current: Checkpoint;
      if stored.None? {
        if !bootstrap { return Some((false, NotInitialized)); }
        if !VerifySnapshot(candidate, roots, 1) { return Some((false, UnverifiedInitialSnapshot)); }
        current := Checkpoint(candidate.state.revision, SnapshotOf(candidate).value);
        reason := Bootstrapped;
      } else {
        var r := ValidateSuccessor(stored.value, candidate, roots);
        reason := r.1;
        if !r.0 { return Some((false, reason)); }
        if reason == Unchanged { return Some((true, reason)); }
        current := r.2.value;
      }
      var raised := WriteLocked(current, fault);
      reply := if raised then None else Some((true, reason));
    }

    method CompareAndSwap(expected: Checkpoint, successor: SignedTrustState, roots: Roots, fault: Fault)
      returns (reply: Option<(Swap, Option<Checkpoint>)>)
      modifies this
      ensures var call := Call.CompareAndSwap(expected, successor, roots, fault);
        stored == After(old(stored), call) && reply == SwapReply(old(stored), call)
    {
      if stored.None? { return Some((SwapNotInitialized, None)); }
      if stored.value != expected { return Some((Conflict, stored)); }
      var r := ValidateSuccessor(stored.value, successor, roots);
      if !r.0 { return Some((Conflict, stored)); }
      if r.1 == Unchanged { return Some((SwapUnchanged, stored)); }
      var raised := WriteLocked(r.2.value, fault);
      reply := if raised then None else Some((Applied, r.2));
    }
  }

  // ---------------------------------------------------------------- whole histories

  // What the store held before, between and after a sequence of calls by any callers.
  ghost predicate History(stored: seq<Option<Checkpoint>>, calls: seq<Call>) {
    && |stored| == |calls| + 1
    && forall i :: 0 <= i < |calls| ==> StepAt(stored, calls, i)
  }

  ghost predicate StepAt(stored: seq<Option<Checkpoint>>, calls: seq<Call>, i: nat)
    requires i < |calls| && |stored| == |calls| + 1
  {
    stored[i + 1] == After(stored[i], calls[i])
  }

  // Later in time: never uninitialized again, never older, and a revision names one snapshot.
  predicate NotBefore(earlier: Option<Checkpoint>, later: Option<Checkpoint>) {
    earlier.Some? ==>
      && later.Some?
      && earlier.value.revision <= later.value.revision
      && (earlier.value.revision == later.value.revision ==> earlier == later)
  }

  lemma CallOnlyMovesForward(stored: Option<Checkpoint>, call: Call)
    ensures NotBefore(stored, After(stored, call))
  {}

  lemma {:induction false} RevisionsOnlyGrow(stored: seq<Option<Checkpoint>>, calls: seq<Call>, i: nat, j: nat)
    requires History(stored, calls) && i <= j < |stored|
    ensures NotBefore(stored[i], stored[j])
    decreases j
  {
    if i < j {
      RevisionsOnlyGrow(stored, calls, i, j - 1);
      assert StepAt(stored, calls, j - 1);
      CallOnlyMovesForward(stored[j - 1], calls[j - 1]);
    }
  }

  // Hence reading the same checkpoint twice means that it never changed in between.
  lemma EqualReadsMeanNoChange(stored: seq<Option<Checkpoint>>, calls: seq<Call>, i: nat, j: nat)
    requires History(stored, calls) && i <= j < |stored|
    requires stored[i].Some? && stored[i] == stored[j]
    ensures forall m :: i <= m <= j ==> stored[m] == stored[i]
  {
    forall m | i <= m <= j ensures stored[m] == stored[i] {
      RevisionsOnlyGrow(stored, calls, i, m);
      RevisionsOnlyGrow(stored, calls, m, j);
    }
  }

  // Of all swaps that expect the same checkpoint, at most one ever takes effect, and the
  // later ones are told the checkpoint that replaced it.
  lemma OneSwapPerExpectation(stored: seq<Option<Checkpoint>>, calls: seq<Call>, i: nat, j: nat)
    requires History(stored, calls) && i < j < |calls|
    requires calls[i].CompareAndSwap? && calls[j].CompareAndSwap? && calls[i].expected == calls[j].expected
    requires stored[i + 1] != stored[i]
    ensures stored[j + 1] == stored[j] && SwapReply(stored[j], calls[j]) == Some((Conflict, stored[j]))
    ensures stored[j].Some? && stored[j].value.revision > calls[j].expected.revision
  {
    assert StepAt(stored, calls, i) && StepAt(stored, calls, j);
    CallOnlyMovesForward(stored[i], calls[i]);
    RevisionsOnlyGrow(stored, calls, i + 1, j);
  }

  predicate Certifies(call: Call, c: Checkpoint) {
    && VerifySnapshot(call.candidate, call.roots, 1)
    && c == Checkpoint(call.candidate.state.revision, SnapshotOf(call.candidate).value)
  }

  // Whatever is stored was offered by some earlier call as a snapshot signed by one of
  // that call's roots.
  lemma {:induction false} StoredWasVerified(stored: seq<Option<Checkpoint>>, calls: seq<Call>, j: nat)
    requires History(stored, calls) && j < |stored| && stored[0].None? && stored[j].Some?
    ensures exists i :: 0 <= i < j && Certifies(calls[i], stored[j].value)
    decreases j
  {
    assert StepAt(stored, calls, j - 1);
    if stored[j] == stored[j - 1] {
      StoredWasVerified(stored, calls, j - 1);
    } else {
      assert Certifies(calls[j - 1], stored[j].value);
    }
  }

  // After a write whose outcome is unknown, asking again settles it: an advance is repeated
  // safely, and a swap is answered with the very checkpoint it tried to install.
  lemma RetrySettlesLostReply(stored: Option<Checkpoint>, call: Call)
    requires stored.Some? && Offer(stored, call).Some? && call.fault != NoFault
    ensures var (kept, again) := (After(stored, call), call.(fault := NoFault));
      && After(kept, again) == Offer(stored, call)
      && var late := call.fault == AfterWrite;
      && (call.Advance? ==> AdvanceReply(kept, again) == Some((true, if late then Unchanged else Advanced)))
      && (call.CompareAndSwap? ==>
            SwapReply(kept, again) == Some((if late then Conflict else Applied, Offer(stored, call))))
  {}
}
