# TENIR governance: protocol models and proofs

This project models the governed-operation protocol of the repository and proves what it
keeps over whole runs, under any number of workers, crashes, lost replies and restarts. To
verify: `dafny verify dfyconfig.toml` (Dafny 4.11).

What is modelled, file by file:

- `lifecycle.dfy`, `lattice.dfy`: the states of an operation with their legal transitions,
  and the lattice that composes the decisions of the two kernels.
- `settlement.dfy`, `settlement_safety.dfy`, `settlement_payload.dfy`,
  `settlement_convergence.dfy`, `settlement_progress.dfy`: the governor with a durable budget
  backend, as a transition system. A worker has a program counter in adjudicate, dispatch,
  confirm, fail, reconcile_unknown, resolve_hold, escalate_hold, authorize_exit or expiry; one
  step is one registry or backend call, and a worker may stop after any of them. The caller of
  a dispatch may change the mapping it passed at any time. The proof is by rely and guarantee:
  each step keeps what its worker knows, and disturbs no other worker.
- `local_budget.dfy`, `local_governor.dfy`: the governor without a backend. A class updates
  the registry and the resource counters in place, and each of its methods is proved to take
  exactly the step of a value-level specification, over which the budget is shown to be
  conserved.
- `trust.dfy`, `checkpoint.dfy`: signed trust snapshots, the evidence preflight, and the
  monotone checkpoint under compare-and-swap.
- `commit_records.dfy`, `commit_authority.dfy`, `commit_safety.dfy`, `commit_gate.dfy`: the
  Profile S commit authority as a class over two append-only tables, its guarantees over
  every run, and the governor's workers that bind a request, recover lost replies and claim
  the dispatch.
- `gated_settlement.dfy`: the settlement protocol and the Profile S gate run together on the
  same operations by the same workers. Either half of a joint run is a run of its own
  protocol, so the theorems of both combine.
- `scoring.dfy`: constraint geometry, the execution kernel and the scoring adapter, over the
  reals.
- `hash_chain.dfy`: the two hash-chained ledgers.
- `membrane_policy.dfy`, `trajectory.dfy`, `monitor.dfy`: the shared policy engine, the three
  ways of tracking a trajectory, and the R4 monitor with its reconstruction from the ledger.
- `hold_strategy.dfy`: composition-level holds and progressive unblock.
- `canonical_amount.dfy`: the canonical decimal form of an amount.

How a method is tied to its specification: the class methods state their new state through a
function on values (`AfterFail`, `Authorizing`, `AfterNext`, ...), and the lemmas are about
those functions and the runs built from them.

Signatures are tokens that verify only the message they were made for, and hashes are the
hashed values themselves, so they are collision-free by construction. Clocks, kernel verdicts,
provider answers, signature verdicts on control proofs and the points where a call is
interrupted are parameters that a run may choose freely.

Where a promised property does not hold of the code as written, a lemma says exactly when it
does:

- a payload that was not copied can change between the hash check at the dispatch claim and
  the call to the provider: always for an ungated operation, and for a gated one only when the
  call began before its key was registered (`SettlementPayload.ProviderPayloadExactly`,
  `SettlementPayload.UncopiedMappingCanChange`);
- with a backend, an operation with a positive amount and no resource is admitted and executed,
  and no continuation ever confirms it (`SettlementProgress.NewOperationCompletesExactly`);
- with a backend, an operation whose reservation was given back while it was escalated and that
  was approved again can be claimed but never reaches the provider
  (`SettlementProgress.ProviderReachableExactly`);
- without a backend the books balance over a run, every live operation owning its amount once,
  exactly when no call in it is reckless: no `expire_hold` on an ESCALATED operation that owns a
  reservation past its temporal bound, and no `enter_hold` on a CREATED operation with a budget
  that was not reserved. After such an expiry a dispatch can spend another operation's
  reservation (`LocalBudget.BudgetIsConserved`,
  `LocalBudget.ExpiredEscalationSpendsForeignReservation`);
- a scoring HOLD beside a membrane PASS composes to PASS (`Lattice.NeverBelowEitherKernel`);
- withholding `option_space` can turn a veto into a flag
  (`Scoring.OmittingOptionSpaceEscapes`);
- `authorize` records a REJECTED row for a request that names another authority, and a store
  holding such a row does not reopen (`CommitSafety.ReopensExactly`);
- `observe` updates the tracker before a policy refused by the shared engine makes it raise,
  so a rebuilt monitor differs from the running one (`Monitor.RebuiltEqualsLive`);
- the action the R4 monitor takes and the shared engine's decision in the same ledger entry
  disagree on an intended block in SHADOW_CRITICAL and on an alert alone in ENFORCE
  (`Monitor.JudgmentsAgreeExactly`);
- an empty composition never leaves fail-closed by progressive unblock
  (`HoldStrategy.ReopensWithTheLast`);
- an amount with more than 28 significant digits is rounded
  (`CanonicalAmount.ReadBackIsExact`).

Where the documentation and the code disagree, the code is followed: `authorize_exit` is
described as returning an approved operation to RESERVED, but it moves it to HOLD, from where
it has to be adjudicated again.

## Model

| member | source | states |
|---|---|---|
| Lifecycle.NoSecondDispatch | tenir_governance/operations/registry.py:153-164 | along any path of legal moves DISPATCHING is entered at most once: nothing past it leads back to a state that could dispatch |
| Lattice.AdmissionNeedsBothKernels | tenir_governance/composition/lattice.py:43-124 | a missing kernel answer never composes to PASS or FLAG |
| Lattice.NeverBelowEitherKernel | tenir_governance/composition/lattice.py:95-124 | the composition is at least as severe as both kernels, except exactly when a scoring HOLD meets a membrane that admits and no budget rule raises the FLAG |
| Lattice.ComposeIsJoin | tenir_governance/composition/lattice.py:65-124 | apart from a scoring HOLD the composition is the more severe of the two answers, with a FLAG raised to HOLD by a budget near its limit or unmeasured; one answer alone counts only when it vetoes |
| Lattice.ComposeIsMonotone | tenir_governance/composition/lattice.py:65-124 | worse kernel answers or utilization never compose to a milder decision, unless scoring answers HOLD |
| SettlementSafety.SettlementIsSafe | tenir_governance/composition/governor.py:1599-2822 | in every reachable state: FAILED has no outstanding or committed reservation, CONFIRMED with a positive amount has a committed one, the provider ran at most once, with the recorded amount and, if there is a budget, only after the claim, the commit and the persisted flag, the dispatch winner was admitted on both kernels, each backend effect happened at most once |
| SettlementSafety.TerminalBudgetIsForever | tenir_governance/composition/governor.py:2227-2461 | a CONFIRMED operation keeps its committed reservation and a FAILED one stays free of reservations for the rest of the run |
| SettlementSafety.RefundedIsNeverConfirmed | tenir_governance/composition/governor.py:2227-2461 | once the reservation was released or refunded no later answer, repetition or crash makes the operation CONFIRMED |
| SettlementSafety.IdentityIsFixed | tenir_governance/composition/governor.py:1997-1999 | resource, amount and payload of the record never change after registration, and the one provider call is made with the recorded amount, on an admission both kernels answered |
| SettlementPayload.ProviderPayloadExactly | tenir_governance/composition/governor.py:1956-2011 | between any won claim and its provider call in any run: the provider is handed the recorded payload exactly when the call had frozen a copy, which it does for a gated operation registered before it began, or when the caller's mapping still holds what it held at the claim |
| SettlementPayload.GatedPayloadIsDelivered | tenir_governance/composition/governor.py:1956-1967 | a gated operation dispatched by a call that read its record is always executed with its recorded payload |
| SettlementPayload.AnyPayloadCanBeDelivered | tenir_governance/composition/governor.py:1956-2011 | at any state of any run with an operation that can be dispatched by a call that makes no copy, the run has a continuation that hands the provider any other payload |
| SettlementPayload.UncopiedMappingCanChange | tenir_governance/composition/governor.py:1672-1684 | a reachable state in which the provider acted on a payload other than the recorded one, for an ungated operation and for a gated one whose call began before registration |
| SettlementSafety.QuarantineBlocksAdmission | tenir_governance/composition/governor.py:614-711 | while the quarantine mark is set no operation moves from CREATED to RESERVED or HOLD, from HOLD to RESERVED, or from RESERVED to DISPATCHING, wherever activation fell among calls in flight |
| SettlementConvergence.ReconcileConverges | tenir_governance/composition/governor.py:2227-2461 | one undisturbed reconciliation with a resolved answer ends in that answer's terminal state, with the budget compensated or committed once, exactly when the reservation does not already contradict the answer |
| SettlementConvergence.UndisturbedIsAHistory | tenir_governance/composition/governor.py:2227-2461 | the undisturbed continuation is one of the protocol's own step sequences |
| SettlementConvergence.RepeatConvergesLater | tenir_governance/composition/governor.py:2145-2461 | at any later moment of any run, whatever other workers did since: an operation once in flight has come to its end, or one undisturbed repeat with a resolved answer ends in that answer's terminal state, settled once, exactly when the reservation does not contradict it, and otherwise changes nothing |
| SettlementConvergence.RunContinuesToOutcome | tenir_governance/composition/governor.py:2145-2461 | every run that reaches an open, unlocked operation extends, by one call of an idle worker, to a run that ends in the outcome of a compatible answer |
| SettlementProgress.AdmissionReachesReserved | tenir_governance/composition/governor.py:614-753 | on admissible evidence outside quarantine an undisturbed adjudication of a new operation is a step sequence that ends RESERVED, with a budget on an outstanding reservation the registry knows |
| SettlementProgress.ClaimedDispatchIsFunded | tenir_governance/composition/governor.py:1845-1914 | an undisturbed claimed dispatch commits its reservation, persists the ownership and goes on to the provider exactly when the reservation is outstanding, and otherwise stops without a change |
| SettlementProgress.ConfirmConverges | tenir_governance/composition/governor.py:2605-2647 | undisturbed confirm confirms exactly an operation in flight whose amount is zero or whose reservation is outstanding or committed, which it then is, and otherwise changes nothing |
| SettlementProgress.FailConverges | tenir_governance/composition/governor.py:2665-2777 | undisturbed fail ends FAILED with the reservation given back exactly when that is legal, spent budget is refunded on the provider's word, and the operation is not in flight while still flagged as reserved; otherwise state and reservation stay |
| SettlementProgress.ConfirmationReachableExactly | tenir_governance/composition/governor.py:2605-2647 | at any state of any run, an unlocked operation in flight has a continuation to CONFIRMED, by whatever calls, exactly when confirm would confirm it now |
| SettlementProgress.EveryOperationCanFail | tenir_governance/composition/governor.py:2227-2777 | at any state of any run, an unlocked operation has a continuation to FAILED exactly when it is not CONFIRMED: nothing is ever stuck with its budget |
| SettlementProgress.ProviderReachableExactly | tenir_governance/composition/governor.py:1768-1914 | at any state of any run with a RESERVED operation that may be dispatched, the run has a continuation to a provider call on the recorded amount and payload and on committed budget exactly when there is no budget or its reservation is still outstanding |
| SettlementProgress.NewOperationExecutes | tenir_governance/composition/governor.py:614-2011 | every run with an idle worker outside quarantine goes on to register a new operation, admit it on both kernels and call the provider once for it, its budget committed before |
| SettlementProgress.NewOperationCompletesExactly | tenir_governance/composition/governor.py:2615-2617 | and it has a continuation to CONFIRMED exactly when a positive amount names its resource |
| LocalBudget.ApplyBalancesExactly | tenir_governance/composition/governor.py:810-880 | one call, an interrupted adjudication included, keeps balanced books balanced exactly when it is not reckless, which its caller can read off the record beforehand |
| LocalBudget.BudgetIsConserved | tenir_governance/composition/governor.py:862-880 | from balanced books a run keeps them balanced throughout exactly when none of its calls is reckless; balanced is, together: for every resource reserved equals the sum flagged reserved, consumed equals its start plus the sum flagged committed and their total is within capacity, and every live operation with a budget owns its amount exactly once in a pool that exists, as a reservation before its claim and as consumption after it, where one still CREATED may own a reservation or nothing and one FAILED owns nothing |
| LocalBudget.BooksAlwaysBalance | tenir_governance/objects/resource.py:17-63 | from empty books every run in which operations enter HOLD only through adjudicate keeps the books balanced throughout, in the same sense |
| LocalBudget.ApplyFollows | tenir_governance/composition/governor.py:2462-2566 | on balanced books every call that is not reckless either changes nothing or changes one operation and moves its pool by exactly the difference of what the operation owns |
| LocalBudget.DispatchNeverLosesReservation | tenir_governance/composition/governor.py:1778-1843 | after any run with no reckless call, dispatch of a RESERVED operation never finds its reservation gone: it stays RESERVED or becomes DISPATCHING with its amount committed |
| LocalBudget.DispatchOutcome | tenir_governance/composition/governor.py:1672-1843 | on balanced books a RESERVED operation is dispatched exactly on its own identity and payload outside quarantine, and its whole amount is then consumed |
| LocalBudget.FailureOutcome | tenir_governance/composition/governor.py:2778-2822 | on balanced books settling as FAILED succeeds wherever it is legal and makes the owned amount available again |
| LocalBudget.ReconcileOutcome | tenir_governance/composition/governor.py:2462-2566 | on balanced books reconciliation ends as the provider said, or leaves UNKNOWN |
| LocalBudget.HoldOutcome | tenir_governance/composition/governor.py:2880-3315 | on balanced books a HOLD leaves exactly as re-adjudication decides, and stays on a passage, resource, amount or payload other than the recorded one |
| LocalBudget.ExpiryBalanceExactly | tenir_governance/composition/governor.py:3486-3531 | after any run from empty books with no reckless call, expire_hold keeps them balanced exactly when it does not meet an ESCALATED operation that owns a reservation past its temporal bound |
| LocalBudget.ExpiredEscalationSpendsForeignReservation | tenir_governance/composition/governor.py:3362-3377 | a run from empty books, through an adjudication interrupted at its last transition and a hold entered with a bound, in which such an operation, approved again, is dispatched on another operation's reservation and the other fails at its own dispatch |
| LocalBudget.ConfirmedConsumesIffDispatched | tenir_governance/composition/governor.py:2605-2647 | after any run with no reckless call, a budgeted CONFIRMED operation has consumed its amount exactly when it was claimed for dispatch; otherwise it still holds a reservation |
| LocalGovernor.Resource.Reserve | tenir_governance/objects/resource.py:36-41 | reserves exactly when the available amount covers the request |
| LocalGovernor.Resource.Commit | tenir_governance/objects/resource.py:43-49 | moves the amount from reserved to consumed exactly when reserved covers it |
| LocalGovernor.Resource.Release | tenir_governance/objects/resource.py:51-53 | lowers reserved by the amount, not below zero |
| LocalGovernor.Resource.Refund | tenir_governance/objects/resource.py:55-63 | lowers consumed by the amount, not below zero |
| LocalGovernor.Governor.TransitionTo | tenir_governance/operations/registry.py:835-1004 | a compare-and-set on the legal table that refuses RESERVED and DISPATCHING under quarantine and changes nothing else |
| LocalGovernor.Governor.Adjudicate | tenir_governance/composition/governor.py:363-787 | takes the specified adjudication step, completed or interrupted before or after its last effect; it answers PASS or FLAG exactly when a new operation ends up RESERVED |
| LocalGovernor.Governor.Settle | tenir_governance/composition/governor.py:614-787 | quarantine, reservation and the transition out of CREATED after the kernels have been composed, and what an interruption leaves |
| LocalGovernor.Governor.ReserveBudget | tenir_governance/composition/governor.py:810-880 | reserves and flags the budget exactly when the resource exists and covers the amount |
| LocalGovernor.Governor.Dispatch | tenir_governance/composition/governor.py:1654-1843 | takes the specified dispatch step; it succeeds exactly when a RESERVED operation becomes DISPATCHING |
| LocalGovernor.Governor.SpendClaimed | tenir_governance/composition/governor.py:1778-1843 | after the claim, commits the budget or fails the operation when the pool does not hold it |
| LocalGovernor.Governor.Confirm | tenir_governance/composition/governor.py:2591-2647 | confirms exactly the operations in DISPATCHING or UNKNOWN |
| LocalGovernor.Governor.SettleFailed | tenir_governance/composition/governor.py:2778-2822 | releases or refunds what the operation owns and fails it, or changes nothing when the pool does not cover it |
| LocalGovernor.Governor.Fail | tenir_governance/composition/governor.py:2649-2822 | takes the specified failure step, refusing a caller whose resource or amount contradicts the record |
| LocalGovernor.Governor.ReconcileUnknown | tenir_governance/composition/governor.py:2462-2566 | takes the specified reconciliation step; a success means the terminal state of the answer |
| LocalGovernor.Governor.EnterHold | tenir_governance/operations/hold.py:75-134 | moves exactly a CREATED operation to HOLD, with a temporal bound when a positive one is given |
| LocalGovernor.Governor.ResolveHold | tenir_governance/composition/governor.py:2880-3315 | refuses a passage, resource, amount or payload other than the recorded one, and otherwise re-adjudicates a HOLD: RESERVED on admission, FAILED with the reservation released on a veto, unchanged if not |
| LocalGovernor.Governor.VetoHeld | tenir_governance/composition/governor.py:3246-3283 | the veto branch: fails the HOLD and gives its reservation back |
| LocalGovernor.Governor.ReleaseHoldBudget | tenir_governance/composition/governor.py:3319-3377 | gives the reservation back before a terminal transition, or reports an error and changes nothing |
| LocalGovernor.Governor.AuthorizeExit | tenir_governance/composition/governor.py:3410-3484 | an approved exit moves ESCALATED to HOLD unless quarantined, a refused one releases and fails |
| LocalGovernor.Governor.ExpireHold | tenir_governance/composition/governor.py:3486-3531 | takes the specified expiry step; it reports success exactly when a HOLD became FAILED |
| LocalGovernor.Governor.EscalateHold | tenir_governance/composition/governor.py:3379-3408 | moves exactly a HOLD to ESCALATED |
| LocalGovernor.Governor.ExpireEscalated | tenir_governance/composition/governor.py:3533-3554 | moves exactly an ESCALATED operation to UNKNOWN |
| LocalGovernor.Governor.MarkUnknown | tenir_governance/composition/governor.py:2824-2827 | moves to UNKNOWN exactly when that is legal |
| Trust.AdmissibleExactly | tenir_governance/experimental/ep01_policy.py:21-43 | ADMISSIBLE exactly when all claims are complete, uniquely identified, mandated and replace the prior document, and exactly one is in force |
| Trust.AdmissionIsGrounded | tenir_governance/experimental/ep02_signed_trust.py:206-237 | an admitted claim is signed by a key the root-signed snapshot binds to its issuer, who is mandated and not revoked, and the finding records all of it |
| Trust.ScopeRejectionUnreachable | tenir_governance/experimental/ep02_signed_trust.py:222-237 | whatever passes the policy also binds: TRUST_SCOPE_REJECTED is never answered |
| Trust.RevalidationMeansUnchanged | tenir_governance/experimental/ep02_signed_trust.py:240-255 | a finding revalidates exactly when the claim is still admitted and claim, document, scope and snapshot contents are the ones it was bound to |
| Checkpoints.SuccessorRule | tenir_governance/experimental/ep02_rotation.py:21-40 | a successor is accepted exactly when it verifies and is identical or strictly newer; REVISION_ROLLBACK is never answered |
| Checkpoints.CheckpointStore.Advance | tenir_governance/experimental/ep02_checkpoint_store.py:49-80 | new state and reply of advance, with a write that may fail before or after it takes effect |
| Checkpoints.CheckpointStore.CompareAndSwap | tenir_governance/experimental/ep02_local_cas.py:29-53 | new state and reply of compare_and_swap, with a write that may fail before or after it takes effect |
| Checkpoints.RevisionsOnlyGrow | tenir_governance/experimental/ep02_checkpoint_store.py:49-80 | over any history of calls the checkpoint is never uninitialized again, never older, and no revision carries two fingerprints |
| Checkpoints.EqualReadsMeanNoChange | tenir_governance/experimental/ep02_rotation.py:33-40 | reading the same checkpoint twice means it never changed in between |
| Checkpoints.OneSwapPerExpectation | tenir_governance/experimental/ep02_local_cas.py:29-53 | of all swaps expecting one checkpoint at most one takes effect, and every later one is told CONFLICT with the newer checkpoint |
| Checkpoints.StoredWasVerified | tenir_governance/experimental/ep02_checkpoint_store.py:55-77 | whatever is stored was offered earlier as a snapshot signed by one of that call's roots |
| Checkpoints.RetrySettlesLostReply | tenir_governance/experimental/ep02_local_cas.py:29-53 | after a write of unknown outcome, asking again leaves the offered checkpoint stored, and the reply tells which case it was |
| CommitAuthority.ProfileSCommitAuthority.NextAuthSequence | tenir_governance/experimental/ep02_commit_authorization.py:988-990 | one more than the largest recorded sequence |
| CommitAuthority.ProfileSCommitAuthority.Authorize | tenir_governance/experimental/ep02_commit_authorization.py:961-1024 | new tables and reply of authorize for every request, evidence and point of interruption |
| CommitAuthority.ProfileSCommitAuthority.Consume | tenir_governance/experimental/ep02_commit_authorization.py:1101-1195 | new tables and reply of consume for every receipt, claim and point of interruption |
| CommitAuthority.ProfileSCommitAuthority.LookupAuthorization | tenir_governance/experimental/ep02_commit_authorization.py:1077-1099 | the recorded authorization of the request id, or a refusal of different context |
| CommitAuthority.ProfileSCommitAuthority.LookupConsumption | tenir_governance/experimental/ep02_commit_authorization.py:1197-1219 | the recorded consumption of the request id, or a refusal of different context |
| CommitAuthority.ProfileSCommitAuthority.ValidateRows | tenir_governance/experimental/ep02_commit_authorization.py:836-908 | accepts exactly when every authorization row and every consumption row against it is well formed and verifies |
| CommitSafety.EveryStoreIsSound | tenir_governance/experimental/ep02_commit_authorization.py:961-1195 | in every reachable store both tables are numbered from 1, every consumption follows a recorded authorization that names this authority, and no request or claim is consumed twice |
| CommitSafety.RecordedAuthorizationStands | tenir_governance/experimental/ep02_commit_authorization.py:967-981 | once a request is recorded every later authorize or lookup answers with the first body and signature, or refuses different context, and adds nothing |
| CommitSafety.RecordedConsumptionStands | tenir_governance/experimental/ep02_commit_authorization.py:1127-1141 | the same for a recorded consumption, where another claim is refused |
| CommitSafety.RetryRecoversAuthorization | tenir_governance/experimental/ep02_commit_authorization.py:1014-1022 | an authorization interrupted anywhere and repeated yields the receipt the first call would have returned if its row was committed, and a fresh evaluation if not |
| CommitSafety.RetryRecoversConsumption | tenir_governance/experimental/ep02_commit_authorization.py:1185-1193 | the same for an interrupted consumption |
| CommitSafety.ConsumedMeansTrustUnchanged | tenir_governance/experimental/ep02_commit_authorization.py:1143-1155 | CONSUMED means the trust checkpoint was the one named by the binding at every moment from authorization to consumption |
| CommitSafety.ConsumedExactlyWhenUnchanged | tenir_governance/experimental/ep02_commit_authorization.py:1143-1155 | of an AUTHORIZED request the consumption is CONSUMED exactly when the checkpoint stood still from authorization to consumption |
| CommitSafety.ConsumedHasWindow | tenir_governance/experimental/ep02_commit_authorization.py:1143-1155 | from a CONSUMED row alone: the run has a step that recorded its authorization and a later one that recorded it, and at every moment from before the one to after the other the store held the checkpoint the request names |
| CommitSafety.OneConsumptionPerRequestAndClaim | tenir_governance/experimental/ep02_commit_authorization.py:715-726 | over a whole run two consumptions of one request or under one claim are the same row |
| CommitSafety.AuthorizedExactly | tenir_governance/experimental/ep02_commit_authorization.py:1026-1075 | AUTHORIZED exactly when the binding names this authority and the current checkpoint and the evidence is the admitted finding for the bound claim under the current snapshot |
| CommitSafety.ReopensExactly | tenir_governance/experimental/ep02_commit_authorization.py:836-908 | a sound store passes the validation done on reopening exactly when every recorded request names this authority |
| CommitSafety.ReachableStoresReopen | tenir_governance/experimental/ep02_commit_authorization.py:755-794 | every store reached by calls that name this authority reopens, with both tables numbered 1 to n |
| CommitSafety.ForeignRequestBlocksReopening | tenir_governance/experimental/ep02_commit_authorization.py:1026-1033 | a well-formed request naming another authority is recorded as REJECTED and the store never reopens again |
| CommitGate.DoKeepsInv | tenir_governance/composition/governor.py:939-1290 | every registry or authority call of any worker keeps the gate's invariant, loses no row and changes no value already recorded |
| CommitGate.GatedDispatchIsAuthorized | tenir_governance/composition/governor.py:1259-1290 | a gated operation is claimed for dispatch only with an AUTHORIZED and a CONSUMED row for a request that repeats its recorded fields, under its own claim and at one trust checkpoint |
| CommitGate.TrustStoodStill | tenir_governance/composition/governor.py:1259-1290 | behind a claimed gated operation lie an event that recorded the authorization and a later one that recorded the consumption, and at every moment in between the store held the very checkpoint the request names |
| CommitGate.NoSharedConsumption | tenir_governance/operations/registry.py:1070-1190 | the consumptions of two operations differ in request, claim and sequence |
| CommitGate.LostConsumptionIsRecovered | tenir_governance/composition/governor.py:1166-1192 | from any reachable state one undisturbed pass by any worker turns a recorded but unnoticed consumption into a claimed dispatch, with that very receipt |
| GatedSettlement.BothReachable | tenir_governance/composition/governor.py:1548-1652 | in a joint run of the settlement protocol and the gate either half is a reachable state of its own protocol |
| GatedSettlement.ClaimIsAuthorized | tenir_governance/composition/governor.py:1654-1762 | the step that wins a dispatch claim starts from an admitted RESERVED operation outside quarantine, and for a gated one the AUTHORIZED and CONSUMED rows for its recorded resource, amount and payload are already in the authority's tables |
| GatedSettlement.GatedEffectIsAuthorized | tenir_governance/composition/governor.py:1916-2011 | once the provider has been called for a gated operation, it was called once, both rows are on record, its amount is the authorized one, its payload too if the call read the record at its start, its reservation was committed before, and both kernels admitted it |
| GatedSettlement.GatedEffectTimeline | tenir_governance/composition/governor.py:1548-2011 | the order of events behind a gated provider call: its authorization was recorded, later its consumption, later its claim was won outside quarantine with the provider not yet called, and from before the first to after the second the trust checkpoint was the one the request names at every moment |
| GatedSettlement.OneEffectPerConsumption | tenir_governance/operations/registry.py:1070-1190 | two gated operations with an external effect rest on consumptions that differ in request, claim and sequence, so one consumption is behind at most one provider call |
| GatedSettlement.ClaimIsWonExactly | tenir_governance/composition/governor.py:1706-1762 | in every reachable state a worker holding the guard and checking the gate wins the claim exactly when the consumption is valid, quarantine is off, the operation is RESERVED and the payload is the recorded one; the registry's second check never refuses what passed |
| Scoring.MarginTest | tenir_kernel/geometry.py:166-177 | the signed distance to a facet is below the tolerance exactly when the test without the square root holds |
| Scoring.LeastMargin | tenir_kernel/geometry.py:183 | the least margin of the facets that have one, and none when no facet could be measured |
| Scoring.EvaluateGeometry | tenir_kernel/geometry.py:119-188 | one hard violation for an unknown geometry; refusal of a point outside the unit cube; otherwise the signed margin of every facet, their minimum, and the hard and soft violations in facet order, feasible exactly without a hard one |
| Scoring.NoViolationMeansEveryFacet | tenir_kernel/geometry.py:149-184 | a violation list is empty exactly when no facet is violated |
| Scoring.AdjudicateKernel | tenir_kernel/kernel.py:49-142 | HARD_VETO, FLAG or PASS by the emptiness of the collected reasons, refusal of inputs outside the unit interval, and every hard gate among the reported reasons |
| Scoring.AdjudicateScoring | tenir_governance/composition/governor.py:182-290 | the adapter hands the kernel exactly the gates and coordinates specified |
| Scoring.AnswersFlagOrVeto | tenir_governance/composition/governor.py:165-178 | the adapter answers exactly on in-range inputs, and then only FLAG or HARD_VETO |
| Scoring.VetoExactly | tenir_governance/composition/governor.py:199-260 | HARD_VETO exactly on the listed breaches of score, option space, missing evidence and hard facets |
| Scoring.WorseInputsNeverMilder | tenir_governance/composition/governor.py:182-290 | lowering or losing a required measurement, or raising pressure, velocity or materiality, never lifts a veto |
| Scoring.WorseNeverComposesMilder | tenir_governance/composition/lattice.py:65-124 | making any measurement, the membrane verdict or the utilization worse never makes the composed decision milder |
| Scoring.OmittingOptionSpaceEscapes | tenir_governance/composition/governor.py:215-224 | withholding the option space turns a veto into a flag exactly when it was the only breach |
| HashChain.Walk | tenir_governance/composition/lattice.py:200-221 | the walk accepts exactly the verified chains and returns their last hash |
| HashChain.Ledger.Append | tenir_governance/composition/lattice.py:161-198 | appends one linked entry, keeps the chain verified and returns the new last hash |
| HashChain.Ledger.VerifyChain | tenir_governance/composition/lattice.py:200-221 | true exactly for a verified chain |
| HashChain.FileLedger.Append | r4/tenir_v4_test/ledger.py:91-106 | extends a verified file from what is on it, whichever writer wrote last, and raises without a change on a broken one |
| HashChain.OpenLedger | r4/tenir_v4_test/ledger.py:33-37 | opening succeeds exactly on a verified file and recovers its last hash |
| HashChain.NextVerifies | r4/tenir_v4_test/ledger.py:47-52 | a chain extended by one computed entry verifies |
| HashChain.TamperEvidence | r4/tenir_v4_test/ledger.py:140-168 | beside a verified chain another verifies with the same last hash exactly when it has the same length and the same hashed fields everywhere |
| HashChain.OnlyTruncationIsSilent | r4/tenir_v4_test/ledger.py:140-168 | removing one entry leaves a verified chain exactly when it was the last entry |
| MembranePolicy.ConversionSucceedsExactly | r4/tenir_v4_test/models.py:137-169 | a valid bundle converts to a valid engine exactly when its version is not blank and its derivative floors are not positive |
| MembranePolicy.EvaluateMembrane | tenir_governance/policy_engine.py:162-236 | the membrane decision and flags by the emptiness of the two reason lists |
| Trajectory.TrajectoryKernel.Compute | r5_wired/core/trajectory.py:39-62 | the reading of the whole history, which grows by one |
| Trajectory.TrajectoryTracker.Slide | r4/tenir_v4_test/trajectory.py:34-43 | both bounded windows advance and give the two derivatives |
| Trajectory.TrajectoryTracker.Update | r4/tenir_v4_test/trajectory.py:31-99 | refuses a bad event without a change; otherwise advances the windows and reports reading, alert and block |
| Trajectory.TrackerRemembersTail | r4/tenir_v4_test/trajectory.py:25-47 | for every event sequence and any window of at least 2 the two windows hold the tail of the whole history and of its differences |
| Trajectory.TrackerReadsWholeHistory | r5_wired/core/trajectory.py:39-55 | and every reading equals the one the unbounded history gives |
| Trajectory.WindowOfOneIsBlind | r4/tenir_v4_test/trajectory.py:25-47 | with a window of 1 every reading is that of a standstill, right exactly where the whole history shows no movement |
| Trajectory.TrackerAgreesWithEngine | tenir_governance/policy_engine.py:183-218 | the engine reports the tracker's alert and block flags exactly when the mode is not SHADOW_OFF or neither flag is set |
| Trajectory.GovernanceClient.Adjudicate | tenir_governance/sdk.py:221-245 | the popped history gives the reading of everything ever seen |
| Monitor.OpenMonitor | r4/tenir_v4_test/controller.py:19-38 | opening succeeds exactly for a valid policy and a verified, replayable ledger, and gives the replayed state |
| Monitor.TenirMonitor.ReplayLedger | r4/tenir_v4_test/controller.py:40-77 | the replay loop computes the specified replay of all entries, and raises exactly when that is undefined |
| Monitor.TenirMonitor.Observe | r4/tenir_v4_test/controller.py:149-201 | new state and ledger of observe, with the action, the trajectory and the shared engine's decision in the entry, including the tracker update that precedes a raise |
| Monitor.JudgmentsAgreeExactly | r4/tenir_v4_test/controller.py:128-147 | the local action stops an event exactly when the shared engine blocks it, except exactly for an intended block in SHADOW_CRITICAL and an alert alone in ENFORCE |
| Monitor.TenirMonitor.Transition | r4/tenir_v4_test/controller.py:95-126 | an authorized transition changes the mode, spends the nonce and is recorded; a denied one is only recorded |
| Monitor.RebuiltEqualsLive | r4/tenir_v4_test/controller.py:40-77 | after any run of observations, transitions and restarts the rebuilt monitor equals the running one exactly when no valid event was observed since the last restart under a policy the shared engine refuses |
| Monitor.PositiveFloorDiverges | r4/tenir_v4_test/controller.py:149-178 | a concrete policy and event for which they differ |
| Monitor.NonceUsedOnce | r4/tenir_v4_test/controller.py:95-126 | across any run and restarts each nonce appears in at most one recorded transition |
| HoldStrategy.SortSorts | tenir_governance/composition/hold_strategy.py:186-187 | the priority order lists everything once, by non-decreasing priority value |
| HoldStrategy.SortIsStable | tenir_governance/composition/hold_strategy.py:327-330 | TAUs of equal priority keep their registration order |
| HoldStrategy.CompositionHoldManager.Resolve | tenir_governance/composition/hold_strategy.py:159-294 | new state and report of each strategy; one that does not apply to the conflict changes nothing |
| HoldStrategy.StrategyHolds | tenir_governance/composition/hold_strategy.py:189-285 | which TAUs each strategy leaves held, that everything reported held or released is so, and that only the collective strategy fails closed |
| HoldStrategy.WinnerIsFirst | tenir_governance/composition/hold_strategy.py:189-229 | the one TAU let through has the least priority value |
| HoldStrategy.CompositionHoldManager.EnterFailClosed | tenir_governance/composition/hold_strategy.py:296-312 | every TAU is held and the composition is closed |
| HoldStrategy.CompositionHoldManager.EnableProgressiveUnblock | tenir_governance/composition/hold_strategy.py:314-330 | the unblock order is the stable priority order and starts at its head |
| HoldStrategy.CompositionHoldManager.ProgressiveUnblockNext | tenir_governance/composition/hold_strategy.py:332-379 | releases exactly the next TAU of the order when verified, and reopens the composition with the last |
| HoldStrategy.ProgressiveUnblock | tenir_governance/composition/hold_strategy.py:332-379 | after any calls as many TAUs are released as calls were verified, exactly the first of the order; the others are held and fail-closed stands until the last |
| HoldStrategy.ReleasedByPriority | tenir_governance/composition/hold_strategy.py:296-379 | a TAU is held exactly when it is not yet in the released prefix, and no held TAU has higher priority than a released one |
| HoldStrategy.ReopensWithTheLast | tenir_governance/composition/hold_strategy.py:365-368 | fail-closed clears exactly when there is a TAU and as many verified calls as TAUs were made |
| CanonicalAmount.RefusedExactly | tenir_governance/experimental/ep02_commit_authorization.py:280-297 | an amount is refused exactly when it is no number, negative, or longer than 128 characters in plain form |
| CanonicalAmount.ReadBackIsExact | tenir_governance/experimental/ep02_commit_authorization.py:280-297 | the canonical text reads back as the same number exactly when the amount has at most 28 significant digits |
| CanonicalAmount.Idempotent | tenir_governance/experimental/ep02_commit_authorization.py:280-297 | canonicalizing a canonical text changes nothing |
| CanonicalAmount.EqualTextsIffEqualNumbers | tenir_governance/experimental/ep02_commit_authorization.py:280-297 | up to 28 significant digits texts are equal exactly for equal numbers |
| CanonicalAmount.NothingToStrip | tenir_governance/experimental/ep02_commit_authorization.py:292-294 | the two rstrip calls never remove anything from a normalized number |
| CanonicalAmount.LongAmountsCollide | tenir_governance/experimental/ep02_commit_authorization.py:280-297 | two different numbers of 29 digits share one text |

## Left out

- SQLite, write-ahead logging, file locks, fsync, temporary files and JSON text: durable steps are atomic, with the points of interruption made explicit.
- Ed25519 and SHA-256 themselves, and the width of keys, signatures and digests beyond the checks the code makes on them.
- Clocks, expiry durations and timestamps: expiry is an event that may or may not happen. In `local_budget.dfy` a temporal bound is a number compared with a given time.
- The provider's internals: its call may answer, fail, time out or raise.
- A provider call in one process racing with a reconciliation in another: the marker for active calls exists once per process, and no claim is made about such a race.
- The backend's UNKNOWN reservation state, its own reconcile call, and idempotency of `reserve` under an identifier other than the key.
- Operations put into HOLD other than by `adjudicate` in the settlement model; the local model has `enter_hold` as a call of its own.
- Floating point: amounts, scores and derivatives are reals; the rounding of reported values to 6 or 8 digits is dropped.
- LocalGovernor.Governor: each method is one fault-free atomic step; faults and interleavings are the subject of the settlement model.
- GatedSettlement.GatedEffectIsAuthorized: the derivation of a request's amount text and payload digest from the record is a parameter, fixed at registration.
- SettlementSafety.SettlementIsSafe: post-execution assessment, `recover` and `resume_existing` only read or repeat modelled calls and have no steps of their own.
- CommitAuthority.ProfileSCommitAuthority: provisioning, the schema guards and the comparison of the stored profile on connection are not modelled; the tables start empty. The byte limit on an encoded request is dropped.
- CommitGate.DoKeepsInv: the bounded list of gate events and the status texts kept for operators are not modelled.
- Trust.AdmissionIsGrounded: the legacy preflight with unbound issuer keys, disabled by default, is not modelled.
- Scoring.EvaluateGeometry: the square roots of the facet norms are given with the policy, and a facet with a zero normal, where the source divides by zero, is excluded.
- HashChain.Ledger: entries are values; a caller that keeps and mutates a dictionary it appended is not modelled.
- Monitor.RebuiltEqualsLive: a mode given to the constructor overrides the replayed one and is left out, as are ledger writes that fail.
- Trajectory.GovernanceClient: only the bounded history of the SDK client is modelled, not its ledger or labels.
- CanonicalAmount.ReadBackIsExact: exponents outside the decimal context's range, where normalizing overflows or underflows, are not modelled.
- Rationale strings, except where the emptiness of a list of reasons decides.
- The R5 servers, graph and socket adapters, command lines, demonstrations, nomenclature tables, copy lint, regression corpus, deployment checks, label migration, pilot scoring, tau-inversion reporting and the schema adapter.
