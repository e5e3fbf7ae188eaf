# Panella: approval, forget, ranking and bookkeeping, modelled and proved in Dafny

Panella is a memory service. Candidates wait in an approval queue; an approved candidate is
written by a finalizer worker into a content-addressed store, on the strength of a receipt in a
hash-chained audit log; a forget (`hard_delete`) removes a drawer from the store and the queue.
This project models that protocol and the stateful cores around it, and proves what they promise
over every input, every interleaving and every run.

`dafny verify dfyconfig.toml` checks everything.

## What is modelled

| files | what they hold |
|---|---|
| AuditChain | the append-only hash-chained log: append, the full walk, the bounded walk of the receipt gate |
| Queue, QueueLaws | one function for each database transaction of the queue, what every transaction keeps, and when each guard opens |
| Outbox | the queue database as a class; each method is one transaction, proved to be its function |
| Protocol, ProtocolFrames | the state machine: every transaction and every store call is one step; workers may stall, crash, lose their lease or be overtaken between any two, and a POST that timed out may land at any later time |
| ReceiptGate, Invariants, Orphans, Released, Refusals, Safety, Necessity | the theorems over runs, the exact conditions under which a step dooms a run, and concrete runs that show which assumptions are needed |
| Execution, Programs, ForgetProgram, ApprovalService | the calls as the code writes them (finalize, redrive, hard delete, approve, reject) with arbitrary steps of other actors in between: each is proved to be a run of the machine, when it gives which answer, and what it achieves when nobody disturbs it |
| Migration | the audit-receipt migration, among other actors and across restarts |
| Cluster, Ranking | union-find with path halving against graph connectivity; the reader++ order and the stratified rerank |
| SlidingWindow, AtomSet | the rate limiter, the write quota, and the atom-set replacement behind it |
| TagLock | concurrent tag transitions on one row, with PUTs that may land late |
| BridgeHealth | alert watermarks over whole histories of runs |
| GridSelect | exact-rational grid selection |

Time is an integer in the protocol (the lease is 300) and a real in the windows. The store is a map
from content hash to a row; the row hash, the candidate fingerprint, the content hash and the
readings of a candidate are arbitrary deterministic functions in a configuration record. Nothing
assumes that a hash is free of collisions: tamper evidence is stated as agreement or a collision.

A run is *careful* (`Protocol.Careful`) when nobody edits the queue by hand; no finalize call is
refused on a row that a forget holds; a store write that lands but raises, a POST that lands after
it timed out, and a worker that dies holding a marked row, leave a row that something else answers
for (an approval no running forget is past sweeping, a pending cleanup, another worker in flight);
and no purge takes an approval its forget never claimed while that approval alone answers for a
marked row. Each clause is a check on the state before a step. For the write, the late landing, the
crash and the purge the clause is exact: a state of a careful run is *doomed* (`Orphans.Doomed`)
when some careful continuation ends in an orphan, and the step leads there if and only if the clause
forbids it. The clause about refused calls is wider than orphans need, because a forget that stopped
may be retried and must find its rows held. As far as orphans go, a refused call on a held row dooms
the run if and only if the forget is still running and the approval can still be written: a payload
can be built from its bytes, no cleanup of its store id is pending, and its row can still be brought
to pass the gates (`Refusals.RefusalDoomsIff`, of every refused call on a held row). For a receipt
that the log holds, or none, the last part means that provenance is right or missing, and so is the
receipt (`Refusals.RedeemableIff`). `Inv` and its parts hold in every careful run from an empty queue
(`Invariants.InvHolds`), so the theorems that start from them cover all of these runs; receipt-gated
durability holds over every run whatever.

## What the proofs found

- A store write may raise after it has landed, because of a timeout for instance. The call catches
  the exception (panella/approval_finalizer.py:367-369), marks the row failed if it is still its
  own, and never looks at the store again. If a forget has swept or purged the approval meanwhile,
  the durable row is orphaned with nobody crashing (`Necessity.LandingErrorStrands`).
  `Orphans.LandingErrorDoomsIff` says exactly when.
- The store client sends a POST again when it times out (panella/panella_adapter.py:285-317), so an
  attempt nobody waits for may land after its call has failed, recorded or died. When a forget has
  purged the approval by then, the row is an orphan though every call ended in good order
  (`Necessity.LateLandingStrands`); `Orphans.LateLandingDoomsIff` says exactly when. While some
  worker owns the claim, no landing for that approval does harm (`Orphans.OwnerIsSafe`).
- A write inside the lease is not enough for crash safety: an older, overtaken worker may
  force-record the approval, after which a forget may claim, sweep and purge it, all inside the
  lease of the worker that writes next (`Necessity.LeaseIsNotEnough`). A crash can also be fatal
  before anything is orphaned, when a forget has swept the approval but not yet purged it.
  `Orphans.CrashDoomsIff` says exactly which crash leads to an orphan at once or later; the crash of
  a worker that still owns its claim never does (`Orphans.OwnerIsSafe`).
- The purge scans again (panella/client.py:1160), so it can take an approval its forget did not
  claim, for instance when a worker records a store id between claim and purge
  (`Necessity.PurgeRescansTooMuch`). It orphans a row exactly when that approval has a marked row
  that is neither pending nor in flight (`Orphans.PurgeOrphansIff`); taking a candidate that was
  never written is harmless.
- The two refusal updates (panella/approval_finalizer.py:281-292 and 304-313) guard only against
  `finalized`, so a refused finalize call overwrites `rtbf_deleting`. It does so if and only if a
  gate refuses the row (`Safety.FinalizeOvertakesForgetIffRefused`), and one such step ends in an
  orphan (`Necessity.RefusalRevivesForgottenRow`). A row without a receipt is as much at risk as one
  behind an unreadable log; a row with the wrong provenance or a bad receipt is revived to no effect,
  as no worker will ever write for it (`Refusals.RefusalDoomsIff`). Rows that pass the gates are only
  refused when the log cannot be read (`Safety.ReadableForgetWins`).
- A tag PUT that timed out may land after its call has sent it again, moved on, or released the lock,
  and take off the tag of a verified call, or be overwritten by a call that had read the row before
  (`TagLock.LateLandingLosesATag`, `TagLock.LandingInBetweenIsLost`). So the lock alone does not
  linearize. A landing breaks linearizability, at once or at the next PUT, if and only if its
  snapshot and the row disagree on a tag its operation does not set or on a `valid_to` it would write,
  or the row it leaves disagrees that way with the snapshot of a call about to PUT
  (`TagLock.LandingBreaksIff`). `TagLock.Linearizable` holds of every run without such landings; that
  no tag is lost asks for less (`TagLock.LandingLosesIff`).
- The single-pass sidecar scan is closed only because each event has one approval row
  (`Outbox.SharedEventBreaksTheSinglePass`); every transaction keeps that.
- The overflow predicate (eval/goldsets/resolver_blocking_diag.py:566) has no guard on the baseline
  denominator and passes everything against an empty baseline
  (`GridSelect.OverflowIsRationalIffMeasured`).
- A wing whose last write is at or before time 0 is never reported (`BridgeHealth.UnreportedWingFires`).
  A delivered alert is delivered again exactly when the run that delivered it died before marking it
  (`BridgeHealth.OutageRepeatsIffDied`, `BridgeHealth.StaleRepeatsIffDied`), and surviving runs
  deliver each write at most once exactly when the staleness threshold is not negative
  (`BridgeHealth.OneDeliveryPerWriteIff`).

## Model

| member | source | states |
|---|---|---|
| AuditChain.AuditLog.Write | panella/audit.py:62-114 | the new row is numbered one past the last and joined to its hash; nothing else in the log changes |
| AuditChain.AuditLog.Walk | panella/audit.py:134-148 | the walk both verifiers share succeeds exactly on an intact chain, and otherwise reports the first broken row and what is wrong with it |
| AuditChain.AuditLog.VerifyChain | panella/audit.py:117-148 | the full walk succeeds exactly when rows are 1..n and every row is joined and hashed correctly |
| AuditChain.AuditLog.VerifyThrough | panella/audit.py:151-203 | succeeds exactly when the rows numbered at most n are 1..n and intact, and returns row n; each error case is characterised |
| AuditChain.AuditLog.RowHash | panella/audit.py:206-218 | the hash of the row with that number, or an error exactly when there is none |
| AuditChain.FullWalkIsBoundedWalk | panella/audit.py:136-143 | "chain verified" means the same to the full walk and to the receipt gate |
| AuditChain.AppendKeepsChain | panella/audit.py:77-114 | an append to an intact log leaves it intact |
| AuditChain.AppendIsPrefixStable | panella/audit.py:151-203 | an append changes no verdict given before it, even on a damaged log |
| AuditChain.AppendedVerifiesIffChainDid | panella/audit.py:62-203 | the number an append returns verifies if and only if the whole log before it did |
| AuditChain.AppendAllIsPrefixStable | panella/audit.py:151-203 | a receipt that verifies keeps verifying, to the same row, after any further appends |
| AuditChain.TamperEvidence | panella/audit.py:221-223 | two logs that verify through n and agree on the hash of row n agree on all rows 1..n, or exhibit a collision of the row hash |
| AuditChain.TamperedReceiptIsRefused | panella/approval_finalizer.py:450-468 | a log edited, cut or re-linked at or below a receipt cannot keep the stored receipt valid |
| QueueLaws.McpIsGuardedApprove | panella/client_raw.py:504-555 | a stamp is exactly the core approval under a narrower guard, for the attested bytes; a redrive changes nothing |
| QueueLaws.McpSucceedsIff | panella/client_raw.py:504-555 | when an approval of the MCP and HTTP surfaces succeeds, in terms of the row and the receipt, which way, and what a stamp leaves in the row |
| QueueLaws.GateClaimsIff | panella/approval_finalizer.py:265-336 | a finalize call claims its row exactly when it is approved, provenanced, free or stale, and its receipt passes |
| Outbox.OutboxDb.EnqueueApproval | panella/client.py:1042-1075 | the queue gains one pending row under a fresh id and nothing else changes |
| Outbox.OutboxDb.ApproveInConn | panella/client_raw.py:220-330 | the approval transaction: idempotent re-approve, receipt set only if missing, a fresh approval clears planted provenance, every error leaves the tables alone |
| Outbox.OutboxDb.McpApproveOrRedrive | panella/client_raw.py:462-555 | stamp, redrive or refuse, with the tables after each |
| Outbox.OutboxDb.UpdateApprovalStatus | panella/client_raw.py:831-864 | flips only an awaiting row that no finalizer or forget holds, and reports whether it did |
| Outbox.OutboxDb.DeferCandidate | panella/client_raw.py:867-896 | defers under the same guard |
| Outbox.OutboxDb.ResurfaceDeferred | panella/client_raw.py:899-916 | exactly the due deferred rows become pending, and the count is their number |
| Outbox.OutboxDb.GateAndClaim | panella/approval_finalizer.py:266-336 | gate then claim under one lock: the outcome and the whole table after it, refusals included |
| Outbox.OutboxDb.ReceiptGate | panella/approval_finalizer.py:419-466 | the gate answers as the independent definition over the verified chain does, in the same order of checks |
| Outbox.OutboxDb.Record | panella/approval_finalizer.py:528-586 | compare-and-set on the worker, then lost, found elsewhere, or forced; the tables after each |
| Outbox.OutboxDb.Fail | panella/approval_finalizer.py:589-601 | marks the row failed only for its own worker and never over a finalized row |
| Outbox.OutboxDb.ScanSidecar | panella/client.py:1077-1127 | the single pass finds exactly the rows, events and divergent ids about the drawer |
| QueueLaws.DivergentIff | panella/client.py:1077-1127 | the divergent ids are exactly the other store ids that an event about the drawer was recorded under |
| Outbox.OutboxDb.ClaimSidecarForRtbf | panella/client.py:1173-1210 | claims every row about the drawer, or none exactly when a live finalize holds one |
| Outbox.OutboxDb.HardDeleteSidecar | panella/client.py:1141-1171 | purges exactly what is about the drawer; a fresh scan is empty |
| Outbox.OutboxDb.BackfillOne | panella/client_raw.py:675-757 | re-validate, append, stamp, with a crash possible between the last two |
| Outbox.SharedEventBreaksTheSinglePass | panella/client.py:1102-1121 | with two rows sharing an event the single pass is not closed: injective links are needed |
| QueueLaws.ApproveKeepsSound | panella/client_raw.py:241-330 | approving keeps links between rows and events injective and gives each approved row exactly one event |
| QueueLaws.FinalizerKeepsSound | panella/approval_finalizer.py:266-336 | so do claiming, refusing, recording and failing |
| QueueLaws.ForgetClaimKeepsSound | panella/client.py:1188-1210 | so does the claim of a forget |
| QueueLaws.PurgeSetIsLeastClosure | panella/client.py:1077-1127 | what the scan finds is the least set that contains everything naming the drawer and is closed under links |
| QueueLaws.PurgeIsExact | panella/client.py:1141-1171 | after a purge a second scan is empty and no row or event about another drawer is gone |
| QueueLaws.ApproveEvolves | panella/client_raw.py:241-330 | an approval never changes a decision, an event link, provenance or a receipt already set |
| QueueLaws.AcceptedIsStable | panella/approval_finalizer.py:419-466 | a row that passes the gates keeps passing, whatever is appended to the log and whoever else updates the row |
| ReceiptGate.ReceiptGatedDurability | panella/approval_finalizer.py:272-336 | in every run whatever, hand edits and crashes included: a store row marked for an approval was written from bytes whose receipt verifies from genesis and was in the log before the claim |
| ReceiptGate.ClaimIsReceipted | panella/approval_finalizer.py:300-336 | a claim is granted only on a verified receipt for exactly the bytes the worker takes away |
| Invariants.SoundStep | panella/client_raw.py:241-330 | every step of every actor keeps event links injective |
| Invariants.EvolveStep | panella/client_raw.py:241-330 | no step but a purge loses a row or reverses a decision |
| Invariants.FinMoves | panella/approval_finalizer.py:281-328 | the complete list of ways one step can change the finalizer columns of a row |
| Invariants.RtbfStays | panella/client.py:1173-1210 | no step but the purge and a refused finalize moves a row out of rtbf_deleting |
| Invariants.CoverStep | panella/approval_finalizer.py:349-391 | each careful step keeps every marked row answered for: by an approval no forget is past sweeping, by a worker in flight, or by a pending cleanup |
| Invariants.ExclusionStep | panella/approval_finalizer.py:293-328 | each step keeps: a running worker owns its claim, or is past its lease, or the approval is settled |
| Invariants.InvHolds | panella/approval_finalizer.py:229-416 | the conjunction of all invariants in every careful run |
| Orphans.NoOrphanInAnyRun | panella/approval_finalizer.py:349-391 | over all interleavings of workers, sweeps and forgets no active durable row is left without its approval, a worker to settle it, or a pending cleanup |
| Orphans.CrashDoomsIff | panella/approval_finalizer.py:349-391 | some careful continuation of a crash ends in an orphan if and only if the worker held a marked row that no unswept approval, pending entry or other worker answers for |
| Orphans.LandingErrorDoomsIff | panella/approval_finalizer.py:361-369 | the same for a store write that lands but raises, which the call takes for a failure; and exactly when its row is an orphan at once |
| Orphans.PurgeOrphansIff | panella/client.py:1141-1171 | a purge orphans a row if and only if it takes an approval its forget never claimed, whose marked row is neither pending nor in flight |
| Orphans.LateLandingDoomsIff | panella/panella_adapter.py:285-317 | a POST that lands after it timed out leads some careful run to an orphan if and only if no unswept approval, pending entry or worker in flight answers for its row |
| Orphans.OwnerIsSafe | panella/approval_finalizer.py:469-484 | what still owning the claim means: the worker may die, its write may end in any way, and any POST for its approval may land late, without any careful continuation orphaning a row |
| Orphans.LeaseImpliesOwnership | panella/approval_finalizer.py:349-363 | inside its lease a worker owns its claim unless the approval is already finalized, forgotten or purged |
| Necessity.LeaseIsNotEnough | panella/approval_finalizer.py:559-586 | a run in which a write inside the lease is orphaned by a crash: an overtaken worker had force-recorded, and a forget had swept and purged |
| Necessity.LandingErrorStrands | panella/approval_finalizer.py:361-369 | a run without any crash in which a stalled write lands after a purge but raises, and is orphaned |
| Necessity.LateLandingStrands | panella/panella_adapter.py:285-317 | a run in which every call ends in good order, a forget purges the approval, and a POST that had timed out lands and is orphaned |
| Necessity.HandEditStrands | panella/approval_finalizer.py:528-586 | a run in which a row deleted by hand orphans its finalized durable row |
| Safety.FinalizeOvertakesForgetIffRefused | panella/approval_finalizer.py:280-318 | a finalize call moves a row out of rtbf_deleting if and only if one of its gates refuses the row |
| Safety.AcceptedForgetHolds | panella/approval_finalizer.py:293-328 | a row that passes the gates is never moved out by a finalize call that can read the log |
| Released.LetGoStep | panella/client.py:1141-1171 | a simulation: when nothing an approval can still write needs its row, every careful step is one of the state whose forgets have let its claim go, and the invariant holds there |
| Refusals.RefusalDoomsIff | panella/approval_finalizer.py:280-318 | of every refused call on a held row: it leads some careful run to an orphan if and only if the forget is still running, a payload can be built, no cleanup of its store id is pending, and the row can still be brought to pass the gates |
| Refusals.RedeemableIff | panella/client_raw.py:247-266 | which rows can still be brought to pass, if the log holds their receipt or they have none: provenance is right or still missing, and the receipt is missing or verifies in some approver's name |
| Necessity.RefusalRevivesForgottenRow | panella/approval_finalizer.py:304-313 | a run in which such a refusal revives a forgotten row and ends in an orphan |
| Safety.ForgetWins | panella/client.py:1173-1210 | in every careful run an approval once held for a forget stays held, about its drawer and under the same recorded store id, until purged, and nobody finalizes it again |
| Safety.ReadableForgetWins | panella/approval_finalizer.py:293-328 | the same in every run without hand edits, careful or not, for an approval that passed the gates when it was claimed, if the finalize calls on it can read the log |
| Safety.PurgedStaysPurged | panella/client.py:1141-1171 | in every run without hand edits a purged approval never reappears and is never finalized |
| Safety.OvertakenWorkerCleansUp | panella/approval_finalizer.py:546-562 | a worker overtaken by a forget is told its row is lost and removes its store row or leaves a handle |
| Safety.ForgetIsComplete | panella/client.py:682-746 | when the purge of a fully swept forget has run no row or event about the drawer is left, every claimed approval is gone, no store row carries a claimed marker but one in flight or pending, and nothing about another drawer is missing |
| Necessity.PurgeRescansTooMuch | panella/client.py:698-722 | a run in which the purge scan removes a row its claim did not hold, and ends in an orphan |
| Safety.RetryFindsTheSame | panella/client.py:1173-1210 | after any careful run a retry finds every claimed approval that is still there and every store id recorded under one, is deferred only by a row the first attempt did not hold, and changes nothing if there is none |
| Safety.RetryEndsTheSame | panella/client.py:699-722 | after any careful run the purge of a retry leaves no approval the first attempt claimed, and no store row marked for one but in flight or pending |
| Safety.ClaimsAreALeaseApart | panella/approval_finalizer.py:293-328 | when an approval is claimed, any earlier worker has ended or claimed it more than the lease ago |
| Safety.WorkersConverge | panella/panella_adapter.py:737-768 | all workers of one approval hold one store id, and the marker lookup never sees two rows |
| Safety.FinalizedCarriesItsId | panella/approval_finalizer.py:528-586 | a finalized row and its event carry the one id of its bytes, and at most one worker finalized it |
| Safety.DecisionsAreAbsorbing | panella/client_raw.py:241-330 | in every run without hand edits approved and rejected rows keep decision, event and receipt until purged |
| Safety.StampedPassesEverAfter | panella/approval_service.py:226-262 | what approve stamps passes the finalizer gate now and in every later state |
| Execution.World.Perform | panella/approval_finalizer.py:229-601 | every step of the machine is what the transactions above do to the real tables |
| Execution.World.FindActiveHash | panella/panella_adapter.py:737-768 | the one active row with the marker, none, or an error on two |
| Execution.World.Write | panella/approval_finalizer.py:203-226 | the store write: rejected, duplicate, landed, or landed with an error |
| Execution.World.Land | panella/panella_adapter.py:294-309 | an attempt that timed out lands later: its row is added unless the id is there, and nothing else changes |
| Programs.FinalizeApprovedCandidate | panella/approval_finalizer.py:229-416 | with any actors between its steps the call is a run of the protocol and takes exactly these steps; it answers an id exactly when it found the row finalized or its record was not refused; undisturbed, an approval that passes the gates and is free is written, or found by its marker, and finalized under the id answered |
| Programs.DurableWrite | panella/approval_finalizer.py:337-370 | build, check, send until answered, and look up, step by step as the store answers: the call ends holding an id, broken, or with its claim lost |
| Programs.RecordOrCleanUp | panella/approval_finalizer.py:371-391 | record; or, exactly when the record is lost, remove the durable row again or leave a pending entry for it |
| Programs.RedrivePendingFinalizations | panella/approval_finalizer.py:604-656 | one whole finalize call on each row redrivable at its start, in id order, each answering what it should where the sweep has got; counts exactly the calls that returned an id |
| Programs.FinalizedStays | panella/approval_finalizer.py:560-576 | a finalized row keeps its id through anything but a forget |
| Programs.UndisturbedCallFinalizes | panella/approval_finalizer.py:337-391 | left alone over a working store, a call that claims writes one row and finalizes it |
| Programs.RetryRecordsTheSameRow | panella/approval_finalizer.py:364-374 | a retry after a crash between write and record records the row found by its marker and writes nothing |
| ForgetProgram.HardDelete | panella/client.py:682-746 | a run of own steps; deferred exactly when a live finalize holds a row, with nothing changed; a normal return ends in its purge after a full sweep and cascade, with nothing about the drawer left in the queue and, in a careful run, no store row marked for a claimed approval but in flight or pending; after an error in a careful run everything claimed and not purged is still held under the same recorded id, whoever else moved; a store error is answered only if a call raised or a marker showed twice; undisturbed over a store that answers it succeeds, and its answer says whether anything was deleted |
| ForgetProgram.HoldSurvives | panella/client.py:699-722 | however far a forget got in a careful run, what it claimed and nobody purged is still held for the drawer under the same recorded store id |
| ForgetProgram.SweepMarkers | panella/client.py:1212-1230 | after a complete sweep of a careful run each claimed marker was gone from the store at some moment, and a row that carries one now is in flight or pending; an error stops the sweep |
| ForgetProgram.DeleteDivergent | panella/client.py:700-712 | each id the drawer is recorded under at the scan is deleted upstream, or the cascade stops at the first error; it touches nothing else |
| ApprovalService.Approve | panella/approval_service.py:198-276 | a run of own steps with others between any two; which refusal is answered exactly when; the flip succeeds exactly on a row approvable when it comes, and writes this presser and this receipt; an id is answered exactly when the finalize call answers one; left alone with everything in order the candidate is stamped, written and finalized |
| ApprovalService.Reject | panella/approval_service.py:279-310 | the rejection is committed first, others may move, and the flip succeeds exactly when an awaiting, unheld row is there at that moment |
| ApprovalService.RejectionSays | panella/approval_service.py:298-306 | what a recorded rejection says: who rejected what, over which transport, and why |
| ApprovalService.RejectionIsNoReceipt | panella/approval_finalizer.py:456-458 | a recorded rejection never passes as an approval receipt |
| ApprovalService.BackedStampIsAccepted | panella/approval_finalizer.py:419-466 | a stamp whose receipt the log backs passes every gate |
| Migration.MigrateAuditReceipts | panella/client_raw.py:622-672 | a run of single-row steps with others in between, crash included; it counts exactly the rows decided at their turn and what is left; alone it is the fold of its steps; with nothing remaining the finalizer refuses no row for want of a receipt but held or half-receipted ones |
| Migration.ActivationIsGated | panella/client_raw.py:622-672 | after a pass reporting nothing remaining each approved row with provenance that is idle, failed or being finalized carries a receipt the gate accepts, or the one it had, untouched and judged as before |
| Migration.UnreceiptedIff | panella/client_raw.py:581-589 | the rows a pass looks at are the provenanced approvals without a receipt that no forget holds and some finalize call would refuse for it |
| Migration.DecidedStaysGated | panella/client_raw.py:675-757 | whatever others do, a row decided at its turn carries a receipt the gate accepts for as long as it exists |
| Migration.PassAttests | panella/client_raw.py:675-757 | a pass sets a receipt at most once, backed by the log, and changes no other column of any row |
| QueueLaws.BackfillSays | panella/client_raw.py:716-738 | what an attestation says: an approval, in the recorded name and transport, of these bytes and this proposer, with the answer of the store for a half-finalized row |
| Migration.FinishedPassLeavesTheUndecidable | panella/client_raw.py:644-648 | what a finished pass leaves unreceipted is exactly what the store could not be asked about |
| Migration.SecondPassIsIdle | panella/client_raw.py:659-672 | a second pass backfills and appends nothing |
| Migration.RestartCompletes | panella/client_raw.py:639-643 | a crash between append and stamp keeps the chain valid and the next pass ends where an uninterrupted one would |
| Cluster.Find | panella/reader.py:225-229 | returns the root, and path halving changes no root and keeps the forest acyclic; it terminates without ranks |
| Cluster.Union | panella/reader.py:232-235 | one union makes exactly the classes connected by the edges so far |
| Cluster.Groups | panella/reader.py:217-239 | the groups partition the indices and two indices share one exactly when connected by pairs at or above the threshold |
| Cluster.ExactIsConnectivity | panella/reader.py:217-239 | equal roots and the existence of a path are the same thing |
| Ranking.Supersede | panella/reader.py:260-270 | demoted are exactly the dated rows whose cluster holds a newer dated row |
| Ranking.OneLiveDatedRow | panella/reader.py:260-270 | each cluster with dated rows keeps exactly one live dated row, the one of the latest date, lowest index on ties |
| Ranking.ReaderppOrder | panella/reader.py:242-279 | the order and the demoted set, with the recency rank proved to be the number of newer rows |
| Ranking.OrderIsStratified | panella/reader.py:275-279 | the order is a permutation, live before demoted, sorted by fused rank then index |
| Ranking.BetterInBothRanksFirst | panella/reader.py:272-278 | a row no worse in retrieval and in recency comes first within its stratum |
| Ranking.FusionIff | panella/reader.py:272-278 | the fused order in whole numbers: 1/a + 1/b of the two places, ties to the row retrieved first |
| Ranking.RecencyRankIff | panella/reader.py:255-272 | dated rows rank before undated ones, later dates before earlier ones, ties by index |
| Ranking.ReaderppSelect | panella/reader.py:282-296 | the selection is a cut of the order, for any integer k |
| Ranking.Select | panella/reader.py:299-360 | sorting the two strata apart and concatenating is one lexicographic sort; a broken scorer changes nothing |
| Ranking.StrataThenConcat | panella/reader.py:355-360 | two sorts and a concatenation equal the one sort by stratum, score and position |
| Ranking.HigherScoreFirst | panella/reader.py:352-360 | within a stratum the higher score comes first, and equal scores keep the reader++ order |
| Ranking.DemotedOnlyAfterEveryLive | panella/reader.py:299-360 | for every scorer and every cut a demoted row is selected only if every live row is |
| SlidingWindow.RateLimiter.Allow | panella/http/auth.py:32-40 | accepts exactly when fewer than the limit of accepted calls lie in the last 60 seconds, though old entries are gone |
| SlidingWindow.RateLimiter.DropOld | panella/http/auth.py:35-36 | the popleft loop keeps exactly the recent entries |
| SlidingWindow.AcceptKeepsBound | panella/http/auth.py:32-40 | no 60-second window ever holds more than the limit |
| SlidingWindow.RecentIsTheLastMinute | panella/http/auth.py:32-40 | what counts as recent is exactly what is less than sixty seconds old |
| SlidingWindow.ForgettingIsHarmless | panella/client.py:896-900 | entries dropped at one moment are outside the window at every later one |
| SlidingWindow.WriteQuota.Enforce | panella/client.py:890-900 | lets a write through exactly when the day and the minute have room, judged on the whole history |
| SlidingWindow.WriteQuota.Check | panella/client.py:902-929 | the same questions for n writes, with no effect |
| SlidingWindow.WriteQuota.Record | panella/client.py:931-933 | recording keeps every window within the burst limit |
| SlidingWindow.PreflightCoversEveryWrite | panella/client.py:910-914 | a preflight passed for n covers each of the next n writes at any later times |
| AtomSet.SourceClient.Find | panella/panella_adapter.py:770-818 | all tagged rows, or an error at the cap; never a truncated set |
| AtomSet.SourceClient.DeletePrior | panella/client.py:493-568 | a normal return leaves no prior version but the kept one; a quota refusal deletes nothing |
| AtomSet.SourceClient.WriteEach | panella/client.py:648-662 | after a passed preflight no write of the set is refused on quota |
| AtomSet.SourceClient.Replace | panella/client.py:570-680 | a normal return leaves exactly the expected set from any starting state and counts what it deleted and wrote; unchanged means no effects; nothing is deleted unless the set fits; without faults success means no expected hash is stored elsewhere |
| TagLock.StoredRow.TagTransition | panella/panella_adapter.py:508-580 | the row ends untouched or as the operation leaves it; verified means the target state |
| TagLock.TransitionLeaves | panella/panella_adapter.py:536-556 | what each transition makes of the tags, the status and valid_to |
| TagLock.Linearizable | panella/tag_lock.py:65-99 | any interleaving of calls and replies, harmless late landings included, leaves the row at the sequential composition of the writes that took effect |
| TagLock.LandingBreaksIff | panella/panella_adapter.py:285-317 | exactly which late landing of a PUT leads to a row that is not that composition, at once or at the next PUT |
| TagLock.NoneLost | panella/panella_adapter.py:558-572 | the tag a verified call is for is on the row in every later state of a run with lossless landings, and a tombstoned or superseded row stays excluded |
| TagLock.HarmlessRunIsLossless | panella/panella_adapter.py:546-556 | a run whose landings are harmless is one that loses nothing |
| TagLock.LandingLosesIff | panella/panella_adapter.py:546-556 | exactly which late landing of a PUT takes a tag off the row or moves valid_to, at once or in a run without further losses |
| TagLock.LateLandingLosesATag | panella/tag_lock.py:83-99 | a run in which a PUT that lands after its call released the lock removes the tag of a verified call |
| TagLock.LandingInBetweenIsLost | panella/tag_lock.py:83-99 | a run in which a PUT that lands between another call's GET and PUT is overwritten |
| TagLock.RunKeeps | panella/panella_adapter.py:203-221 | in every run with lossless landings only status:active is ever removed, valid_to is set once, and an excluded row stays excluded |
| TagLock.PermanentSurvives | panella/panella_adapter.py:635-648 | the permanent tag survives every run with lossless landings |
| TagLock.TagsDependOnlyOnTheSet | panella/panella_adapter.py:545-546 | unless status:active is re-asserted the final tags depend only on which operations took effect |
| BridgeHealth.BridgeTables.RecordRun | panella/bridge_health.py:179-348 | one run in its phases: the alerts raised and the tables after it |
| BridgeHealth.BridgeTables.PersistWingFreshness | panella/bridge_health.py:127-148 | each upsert keeps the later write and resets the watermark exactly on progress |
| BridgeHealth.ProgressIsUnreported | panella/bridge_health.py:137-148 | a wing written later than before starts unreported again; any other keeps both its times |
| BridgeHealth.StreakCountsErrorRuns | panella/bridge_health.py:235-249 | the streak is the number of error runs since the last clean run, and no watermark exceeds it |
| BridgeHealth.StreakMoves | panella/bridge_health.py:233-245 | a run that wrote without errors resets streak and watermark, errors count one, an idle run counts nothing |
| BridgeHealth.OutageFiresIff | panella/bridge_health.py:246-249 | an outage alert fires exactly when alerts are on, the error runs of the outage have reached the threshold, and no surviving run has delivered this streak |
| BridgeHealth.DeliveredStreaksIncrease | panella/bridge_health.py:251-270 | within an outage each delivered streak is higher than the one before |
| BridgeHealth.OneDeliveryPerWriteIff | panella/bridge_health.py:151-166 | in every history of surviving runs a later delivery about a wing concerns a later write, if and only if the threshold is not negative |
| BridgeHealth.UnmarkedOutageRefires | panella/bridge_health.py:322-342 | an outage alert nobody took, or whose run died, fires again on the next enabled run of the outage |
| BridgeHealth.UnmarkedStaleRefires | panella/bridge_health.py:322-342 | so does such a staleness alert while the wing is as old |
| BridgeHealth.UnreportedWingFires | panella/bridge_health.py:160-165 | an unreported wing fires exactly when old enough and written after time 0 |
| BridgeHealth.OutageRepeatsIffDied | panella/bridge_health.py:305-342 | a delivered streak is delivered again by the next enabled idle run that accepts it, if and only if the delivering run died |
| BridgeHealth.StaleRepeatsIffDied | panella/bridge_health.py:305-342 | so is a staleness alert, with a threshold of zero or more, while the wing is as old |
| BridgeHealth.NegativeThresholdRepeats | panella/bridge_health.py:151-166 | for every negative threshold a history of two runs that delivers one write twice |
| GridSelect.SelectGrid | eval/goldsets/resolver_blocking_diag.py:571-594 | raises exactly on a bad theta, selects nothing exactly when nothing is feasible, else a feasible cell none lies above; the trace is exact |
| GridSelect.RateAtMostIsRational | eval/goldsets/resolver_blocking_diag.py:551-553 | the integer comparison is the rational one with its allowance |
| GridSelect.OverflowIsRationalIffMeasured | eval/goldsets/resolver_blocking_diag.py:566 | the unguarded overflow comparison is rational exactly when the baseline measured something |
| GridSelect.PollutionIsAQuarter | eval/goldsets/resolver_blocking_diag.py:567 | the pollution test is n/d <= 1/4 |
| GridSelect.ViableIsRational | eval/goldsets/resolver_blocking_diag.py:561-581 | a cell is viable exactly when all five frozen predicates hold as rational comparisons, with the gap of the overflow baseline |
| GridSelect.FailureIsTheFirst | eval/goldsets/resolver_blocking_diag.py:562-583 | which failure is named: the first of the five, in the frozen order, as rationals |
| GridSelect.TraceIsInKeyOrder | eval/goldsets/resolver_blocking_diag.py:571-583 | the trace goes by k and then theta, and names each infeasible cell once with its failure |
| GridSelect.RecallIsRational | eval/goldsets/resolver_blocking_diag.py:589-590 | better and tied are the rational order with zero denominators least |
| GridSelect.AboveIsAWeakOrder | eval/goldsets/resolver_blocking_diag.py:586-592 | the preference is a strict weak order |
| GridSelect.SelectionIsUnique | eval/goldsets/resolver_blocking_diag.py:571-594 | whatever the input order the selection has the same recall, k and theta; with distinct keys it is the same cell |
| GridSelect.TraceIsOrderIndependent | eval/goldsets/resolver_blocking_diag.py:573-583 | with distinct keys the whole trace is independent of the input order |

## Left out

- The HTTP, MCP and CLI surfaces, transports, credentials and break-glass: the verified presser is an input of `ApprovalService.Approve` and `ApprovalService.Reject`.
- Sanitizing, JSON parsing, payload construction (tags carried over, reserved prefixes, allow-listed metadata) and SHA-256: opaque deterministic functions of the candidate bytes.
- Columns no guard reads (`decided_by`, `responded_at`, `finalizer_last_error`, attempt counts, Telegram message ids); NULL and 'none' finalizer states are one value.
- The Telegram approval path and the raw approval: in the machine every approval is the core transaction under any arguments, which covers both.
- Message binding, listing and counting of pending approvals: they would add only easy members.
- Worker ids are distinct for each finalize call; the redrive sweep of the code passes one id to all its calls, which claim different approvals.
- Adapters without a marker lookup or a delete, and the hash that a semantic duplicate discloses: the finalizer disables semantic deduplication, so a duplicate is recovered by its marker.
- Store deletes either raise or leave the row absent (one that lands late is a `StoreDelete` step of anybody), as the finalizer assumes; a refused delete is modelled only in `AtomSet.SourceClient.DeletePrior`, where the code checks for it.
- The store client's back-off and its bound on retries: a call may send a POST or a PUT any number of times before it is answered, and each attempt may land at any later time.
- Only the finalizer writes `approval_ref:` tags. Rows written by other users of the store carry none.
- History appends are taken to succeed; the `orphan_cleanup_pending` entry is the set `pending`.
- `hard_delete` begins after its scope, break-glass, reason and ownership checks, and its tombstones and audit entry at the end are not modelled; a plain store delete stands for the delete by drawer id and the divergent deletes.
- Programs.FinalizeApprovedCandidate: no interference is placed between the last step of the call and its return, so its result speaks of the moment of the record; crashes of a worker are steps of the machine, not returns of the method.
- ForgetProgram.HardDelete: a caught `RtbfFinalizeInFlight` and a raised store error are the two error results; a process that dies inside the call is the same run without its abort step.
- Programs.RedrivePendingFinalizations: counts calls; a counted row may be forgotten by another actor before the sweep ends (`Programs.FinalizedStays` says that nothing else can undo it).
- Ranking.ReaderppOrder: scores and epochs are exact reals and the fusion constant is a natural number, because rounding is not the point; parsing of dates is not modelled.
- Cluster.Groups: similarity is any function of two indices; the tokeniser and the redaction of bodies are not modelled.
- SlidingWindow.RateLimiter.Allow: one thread and a clock that does not run backwards, as the promise needs.
- AtomSet.SourceClient.Replace: one client at a time for a source key, the shared daily counter changed by nobody else, and no approval requirement on the written room.
- TagLock.Linearizable: needs harmless late landings (`TagLock.Harmless`), which the lock does not ensure and which is exactly what it takes (`TagLock.LandingBreaksIff`); all writers of tags take the lock, and a row deleted during a run is not created again under the same hash; tag order and letter case of status tags are not modelled.
- TagLock.NoneLost: needs lossless late landings (`TagLock.Lossless`), which is weaker and exact as well (`TagLock.LandingLosesIff`); the other conditions are the same.
- TagLock.RunKeeps: the same conditions as NoneLost.
- TagLock.PermanentSurvives: the same conditions as NoneLost.
- Migration.MigrateAuditReceipts: the store's answer about a half-finalized approval is an input of each row's step, and no worker moves between that answer and the stamp.
- BridgeHealth.BridgeTables.RecordRun: one bridge and one run at a time; alert texts and payloads are left out.
- GridSelect.SelectGrid: metrics are natural numbers; schema checks and the measuring of cells are left out.
- Redaction, store probing and reconciliation by SQL patterns, language-model transports, the resolver engine and report rendering: outside the protocols modelled here.
