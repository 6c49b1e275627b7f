# Verified models of the iOS runner

Dafny 4.11 models of the parts of the iOS runner that hold or move wallet
secrets and signed transactions, with proofs of what they keep in every
interleaving. `dafny verify dfyconfig.toml` checks the project.

**The migration outbox.** `OutboxTypes` and `OutboxTransitions` define the
stored snapshot and its transitions as functions; `OutboxSnapshot` is the
mutable snapshot, whose methods work in place and are verified against those
functions. `OutboxInvariant`, `OutboxOperations`, `OutboxSafety` and
`OutboxRescheduling` prove what single transitions keep and when rescheduling
succeeds. `OutboxProtocol` is the step system: channel updates, the runner's
select, send and record phases, stops, failing reads and writes, and arbitrary
replies, in any order. `OutboxSelection`, `OutboxPeers`, `OutboxReachable`,
`OutboxAnnouncements` and `OutboxFairness` prove the theorems about all its
runs. `OutboxMeaning`, `OutboxChoosing` and `OutboxReplies` say what each
transition, the selection update and the recording of a reply do, written out on
fields, heights, digests and phrases without the names they are built from;
`OutboxApproval` and `OutboxHistory` prove that whatever was sent had been
approved by the caller and belonged to a batch not paused, in terms of the events
themselves. `OutboxRunner` holds the store and `RunOnce`, verified to be a run of
that system. The one assumption about the data is stated in `OutboxProtocol`
(`Admissible`): an item id is staged under one batch id only. The source checks
uniqueness inside a batch but looks items up across batches;
`AcknowledgeReconciledIff` says, without that assumption, exactly which
acknowledgements keep receipts and items in correspondence, and
`OutboxWitnesses` holds a run in which one does not. The digest is a parameter,
the shuffle any ranking, the delay any draw clamped to its range.

**The execution gate** (`ExecutionGate`) is the lock between runs and wallet
mutations, as a class and as a system of interleaved critical sections.

**The keychain migration and the fresh-install cleaner.** `Keychain` states what
an interruption may leave, `KeychainMigration` is the migrator on a store whose
operations may fail or crash before or after their effect, and `FreshInstall` is
the cleaner together with the proof that the two compose safely, up to a method
that runs both over any number of launches. `KeychainMeaning` says what these
promises mean for the items stored.

**The Ledger handler.** `Ledger` gives the handler's steps as functions,
`LedgerSafety` the invariant, `LedgerHandler` the object whose methods perform
those steps and keep it, and `LedgerSystem` the theorems for any number of
handlers on shared transports. `LedgerMeaning` is the table of what each event
does to the fields, the registry and the calls made; `LedgerDrain` proves that a
link whose connect was cancelled is never used again.
Main-thread events are atomic; what the transport reports is arbitrary at every
event, so the link may be lost at any time. `LedgerAppSwitch` is the polling loop
that opens the Zcash app; calls that suspend take any time, checks between them
take none.

**The notification coordinator** (`Coordinator`, `CoordinatorSafety`,
`CoordinatorMeaning`, `CoordinatorObject`) is the generation and waiter protocol
with late and superseded callbacks, from any persisted batch on.

**The wire codec** (`WireCodec`, `WireMessages`, `WireMeaning`) follows the Protocol Buffers
Encoding guide, section "Base 128 Varints", and gRPC over HTTP2,
"Length-Prefixed-Message".

Where code and comments disagree the code is modelled, and a lemma names the
difference: `ValidationWeakerThanRescheduling` (the validation alone is weaker
than what rescheduling needs; it is the preceding sweep that closes the gap, and
the sweep does nothing when the canonical expiry overflows;
`DisturbedAcceptanceIsRefused` is a run in which arming during the send leads to
a refused recording), `ExpiryLosesAWaitingAlert` and `LateCallbackMutesRecurrence`.

## Model

| member | source | states |
|---|---|---|
| `OutboxReachable.EveryRunIsSafe` | ios/Runner/BackgroundMigrationOutboxRunner.swift:35-317 | The invariant of stored snapshot, runner phase and wire log holds after every sequence of events: channel updates, runner phases, arbitrary replies, stops, and failing reads or writes. |
| `OutboxReachable.EverySentPayloadWasDue` | ios/Runner/BackgroundMigrationOutboxRunner.swift:117-237 | Every payload handed over was staged byte for byte under its item by an update that was carried out, and when selected was armed, past its backoff and scheduled at or below the height, with an expiry above it that is a multiple of 34,560 between one and two buckets ahead unless that overflows, in a batch not paused since it was armed or recovered; no run sends two. |
| `OutboxApproval.EverySentPayloadWasApproved` | ios/Runner/BackgroundMigrationOutbox.swift:305-381 | Over every run: whatever was handed over, some arm of its batch that was carried out had named its item with the digest of its very bytes, or some recovery of its batch expected its txid. |
| `OutboxApproval.EventApproved` | ios/Runner/BackgroundMigrationOutbox.swift:211-381 | Every single event keeps it that stored records have the digest of their payload and that whatever left the staged state was approved. |
| `OutboxHistory.EverySentPayloadWasUnpaused` | ios/Runner/BackgroundMigrationOutboxRunner.swift:117-237 | Every payload sent belongs to a selection before which each terminal outcome of its batch was followed by an arm or a recovery of that batch. |
| `OutboxHistory.PausedIs` | ios/Runner/BackgroundMigrationOutbox.swift:721-787 | A batch counts as paused exactly if some event recorded a rejection, expiry or need to resign for it and none since armed or recovered it. |
| `OutboxHistory.LeftAloneIsRecorded` | ios/Runner/BackgroundMigrationOutboxRunner.swift:251-270 | A selection sent, with its record stored throughout and its batch neither armed nor recovered meanwhile, can always be recorded as accepted, whatever reply, shuffle and draws. |
| `OutboxReachable.SentRecordsStayReported` | ios/Runner/BackgroundMigrationOutboxChannel.swift:155-179 | A stored record whose payload went out is listed as attempted for as long as the record exists, across stops, failed writes, recovery, rescheduling, expiry and restaging. |
| `OutboxReachable.HandedAreReported` | ios/Runner/BackgroundMigrationOutboxChannel.swift:155-179 | In any state of the invariant a record handed over is found by its key and its txid is in the list of its run. |
| `OutboxReachable.ReceiptsAndItemsCorrespond` | ios/Runner/BackgroundMigrationOutboxChannel.swift:119-153 | In every reachable snapshot each receipt has exactly one awaiting item with its batch, txid and outcome, each awaiting item a receipt, and the receipt's raw transaction is found. |
| `OutboxReachable.AcceptanceIsAlwaysRecorded` | ios/Runner/BackgroundMigrationOutboxRunner.swift:251-270 | If the batch was not armed or recovered since selection, recording an acceptance never fails with an invalid schedule, for any shuffle and draws, and succeeds if the record still exists. |
| `OutboxReachable.StagedBytesWereStaged` | ios/Runner/BackgroundMigrationOutbox.swift:211-303 | Bytes the history calls staged come from a stage event that was carried out and holds them under that batch and item. |
| `OutboxReachable.EventKeeps` | ios/Runner/BackgroundMigrationOutboxRunner.swift:58-317 | Every single event keeps the invariant. |
| `OutboxSelection.SelectionIsNeverRefused` | ios/Runner/BackgroundMigrationOutboxRunner.swift:119-156 | With a canonical expiry for the height and at most 34,560 items a batch, the selection update never fails: what is due after the two sweeps always validates and begins. |
| `OutboxSelection.ChooseBegins` | ios/Runner/BackgroundMigrationOutboxRunner.swift:119-156 | A selection is sound, its record is stored as submitting, pauses are kept, and the batch has room for all overdue peers. |
| `OutboxSelection.ChooseNothing` | ios/Runner/BackgroundMigrationOutboxRunner.swift:119-195 | A selection update that picks nothing keeps the invariant and every record. |
| `OutboxSelection.SweptAreCanonical` | ios/Runner/BackgroundMigrationOutbox.swift:721-787 | After expiring and resigning, every armed and scheduled item of the endpoint carries the canonical expiry. |
| `OutboxChoosing.ChooseDoes` | ios/Runner/BackgroundMigrationOutboxRunner.swift:119-156 | The selection update settles exactly the armed items of the endpoint that expired or whose expiry is not the canonical one of the height, begins the item it picks, and leaves every other record as it is. |
| `OutboxChoosing.NextEndpointIs` | ios/Runner/BackgroundMigrationOutbox.swift:430-449 | A run inspects the least watched endpoint after the last one, or the least of all, and has none exactly when none is watched. |
| `OutboxChoosing.SelectedScopeIs` | ios/Runner/BackgroundMigrationOutbox.swift:789-838 | The selection goes to the least candidate scope after the last one served, or the least of all. |
| `OutboxChoosing.MarkProofReadyIs` | ios/Runner/BackgroundMigrationOutbox.swift:484-525 | Only the ready batch of lowest proof height, then batch id, is marked, and only if it is not already. |
| `OutboxMeaning.CanonicalExpiryIs` | ios/Runner/BackgroundMigrationOutbox.swift:1159-1165 | The canonical expiry of a height is the one multiple of 34,560 that lies more than one and at most two buckets ahead; there is none only when that overflows 64 bits. |
| `OutboxMeaning.ResignSweeps` | ios/Runner/BackgroundMigrationOutbox.swift:750-787 | Of the armed items of the endpoint scheduled by the height, the resign sweep settles exactly those whose expiry is not that multiple, and unarms their batches. |
| `OutboxMeaning.ResignAppends` | ios/Runner/BackgroundMigrationOutbox.swift:750-787 | The resign sweep appends exactly the receipts of the items it settles. |
| `OutboxMeaning.ExpireSweeps` | ios/Runner/BackgroundMigrationOutbox.swift:721-748 | The expiry sweep settles exactly the armed items of the endpoint whose expiry is at or below the height, and unarms their batches. |
| `OutboxMeaning.ExpireAppends` | ios/Runner/BackgroundMigrationOutbox.swift:721-748 | The expiry sweep appends exactly the receipts of the items it settles. |
| `OutboxMeaning.SelectedIs` | ios/Runner/BackgroundMigrationOutbox.swift:789-838 | What is selected is an armed, due item of an armed batch of the endpoint before which no due item of that batch comes; nothing is selected only when there is no candidate. |
| `OutboxSelection.RoomMakesAcceptanceRecordable` | ios/Runner/BackgroundMigrationOutbox.swift:907-944 | Room for the peers makes recording an acceptance succeed. |
| `OutboxSelection.InvalidScheduleOnlyWithoutRoom` | ios/Runner/BackgroundMigrationOutbox.swift:907-944 | Recording an acceptance reports an invalid schedule if and only if the peers lack room. |
| `OutboxRescheduling.RescheduleSucceedsIff` | ios/Runner/BackgroundMigrationOutbox.swift:1050-1107 | Rescheduling succeeds exactly when the timing is valid and the earliest overdue peer expiry exceeds the height plus the number of peers; randomness plays no part. |
| `OutboxRescheduling.RescheduleOutcome` | ios/Runner/BackgroundMigrationOutbox.swift:1050-1107 | Exactly the overdue peers move, in expiry order: each is placed past the one before by the blocks drawn, at least one and at most the maximum and what its expiry leaves once every later peer keeps a block; its update says so, and nothing else changes. |
| `OutboxRescheduling.ValidationExactForOneExpiry` | ios/Runner/BackgroundMigrationOutbox.swift:850-870 | When all overdue peers share an expiry, the pre-flight validation is exactly the condition rescheduling needs. |
| `OutboxRescheduling.RoomImpliesValid` | ios/Runner/BackgroundMigrationOutbox.swift:850-870 | The condition rescheduling needs always implies the validation. |
| `OutboxWitnesses.ValidationWeakerThanRescheduling` | ios/Runner/BackgroundMigrationOutbox.swift:850-1107 | With different expiries it does not: two peers that pass the validation and cannot be rescheduled, whatever is under submission. |
| `OutboxRescheduling.BucketHoldsItsPeers` | ios/Runner/BackgroundMigrationOutbox.swift:1159-1165 | Peers with the canonical expiry of the height leave room for up to 34,560 of them. |
| `OutboxPeers.MutationUndisturbed` | ios/Runner/BackgroundMigrationOutboxChannel.swift:10-202 | Outside arming and recovering its batch, an update removes the selected record or leaves it unchanged, and adds no overdue peer to its batch. |
| `OutboxSafety.MutationKeepsInv` | ios/Runner/BackgroundMigrationOutboxChannel.swift:10-206 | Every channel update keeps the snapshot invariant, adds no record but fresh staged ones, and lets kept records only move along the item lifecycle. |
| `OutboxSafety.MutationArms` | ios/Runner/BackgroundMigrationOutbox.swift:305-381 | A batch armed after a channel update was armed before it, unless the update armed or recovered that batch. |
| `OutboxChoosing.UpdatesAre` | ios/Runner/BackgroundMigrationOutboxChannel.swift:10-206 | Which transition each channel update is, its errors included. |
| `OutboxSafety.RejectedPauses` | ios/Runner/BackgroundMigrationOutbox.swift:946-977 | After a rejection the batch is unarmed and so not selectable. |
| `OutboxSafety.SweepPauses` | ios/Runner/BackgroundMigrationOutbox.swift:721-787 | A batch with a new terminal receipt is unarmed. |
| `OutboxOperations.AcknowledgeKeepsInv` | ios/Runner/BackgroundMigrationOutbox.swift:979-999 | Acknowledging any set of receipts keeps receipts and awaiting items in correspondence. |
| `OutboxOperations.UnreconciledItemIsKept` | ios/Runner/BackgroundMigrationOutbox.swift:979-999 | An awaiting item whose receipt is not acknowledged is still stored, unchanged. |
| `OutboxOperations.UnacknowledgedItemStaysIff` | ios/Runner/BackgroundMigrationOutbox.swift:979-999 | Whatever ids items have: an item whose own receipt is not acknowledged stays exactly when no acknowledged receipt, of any batch, names its item id. |
| `OutboxOperations.AcknowledgeReconciledIff` | ios/Runner/BackgroundMigrationOutbox.swift:979-1047 | Whatever ids items have: acknowledging keeps receipts and awaiting items in correspondence exactly when no receipt named shares its item id with one not named. |
| `OutboxOperations.DiscardKeepsAttempted` | ios/Runner/BackgroundMigrationOutbox.swift:1008-1022 | Discarding never removes a record with evidence of an attempt. |
| `OutboxOperations.SweepKeepsInv` | ios/Runner/BackgroundMigrationOutbox.swift:721-787 | Expiring and resigning keep the invariant: each settled item gets its receipt. |
| `OutboxOperations.AcceptedKeepsInv` | ios/Runner/BackgroundMigrationOutbox.swift:907-944 | Recording an acceptance, respacing included, keeps the invariant and every record. |
| `OutboxOperations.RejectedKeepsInv` | ios/Runner/BackgroundMigrationOutbox.swift:946-977 | Recording a rejection keeps the invariant and every record. |
| `OutboxOperations.StageKeepsInv` | ios/Runner/BackgroundMigrationOutbox.swift:211-303 | Staging, new or merged, keeps the invariant and only adds fresh staged items. |
| `OutboxMeaning.StageableIs` | ios/Runner/BackgroundMigrationOutbox.swift:211-303 | What a batch must be to be staged, condition by condition. |
| `OutboxMeaning.RestageSucceedsIff` | ios/Runner/BackgroundMigrationOutbox.swift:211-303 | A batch staged again is merged exactly if it is of the same run, moves endpoint or timing only with nothing under submission, and each of its items restates a stored one or shares neither txid nor part with any. |
| `OutboxMeaning.RestageMerges` | ios/Runner/BackgroundMigrationOutbox.swift:211-303 | The merge keeps every stored item in place, appends the new ones in order, adopts the settings, and forgets announcements only when there is something new to announce. |
| `OutboxMeaning.ArmSucceedsIff` | ios/Runner/BackgroundMigrationOutbox.swift:305-322 | Arming succeeds exactly when the batch exists, something is named or a proof is watched, and every digest named is that of the stored item of that id. |
| `OutboxMeaning.ArmArmsNamed` | ios/Runner/BackgroundMigrationOutbox.swift:305-331 | An arm that succeeds arms exactly the staged items named and leaves every other item and batch unchanged. |
| `OutboxMeaning.RecoverSucceedsIff` | ios/Runner/BackgroundMigrationOutbox.swift:333-361 | A recovery needs an endpoint and expected txids, and a stored batch of that id must be of the run, not empty, and hold no transaction that is not expected. |
| `OutboxMeaning.RecoverRearms` | ios/Runner/BackgroundMigrationOutbox.swift:333-381 | A recovery arms what was staged, returns what was under submission counted, moves the endpoint, and touches no other batch. |
| `OutboxMeaning.UncertainIs` | ios/Runner/BackgroundMigrationOutbox.swift:872-887 | A submission of unknown outcome is armed again, counted, and held back one, five, fifteen or sixty minutes. |
| `OutboxMeaning.RecordAcceptedIs` | ios/Runner/BackgroundMigrationOutbox.swift:907-944 | A recorded acceptance settles the item, touches no item but overdue peers, and appends one receipt about it. |
| `OutboxMeaning.RecordRejectedIs` | ios/Runner/BackgroundMigrationOutbox.swift:946-977 | A rejection settles the item, unarms its batch, drops its proof height and appends one receipt about it. |
| `OutboxMeaning.RecordCancelledIs` | ios/Runner/BackgroundMigrationOutbox.swift:893-905 | A cancellation before the send neither counts nor holds back the item. |
| `OutboxMeaning.LocationIs` | ios/Runner/BackgroundMigrationOutbox.swift:1041-1048 | An item id is found in the first batch that holds it, at its first item of that id, and not found exactly when no batch holds it. |
| `OutboxMeaning.PeerExpiriesAscend` | ios/Runner/BackgroundMigrationOutbox.swift:850-870 | The expiries the validation reads are those of exactly the overdue armed peers, each once, in ascending order. |
| `OutboxMeaning.ValidateIs` | ios/Runner/BackgroundMigrationOutbox.swift:850-870 | The validation succeeds exactly if the first of them lies more than one block ahead, the second more than two, and so on. |
| `OutboxMeaning.AcknowledgeIs` | ios/Runner/BackgroundMigrationOutbox.swift:979-999 | What is left after an acknowledgement: batches with only the items that no acknowledged receipt names, none closed by it and none emptied. |
| `OutboxMeaning.AcknowledgeLeaves` | ios/Runner/BackgroundMigrationOutbox.swift:979-999 | A batch that is neither closed by the acknowledgement nor emptied is left, with exactly those items. |
| `OutboxMeaning.DiscardIs` | ios/Runner/BackgroundMigrationOutbox.swift:1008-1022 | Discarding removes just that batch, and is refused exactly if an item of it was counted or is under submission or a receipt is about it. |
| `OutboxMeaning.RevokeIs` | ios/Runner/BackgroundMigrationOutbox.swift:1024-1039 | Revoking an account removes exactly its batches, their receipts and announcements, keeps all others in order, and clears the cursor only if it is that of the account. |
| `OutboxMeaning.MarkSentIs` | ios/Runner/BackgroundMigrationOutbox.swift:675-695 | A batch becomes due for its announcement exactly once fully accepted, with no proof to come, and not announced before. |
| `OutboxMeaning.AcknowledgeSentIs` | ios/Runner/BackgroundMigrationOutbox.swift:697-719 | Only a pending announcement can be acknowledged; it is remembered by id and a batch with nothing left goes. |
| `OutboxMeaning.NextActionIsLeast` | ios/Runner/BackgroundMigrationOutbox.swift:451-463 | The next height to wake up for is the least at which an armed item is scheduled or a proof is to be announced at the endpoint, and none exactly when there is none. |
| `OutboxMeaning.ListAttemptedIs` | ios/Runner/BackgroundMigrationOutboxChannel.swift:155-179 | A txid is listed exactly if a stored item of the run was counted, is under submission, accepted or rejected. |
| `OutboxOperations.RespacingKeepsItems` | ios/Runner/BackgroundMigrationOutbox.swift:1109-1130 | Respacing changes nothing but the schedule of overdue peers. |
| `OutboxAnnouncements.AnnouncedAtMostOnce` | ios/Runner/BackgroundMigrationOutbox.swift:289-299 | Between revocations the announcement of a batch id is acknowledged at most once, even when the record is pruned and staged again. |
| `OutboxAnnouncements.PendingAnnouncementSurvives` | ios/Runner/BackgroundMigrationOutbox.swift:979-999 | A batch that owes its announcement survives every acknowledgement of receipts. |
| `OutboxWitnesses.SharedItemIdLosesAnItem` | ios/Runner/BackgroundMigrationOutbox.swift:979-1047 | A run that stages, arms and expires two batches sharing an item id reaches a reconciled store in which acknowledging one receipt removes the item of the other and keeps that receipt. |
| `OutboxWitnesses.SharedIsReached` | ios/Runner/BackgroundMigrationOutbox.swift:211-331 | The store of that run: both items expired, each with its receipt. |
| `OutboxWitnesses.DisturbedAcceptanceIsRefused` | ios/Runner/BackgroundMigrationOutboxRunner.swift:233-294 | A run in which peers armed during the send pass the validation and yet make every recording of an acceptance fail, so that the item stays submitting. |
| `OutboxFairness.EveryScopeOnce` | ios/Runner/BackgroundMigrationOutbox.swift:789-838 | Over as many consecutive selections as there are candidate scopes, the candidates being stable, every scope is selected exactly once. |
| `OutboxFairness.EveryEndpointOnce` | ios/Runner/BackgroundMigrationOutbox.swift:430-449 | Over as many consecutive inspections as there are watched endpoints, every endpoint is inspected exactly once. |
| `OutboxFairness.FullTurn` | ios/Runner/BackgroundMigrationOutbox.swift:430-449 | A full turn of either ring picks every member exactly once, wherever it starts. |
| `OutboxTransitions.ListAttempted` | ios/Runner/BackgroundMigrationOutboxChannel.swift:155-179 | The listed txids are those of exactly the run's stored items with evidence of an attempt. |
| `OutboxTransitions.FirstDueIsLeast` | ios/Runner/BackgroundMigrationOutbox.swift:808-826 | The item selected is due and first in (scheduled height, txid) order among all due ones, the earlier stored one on a tie. |
| `OutboxSnapshot.SnapshotObject.StageBatch` | ios/Runner/BackgroundMigrationOutbox.swift:211-303 | Appends a new batch, or merges a batch staged again: moved settings, only compatible items, new items appended, stale announcements forgotten; else the source's error. |
| `OutboxSnapshot.SnapshotObject.ArmBatch` | ios/Runner/BackgroundMigrationOutbox.swift:305-331 | Arms exactly the staged items named by digest, or fails unless every digest is that of its item; `ArmSucceedsIff` and `ArmArmsNamed` say it on items and digests. |
| `OutboxSnapshot.SnapshotObject.RecoverBatch` | ios/Runner/BackgroundMigrationOutbox.swift:333-381 | Re-arms staged items, returns interrupted ones counted, moves the endpoint; refuses foreign, empty or unknown batches. |
| `OutboxSnapshot.SnapshotObject.RecoverInterruptedSubmissions` | ios/Runner/BackgroundMigrationOutbox.swift:412-428 | Every submitting item becomes armed again, counted and backed off; nothing else changes. |
| `OutboxSnapshot.SnapshotObject.NextEndpointForInspection` | ios/Runner/BackgroundMigrationOutbox.swift:430-449 | Picks the watched endpoint after the last one, in sorted order, and remembers it. |
| `OutboxSnapshot.SnapshotObject.MarkProofReadyIfNeeded` | ios/Runner/BackgroundMigrationOutbox.swift:484-501 | Marks the ready candidate that comes first by proof height and batch id and returns its batch and the height; nothing is returned exactly when there is none. |
| `OutboxSnapshot.SnapshotObject.MarkBroadcastCompleteIfNeeded` | ios/Runner/BackgroundMigrationOutbox.swift:675-695 | Marks a fully accepted batch that was not announced before. |
| `OutboxSnapshot.SnapshotObject.AcknowledgeBroadcastComplete` | ios/Runner/BackgroundMigrationOutbox.swift:697-719 | Records the announcement by batch id and prunes the batch once it is empty. |
| `OutboxSnapshot.SnapshotObject.ExpireItems` | ios/Runner/BackgroundMigrationOutbox.swift:721-748 | Settles every expired armed item of the endpoint with its receipt, in order, and unarms its batch. |
| `OutboxSnapshot.SnapshotObject.MarkDueItemsNeedingResign` | ios/Runner/BackgroundMigrationOutbox.swift:750-787 | Settles exactly the due items whose expiry is not the canonical one, if that does not overflow; `ResignSweeps` and `CanonicalExpiryIs` say it on heights. |
| `OutboxSnapshot.SnapshotObject.SelectDueItem` | ios/Runner/BackgroundMigrationOutbox.swift:789-838 | Picks the next scope on the ring and its first due item; only the cursor moves. |
| `OutboxSnapshot.SnapshotObject.BeginItem` | ios/Runner/BackgroundMigrationOutbox.swift:840-848 | Moves an armed item to submitting with its attempt. |
| `OutboxSnapshot.SnapshotObject.ValidateReschedulingAfterAcceptance` | ios/Runner/BackgroundMigrationOutbox.swift:850-870 | Succeeds exactly when one block per overdue peer fits below each expiry in turn. |
| `OutboxSnapshot.SnapshotObject.RecordUncertainItem` | ios/Runner/BackgroundMigrationOutbox.swift:872-887 | Returns a submitting item to armed, counted, with its backoff and error. |
| `OutboxSnapshot.SnapshotObject.RecordCancelledBeforeSubmission` | ios/Runner/BackgroundMigrationOutbox.swift:893-905 | Returns a submitting item to armed, not counted. |
| `OutboxSnapshot.SnapshotObject.RecordAcceptedItem` | ios/Runner/BackgroundMigrationOutbox.swift:907-944 | Settles the item, respaces its overdue peers and appends the receipt with their new schedules, or fails. |
| `OutboxSnapshot.SnapshotObject.RecordRejectedItem` | ios/Runner/BackgroundMigrationOutbox.swift:946-977 | Settles the item with its receipt, unarms the batch and drops its proof height. |
| `OutboxSnapshot.SnapshotObject.AcknowledgeReceipts` | ios/Runner/BackgroundMigrationOutbox.swift:979-999 | Removes the receipts, their items, closed batches and emptied ones. |
| `OutboxSnapshot.SnapshotObject.DiscardBatch` | ios/Runner/BackgroundMigrationOutbox.swift:1008-1022 | Removes the batch unless an attempt or a receipt speaks against it. |
| `OutboxSnapshot.SnapshotObject.RevokeScope` | ios/Runner/BackgroundMigrationOutbox.swift:1024-1039 | Removes exactly the account's batches, their receipts, announcements and cursor, as `RevokeIs` says on the records. |
| `OutboxSnapshot.SnapshotObject.ItemLocation` | ios/Runner/BackgroundMigrationOutbox.swift:1041-1048 | The first batch that holds the item id, and its first item of that id. |
| `OutboxSnapshot.SnapshotObject.RescheduleOverdueItems` | ios/Runner/BackgroundMigrationOutbox.swift:1050-1107 | Shuffles, sorts by expiry and respaces the overdue peers, reading one draw each. |
| `OutboxRunner.OutboxStore.Change` | ios/Runner/BackgroundMigrationOutboxStore.swift:123-132 | An update persists its whole mutation or, when the mutation throws or the store fails before the write, nothing. |
| `OutboxRunner.OutboxStore.ChooseNext` | ios/Runner/BackgroundMigrationOutboxRunner.swift:119-156 | The selection update, composed of the snapshot's methods, is the step system's selection. |
| `OutboxRunner.OutboxStore.RecordReply` | ios/Runner/BackgroundMigrationOutboxRunner.swift:233-294 | Code 0 is stored as accepted, another code as accepted equivalent if the lowered message holds one of nine phrases and else as rejected with its batch unarmed, a failed call as armed again, counted and held back; each with its receipt. |
| `OutboxReplies.ContainsIff` | ios/Runner/BackgroundMigrationOutboxRunner.swift:319-331 | The search finds a phrase exactly where the text is something, the phrase, something. |
| `OutboxReplies.KnownIff` | ios/Runner/BackgroundMigrationOutboxRunner.swift:319-331 | A message counts as an acceptance exactly if, lowered, it holds one of the nine phrases. |
| `OutboxReplies.RecordingIs` | ios/Runner/BackgroundMigrationOutboxRunner.swift:233-294 | For every reply, what a recording stores of its item, batch and receipt; and that it is refused only for an item that is not under submission, or an acceptance that cannot be respaced. |
| `OutboxReplies.RecordedIsReported` | ios/Runner/BackgroundMigrationOutboxRunner.swift:233-294 | A reply to a record in flight ends as the receipt and item status that the reply calls for, or armed again and counted; a rejected batch is unarmed. |
| `OutboxRunner.RunOnce` | ios/Runner/BackgroundMigrationOutboxRunner.swift:35-317 | One run is a run of the step system from the stored state; it sends at most one payload, only with admission, none once cancelled, and left alone just what the selection picks; the reply itself decides the outcome and, with nothing in between, what is stored of it; a delivery is reported only for code 0 or a phrase. |
| `OutboxRunner.RunsCompose` | ios/Runner/BackgroundMigrationOutboxRunner.swift:35-317 | Over any sequence of runs and updates from an empty store, every payload sent met all conditions, spelled out on its item, and the invariant holds. |
| `ExecutionGate.AtMostOneRun` | ios/Runner/BackgroundMigrationOutboxExecutionGate.swift:19-47 | In every interleaving of runners and mutators at most one run is active, and none while a mutator holds a lease it has waited for. |
| `ExecutionGate.HeldLeaseExcludesRuns` | ios/Runner/BackgroundMigrationOutboxExecutionGate.swift:36-72 | After the wait returned to a registered lease, no run is active or admitted until that lease is resumed or discarded, whatever other leases do. |
| `ExecutionGate.PausedAdmitsNoRun` | ios/Runner/BackgroundMigrationOutboxExecutionGate.swift:19-40 | From its registration on, a lease admits no new run until it is released. |
| `ExecutionGate.LeaseStays` | ios/Runner/BackgroundMigrationOutboxExecutionGate.swift:36-72 | Only its own resume or a matching discard takes a held lease away. |
| `ExecutionGate.SectionsAre` | ios/Runner/BackgroundMigrationOutboxExecutionGate.swift:19-72 | Every critical section on the lock and the leases themselves: admission needs no run and no lease, and a discard removes exactly the leases that begin with the prefix of the scope. |
| `ExecutionGate.ExecutionGate.TryBeginRun` | ios/Runner/BackgroundMigrationOutboxExecutionGate.swift:19-25 | Admits a run exactly when none is active and no lease is held. |
| `ExecutionGate.ExecutionGate.WaitUntilIdle` | ios/Runner/BackgroundMigrationOutboxExecutionGate.swift:43-47 | Returns at the first moment the gate is idle among the other threads' critical sections. |
| `ExecutionGate.ExecutionGate.DiscardStopLeases` | ios/Runner/BackgroundMigrationOutboxExecutionGate.swift:52-62 | Removes exactly the leases under the prefix of the scope. |
| `ExecutionGate.ExecutionGate.ResumeRuns` | ios/Runner/BackgroundMigrationOutboxExecutionGate.swift:67-72 | Removes only the caller's lease and tells whether any is left. |
| `Keychain.InterruptionsKeepSecrets` | ios/Runner/KeychainAccessibilityMigrator.swift:81-175 | After any number of interrupted migrations every original secret is in one of the two services with its bytes, none is invented, copies that cannot be moved are untouched, and a conflict-free vault still is. |
| `Keychain.EverySecretArrives` | ios/Runner/KeychainAccessibilityMigrator.swift:81-175 | From whatever they left, a migration that ends migrated holds every original secret under the canonical service in the target class, with an empty staging service. |
| `Keychain.MigratedHoldsEverySecret` | ios/Runner/KeychainAccessibilityMigrator.swift:159-175 | A migrated vault that kept another holds each of its secrets in the target class. |
| `Keychain.VaultKeptTransitive` | ios/Runner/KeychainAccessibilityMigrator.swift:130-175 | What one interruption keeps, any sequence of them keeps. |
| `KeychainMeaning.ConflictFreeIs` | ios/Runner/KeychainAccessibilityMigrator.swift:81-157 | A vault can be migrated exactly if no account repeats in a service, its copies are in the two known classes, staged ones in the target class, and two copies of an account agree. |
| `KeychainMeaning.KeptMeans` | ios/Runner/KeychainAccessibilityMigrator.swift:81-175 | A kept vault stores exactly the same secrets, none lost and none made up. |
| `KeychainMeaning.ArrivedMeans` | ios/Runner/KeychainAccessibilityMigrator.swift:159-175 | A vault whose secrets arrived stores each of them in its canonical service, in the class only this device can read. |
| `KeychainMeaning.MovesIs` | ios/Runner/KeychainAccessibilityMigrator.swift:99-175 | The accounts counted as moved are those with a legacy copy and those with a staged copy alone. |
| `KeychainMigration.Migrator.EnsureFirstUnlockThisDeviceOnly` | ios/Runner/KeychainAccessibilityMigrator.swift:81-116 | Whatever operation fails or crashes, before or after its effect, the vault is kept; the completion flag is set only in a migrated vault that was conflict-free; without faults it succeeds exactly on a conflict-free one and counts the moves. |
| `KeychainMigration.MigrateOverLaunches` | ios/Runner/KeychainAccessibilityMigrator.swift:81-175 | Over any number of launches with any faults no secret is lost; the completion flag is set only when every original secret has arrived under its canonical service in the target class with an empty staging service; after a last launch without faults it is set exactly if the first vault was conflict-free. |
| `KeychainMigration.Migrator.MigrateAccount` | ios/Runner/KeychainAccessibilityMigrator.swift:130-175 | Changes only its account, keeps its bytes in one of the services at every stop, and on success leaves one copy in the target class. |
| `KeychainMigration.Migrator.ReplaceLegacy` | ios/Runner/KeychainAccessibilityMigrator.swift:170-174 | Deletes and re-adds a legacy copy only while the staged copy holds the bytes. |
| `KeychainMigration.Migrator.Verify` | ios/Runner/KeychainAccessibilityMigrator.swift:197-210 | Succeeds only on exactly one copy in the target class with the expected bytes. |
| `KeychainMigration.IndexedItems` | ios/Runner/KeychainAccessibilityMigrator.swift:118-128 | Builds the dictionary exactly when no account repeats. |
| `KeychainMigration.OneAccountFurther` | ios/Runner/KeychainAccessibilityMigrator.swift:99-110 | Wherever one more account's migration stopped, the vault as a whole is kept. |
| `KeychainMigration.AllDone` | ios/Runner/KeychainAccessibilityMigrator.swift:99-115 | When every account is done the vault is migrated and was conflict-free. |
| `FreshInstall.CleanerSparesInterruptedMigrations` | ios/Runner/WalletPathResolver.swift:126-196 | While the database named in the keychain exists, no number of interrupted migrations leads to clearing or to marking a walletless install: the install is preserved or the decision deferred. |
| `FreshInstall.RunLaunches` | ios/Runner/WalletPathResolver.swift:126-196 | Over any number of launches, each running the cleaner and then a migration with any faults, while every launch finds the named database the cleaner never clears or marks a walletless install and every secret of every wallet is kept. |
| `FreshInstall.NamedWalletIsNeverCleared` | ios/Runner/WalletPathResolver.swift:164-196 | An existing named database is found in one of the two services, or the decision is deferred. |
| `KeychainMeaning.DecisionIs` | ios/Runner/WalletPathResolver.swift:164-196 | Each decision exactly characterised by the lookups: the first unreadable one defers with its reason, all missing mark the install, only names of missing databases clear. |
| `KeychainMeaning.LookupIs` | ios/Runner/WalletPathResolver.swift:164-196 | A lookup finds the name in the first copy stored under its key, or fails as the read or the decoding does. |
| `KeychainMeaning.NamesExistingIs` | ios/Runner/WalletPathResolver.swift:126-196 | Any stored item of a wallet whose bytes name an existing database is what the cleaner must not lose. |
| `FreshInstall.MigrationKeepsNames` | ios/Runner/KeychainAccessibilityMigrator.swift:130-175 | A migration of any service, interrupted or not, keeps the name readable. |
| `FreshInstall.Cleaner.RunIfNeeded` | ios/Runner/WalletPathResolver.swift:137-162 | Erases only on the clear decision; marks the install exactly when marked, preserved or wholly cleared; never touches the keychain of an existing named database. |
| `FreshInstall.Cleaner.CleanupDecision` | ios/Runner/WalletPathResolver.swift:164-196 | The decision made in each case: first unreadable name defers, no name marks, an existing database preserves, only missing databases clear. |
| `FreshInstall.Cleaner.Clear` | ios/Runner/WalletPathResolver.swift:198-230 | Empties every service to clear whose deletion succeeds, touches no other service, and marks the install exactly when all secure-store deletions succeed. |
| `LedgerSystem.EveryInterleavingIsSafe` | ios/Runner/LedgerMobileHandler.swift:13-971 | The invariant of every handler's slots, books and starts holds in every interleaving, for any number of handlers and transports. |
| `LedgerSystem.StartsAreExclusive` | ios/Runner/LedgerMobileHandler.swift:175-657 | No connect, disconnect or scan starts while the exchange task lives or an SDK callback is outstanding; the task's own exchange and reconnect start only with none outstanding. |
| `LedgerSystem.OneHandlerPerTransport` | ios/Runner/LedgerMobileHandler.swift:13-49 | Two handlers on one transport never both have an operation outstanding. |
| `LedgerSystem.CallsAreAnsweredOnce` | ios/Runner/LedgerMobileHandler.swift:102-156 | Every channel call is answered exactly once or held in exactly one of the three slots. |
| `LedgerSystem.AnsweredCallsStaySilent` | ios/Runner/LedgerMobileHandler.swift:888-951 | Once answered, a call is never answered again and no further command of it is sent. |
| `LedgerSystem.ClosingAnswersEverything` | ios/Runner/LedgerMobileHandler.swift:175-208 | A closing handler has answered every call it was given. |
| `LedgerSystem.CancellingAnswersAtOnce` | ios/Runner/LedgerMobileHandler.swift:888-916 | Cancelling answers the pending connect or exchange at once while the SDK callback stays outstanding. |
| `LedgerSystem.SendsForUnanswered` | ios/Runner/LedgerMobileHandler.swift:934-951 | A step sends at most one command, and only for an unanswered call. |
| `LedgerSystem.RefusedConnectNudgesOwner` | ios/Runner/LedgerMobileHandler.swift:235-280 | A connect refused because another, closing handler owns the transport starts nothing and has that owner retry its close. |
| `LedgerSystem.OthersStay` | ios/Runner/LedgerMobileHandler.swift:13-49 | An event touches no other handler, except that a closing owner of a transport asked for in vain retries its close. |
| `LedgerDrain.CancelledLinkIsNeverUsed` | ios/Runner/LedgerMobileHandler.swift:260-280 | Over every interleaving: from the step that cancels a pending connect on, until the handler sees its link down or a disconnect of it succeeds, every SDK call it starts is a drain or close disconnect. |
| `LedgerDrain.BlockedStep` | ios/Runner/LedgerMobileHandler.swift:602-616 | Any single event of a handler cut off starts nothing but a disconnect and leaves it cut off, unless it reports the link down. |
| `LedgerDrain.CancelBlocks` | ios/Runner/LedgerMobileHandler.swift:888-916 | Whatever event cancels a pending connect cuts the handler off. |
| `LedgerSafety.StepKeeps` | ios/Runner/LedgerMobileHandler.swift:102-971 | Every event keeps a handler's slots, books and exclusive starts. |
| `LedgerMeaning.ConnectIs` | ios/Runner/LedgerMobileHandler.swift:522-576 | When a connect call is refused, answered or held, and with which fields: it starts only on a free transport with no task, callback or prompt. |
| `LedgerMeaning.DisconnectIs` | ios/Runner/LedgerMobileHandler.swift:618-641 | When a disconnect call is refused, answered after cancelling, or held for a disconnect. |
| `LedgerMeaning.ExchangeIs` | ios/Runner/LedgerMobileHandler.swift:829-971 | An exchange begins exactly on a connected device whose link is up, on a free transport, with no task, callback or prompt. |
| `LedgerMeaning.StartDiscoveryIs` | ios/Runner/LedgerMobileHandler.swift:372-484 | When a scan is refused, started, put off until Bluetooth settles, or dropped. |
| `LedgerMeaning.PermissionsIs` | ios/Runner/LedgerMobileHandler.swift:345-370 | A prompt holds its call exactly while the authorization is undetermined and nothing else goes on. |
| `LedgerMeaning.CancelIs` | ios/Runner/LedgerMobileHandler.swift:888-916 | What cancelling does to the slots and generations, and whom it answers. |
| `LedgerMeaning.ConnectCallbackIs` | ios/Runner/LedgerMobileHandler.swift:578-600 | What the connect callback does while closing, after a cancellation, and otherwise; the device counts as connected only on success. |
| `LedgerMeaning.DrainCallbackIs` | ios/Runner/LedgerMobileHandler.swift:602-616 | After a drain the link stays cut off exactly if the drain failed on a live link. |
| `LedgerMeaning.CloseCallbackIs` | ios/Runner/LedgerMobileHandler.swift:222-245 | The last disconnect releases the transport unless it failed on a live link; one automatic retry is scheduled. |
| `LedgerMeaning.LinkLostIs` | ios/Runner/LedgerMobileHandler.swift:659-672 | The loss of an older link changes nothing; of the present one it disconnects the device and cancels the exchange unless the app switch expects it. |
| `LedgerMeaning.QueryDeadlineIs` | ios/Runner/LedgerMobileHandler.swift:715-731 | A query out of time is cancelled and its link marked to be retired; an outdated deadline changes nothing. |
| `LedgerMeaning.TaskEndsIs` | ios/Runner/LedgerMobileHandler.swift:844-878 | The end of a task answers its call unless answered before and retires the link of a query out of time. |
| `LedgerMeaning.CloseIs` | ios/Runner/LedgerMobileHandler.swift:175-233 | Closing answers prompt, exchange and transport call in turn, stops scanning, and finishes once no task runs. |
| `LedgerMeaning.BluetoothIs` | ios/Runner/LedgerMobileHandler.swift:282-316 | A Bluetooth state ends a settled prompt and starts, keeps or stops a scan. |
| `LedgerSafety.CancelKeeps` | ios/Runner/LedgerMobileHandler.swift:888-916 | Cancelling keeps the slots in order and answers each call it clears exactly once. |
| `LedgerSafety.FinishClosingKeeps` | ios/Runner/LedgerMobileHandler.swift:210-233 | Closing releases the transport only when nothing is outstanding on it. |
| `LedgerSafety.DrainKeeps` | ios/Runner/LedgerMobileHandler.swift:602-616 | A cancelled connection is disconnected only when no callback is outstanding. |
| `LedgerHandler.LedgerMobileHandler.HandleCall` | ios/Runner/LedgerMobileHandler.swift:102-156 | Refuses operations while a permission prompt is open, and answers every call once or holds it; cancelling answers the exchange in progress while the SDK keeps what it has; keeps the invariant. |
| `LedgerHandler.LedgerMobileHandler.HandleConnect` | ios/Runner/LedgerMobileHandler.swift:522-576 | Answers at once, or holds the call for a connect started alone on an owned, idle transport. |
| `LedgerHandler.LedgerMobileHandler.HandleDisconnect` | ios/Runner/LedgerMobileHandler.swift:618-641 | Cancels what is in progress, then answers at once or holds the call for a disconnect started alone. |
| `LedgerHandler.LedgerMobileHandler.HandleStartDiscovery` | ios/Runner/LedgerMobileHandler.swift:372-442 | Answers at once and starts at most one scan or drain, alone. |
| `LedgerHandler.LedgerMobileHandler.HandleRequestPermissions` | ios/Runner/LedgerMobileHandler.swift:345-370 | Answers at once, or holds the call while the authorization is undetermined. |
| `LedgerHandler.LedgerMobileHandler.HandleExchange` | ios/Runner/LedgerMobileHandler.swift:829-879 | Answers at once, or holds the call for a new task on a handler with nothing outstanding. |
| `LedgerHandler.LedgerMobileHandler.TransportForCall` | ios/Runner/LedgerMobileHandler.swift:260-280 | Grants a transport it then owns, neither closing nor awaiting a drain, or answers the call. |
| `LedgerHandler.LedgerMobileHandler.CancelExchangeOperation` | ios/Runner/LedgerMobileHandler.swift:888-916 | Answers the pending connect and exchange at once, outdates their generations, and leaves what the SDK has outstanding. |
| `LedgerHandler.LedgerMobileHandler.FinishConnect` | ios/Runner/LedgerMobileHandler.swift:578-598 | The connect callback answers the call held for it and leaves the slot empty, whether it then closes, drains or connects; keeps the invariant. |
| `LedgerHandler.LedgerMobileHandler.FinishDisconnect` | ios/Runner/LedgerMobileHandler.swift:643-657 | The disconnect callback answers the call held for it and leaves the slot empty; keeps the invariant. |
| `LedgerHandler.LedgerMobileHandler.DrainCancelledConnection` | ios/Runner/LedgerMobileHandler.swift:602-616 | Starts a disconnect alone, once the callback is in and the link is still up, and nothing otherwise. |
| `LedgerHandler.LedgerMobileHandler.CloseHandler` | ios/Runner/LedgerMobileHandler.swift:175-208 | Closing answers every call the handler was ever given and waits for the task before teardown; keeps the invariant. |
| `LedgerHandler.LedgerMobileHandler.FinishClosingOperation` | ios/Runner/LedgerMobileHandler.swift:210-233 | Starts a last disconnect alone, or releases a transport with nothing outstanding. |
| `LedgerHandler.LedgerMobileHandler.FinishCloseDisconnect` | ios/Runner/LedgerMobileHandler.swift:222-232 | Releases the transport unless the disconnect failed on a live link, which is retried once; keeps the invariant. |
| `LedgerHandler.LedgerMobileHandler.EndTask` | ios/Runner/LedgerMobileHandler.swift:844-878 | The end of the task leaves nobody waiting for it and at most starts the disconnect of a timed-out query, alone; keeps the invariant. |
| `LedgerHandler.LedgerMobileHandler.HandleQueryDeadline` | ios/Runner/LedgerMobileHandler.swift:717-724 | A timed-out query of the current generation is answered at once; keeps the invariant. |
| `LedgerHandler.LedgerMobileHandler.HandleDisconnected` | ios/Runner/LedgerMobileHandler.swift:659-672 | A loss of the current link answers the exchange in progress unless the app switch expects it; an outdated one changes nothing; keeps the invariant. |
| `LedgerHandler.LedgerMobileHandler.SendCommand` | ios/Runner/LedgerMobileHandler.swift:934-951 | Sends one more command, only for an unanswered call and with nothing outstanding; keeps the invariant. |
| `LedgerHandler.LedgerMobileHandler.ReceiveResponse` | ios/Runner/LedgerMobileHandler.swift:941-951 | The response leaves nothing outstanding and answers nobody; keeps the invariant. |
| `LedgerHandler.LedgerMobileHandler.StartReconnect` | ios/Runner/LedgerMobileHandler.swift:681-713 | The app switch reconnects with nothing else outstanding; keeps the invariant. |
| `LedgerHandler.LedgerMobileHandler.FinishReconnect` | ios/Runner/LedgerMobileHandler.swift:681-713 | The reconnect's end leaves nothing outstanding and answers nobody; keeps the invariant. |
| `LedgerHandler.LedgerMobileHandler.FinishDrain` | ios/Runner/LedgerMobileHandler.swift:602-616 | The drain's callback frees the slot and leaves the link cut off if and only if it failed on a live link; it starts nothing but the last disconnect of a closing handler; keeps the invariant. |
| `LedgerHandler.LedgerMobileHandler.ResumeClosing` | ios/Runner/LedgerMobileHandler.swift:196-208 | Teardown resumed after the task starts at most the last disconnect, alone; keeps the invariant. |
| `LedgerHandler.LedgerMobileHandler.RetryClosing` | ios/Runner/LedgerMobileHandler.swift:235-245 | A retried close starts at most the last disconnect, alone; keeps the invariant. |
| `LedgerHandler.LedgerMobileHandler.HandleBluetoothState` | ios/Runner/LedgerMobileHandler.swift:282-316 | A settled authorization answers the permission call; a scan starts alone or not at all; keeps the invariant. |
| `LedgerHandler.LedgerMobileHandler.HandleScanStopped` | ios/Runner/LedgerMobileHandler.swift:444-484 | The end of an outdated scan changes nothing; keeps the invariant. |
| `LedgerHandler.Deliver` | ios/Runner/LedgerMobileHandler.swift:13-49 | Any event of a handler beside any number of others on the shared registry performs its step, leaves all of them valid and no two operating on one transport, and has a closing owner in the way retry its close. |
| `LedgerHandler.TransportOwnership.Claim` | ios/Runner/LedgerMobileHandler.swift:19-28 | Claims a free or own transport, never another's. |
| `LedgerAppSwitch.OpenZcashApp` | ios/Runner/LedgerMobileHandler.swift:1190-1255 | Opens at most once; succeeds exactly if the device named the Zcash app; reconnects only a link found down and queries only one found up, within the budget and right after a passed cancellation check; throws an unexplained error at once; after the budget reports the last app named or else the last error; and makes at most as many rounds as the interval fits the budget. |
| `LedgerAppSwitch.Poll` | ios/Runner/LedgerMobileHandler.swift:1219-1250 | One round makes each kind of call at most once, ends found exactly when the device named the Zcash app, and otherwise thrown, spent or an interval later, remembering the last app and error. |
| `LedgerAppSwitch.Relink` | ios/Runner/LedgerMobileHandler.swift:1219-1229 | Reconnects exactly if a look after a passed check finds the link down. |
| `LedgerAppSwitch.Observe` | ios/Runner/LedgerMobileHandler.swift:1231-1245 | Queries exactly if a look within the budget finds the link up, and notes the app unless cancelled meanwhile. |
| `LedgerAppSwitch.TransientIs` | ios/Runner/LedgerMobileHandler.swift:1257-1279 | Waited through are exactly the two busy statuses and the eight failures of the link itself, however wrapped. |
| `LedgerAppSwitch.Caught` | ios/Runner/LedgerMobileHandler.swift:1209-1213 | An error ends the call as a cancellation or as itself unless it is transient. |
| `CoordinatorSafety.CompletionsRunOnce` | ios/Runner/MigrationPreparationNotificationCoordinator.swift:240-485 | From any persisted batch and in every interleaving each enqueue completion has run once or waits once. |
| `CoordinatorSafety.NobodyIsStranded` | ios/Runner/MigrationPreparationNotificationCoordinator.swift:430-485 | From any persisted batch, whenever callers wait, the callback of the current generation is outstanding. |
| `CoordinatorSafety.SupersededChangesNothing` | ios/Runner/MigrationPreparationNotificationCoordinator.swift:461-468 | A superseded callback answers nobody and accepts nothing. |
| `CoordinatorSafety.CurrentReplyAnswersAll` | ios/Runner/MigrationPreparationNotificationCoordinator.swift:469-485 | The current callback answers every waiting caller with its outcome. |
| `CoordinatorSafety.SubmittedMeansAccepted` | ios/Runner/MigrationPreparationNotificationCoordinator.swift:200-207 | Unless its alert is withdrawn, a caller waits for a submission that carries it and is told submitted only once it is accepted. |
| `CoordinatorSafety.CarriedUntilAnswered` | ios/Runner/MigrationPreparationNotificationCoordinator.swift:200-207 | Over any run that never withdraws its alert, a caller's alert stays carried by the current submission until one event answers the caller, truthfully. |
| `CoordinatorSafety.EnqueueCarries` | ios/Runner/MigrationPreparationNotificationCoordinator.swift:240-276 | After an enqueue of any list, each alert that no later one of the list replaced has been accepted or is carried by the current submission, for which the caller waits. |
| `CoordinatorSafety.EnqueueAnswersOrJoins` | ios/Runner/MigrationPreparationNotificationCoordinator.swift:240-276 | A caller is answered at once only if all its alerts have been accepted, and otherwise joins the waiting ones. |
| `CoordinatorSafety.EnqueueDropsExactlyWhenExpired` | ios/Runner/MigrationPreparationNotificationCoordinator.swift:119-129 | An enqueue of alerts of other keys leaves a waiting caller's alert carried exactly while the batch deadline has not passed. |
| `CoordinatorSafety.ExpiryLosesAWaitingAlert` | ios/Runner/MigrationPreparationNotificationCoordinator.swift:200-207 | Against the comment there: a caller whose alert expired with its batch is told submitted by a submission without it. |
| `CoordinatorSafety.LateCallbackReaccepts` | ios/Runner/MigrationPreparationNotificationCoordinator.swift:462-471 | A callback in flight accepts a resolved alert again exactly when another scope kept the submission current. |
| `CoordinatorSafety.LateCallbackMutesRecurrence` | ios/Runner/MigrationPreparationNotificationCoordinator.swift:278-325 | A run in which the recurrence of a resolved alert is answered as submitted although nothing carries it. |
| `CoordinatorMeaning.EnqueueIs` | ios/Runner/MigrationPreparationNotificationCoordinator.swift:240-276 | Who is told at once, who joins which submission, and when a batch expires, gets its window or is begun anew. |
| `CoordinatorMeaning.AddedIs` | ios/Runner/MigrationPreparationNotificationCoordinator.swift:65-76 | Of the alerts of a key the last one not accepted under its fingerprint is pending afterwards, else what was pending before. |
| `CoordinatorMeaning.ResolveIs` | ios/Runner/MigrationPreparationNotificationCoordinator.swift:278-325 | Resolving a scope forgets its pending alerts and its accepted fingerprints and no others, carries over a deadline still ahead, and tells everyone if nothing is left. |
| `CoordinatorMeaning.RetainIs` | ios/Runner/MigrationPreparationNotificationCoordinator.swift:327-375 | Retaining scopes forgets exactly the alerts of all others, and asks about the summary only if that changed it. |
| `CoordinatorMeaning.QueryReplyIs` | ios/Runner/MigrationPreparationNotificationCoordinator.swift:304-323 | A summary not delivered yet is replaced; of a delivered one only the deadline is forgotten. |
| `CoordinatorMeaning.AddReplyIs` | ios/Runner/MigrationPreparationNotificationCoordinator.swift:461-475 | Only the callback of the current generation tells anyone, and a success accepts exactly what its submission carried. |
| `CoordinatorMeaning.SuppressIs` | ios/Runner/MigrationPreparationNotificationCoordinator.swift:397-413 | Suppressing accepts exactly what is pending and tells everyone. |
| `CoordinatorObject.NotificationCoordinator.EnqueueAlerts` | ios/Runner/MigrationPreparationNotificationCoordinator.swift:240-276 | Answers the caller at once because all its alerts were accepted, or lets it join a submission that carries every other one; keeps the invariant. |
| `CoordinatorObject.NotificationCoordinator.SchedulePendingSummary` | ios/Runner/MigrationPreparationNotificationCoordinator.swift:430-476 | Submits what is pending under a new generation that every waiter joins. |
| `CoordinatorObject.NotificationCoordinator.ResolveScope` | ios/Runner/MigrationPreparationNotificationCoordinator.swift:278-325 | Forgets the alerts of the scope, pending and accepted, and keeps every other, an accepted fingerprint exactly if its key is not of the scope; with nothing left pending everyone waiting is told so; keeps the invariant. |
| `CoordinatorObject.NotificationCoordinator.RetainScopes` | ios/Runner/MigrationPreparationNotificationCoordinator.swift:327-375 | Keeps exactly the pending alerts of the given scopes; with none left everyone waiting is told so; keeps the invariant. |
| `CoordinatorObject.NotificationCoordinator.HandleQueryReply` | ios/Runner/MigrationPreparationNotificationCoordinator.swift:304-323 | Replaces a summary that is still pending by one that carries every alert a caller waits for; keeps the invariant. |
| `CoordinatorObject.NotificationCoordinator.HandleAddReply` | ios/Runner/MigrationPreparationNotificationCoordinator.swift:461-475 | A superseded callback changes nothing but itself; the current one accepts its alerts if it succeeded and tells every waiting caller its outcome; keeps the invariant. |
| `CoordinatorObject.NotificationCoordinator.SuppressCurrentBatch` | ios/Runner/MigrationPreparationNotificationCoordinator.swift:397-413 | Accepts every pending alert, leaves none, and tells everyone waiting; keeps the invariant. |
| `CoordinatorObject.NotificationCoordinator.ClearEverything` | ios/Runner/MigrationPreparationNotificationCoordinator.swift:415-428 | Forgets everything and tells everyone waiting that nothing was submitted; keeps the invariant. |
| `CoordinatorObject.NotificationCoordinator.FlushSubmissionCompletions` | ios/Runner/MigrationPreparationNotificationCoordinator.swift:479-485 | Answers each waiting caller once, in order. |
| `CoordinatorObject.NotificationCoordinator.ClearDeliveredSummary` | ios/Runner/MigrationPreparationNotificationCoordinator.swift:377-395 | Announces what is pending again in a fresh window, still carrying every alert a caller waits for. |
| `CoordinatorObject.NotificationCoordinator.Perform` | ios/Runner/MigrationPreparationNotificationCoordinator.swift:209-485 | Each event that can occur is one call of the object, performs the step of the theorems and keeps the invariant. |
| `WireCodec.VarintRoundTrip` | ios/Runner/NativeLightwalletdClient.swift:383-440 | Reading inverts encoding for every 64-bit value followed by any bytes. |
| `WireCodec.VarintReadsBack` | ios/Runner/NativeLightwalletdClient.swift:426-440 | The same at any position of a larger buffer. |
| `WireCodec.UnreadableVarint` | ios/Runner/NativeLightwalletdClient.swift:426-440 | Reading fails exactly when no byte within reach ends the varint. |
| `WireCodec.EncodeVarint` | ios/Runner/NativeLightwalletdClient.swift:383-393 | The loop produces the seven-bit groups, least significant first. |
| `WireCodec.ReadVarint` | ios/Runner/NativeLightwalletdClient.swift:426-440 | The loop reads the value modulo 2^64 and stops right after it, never past the payload. |
| `WireMessages.FrameRoundTrip` | ios/Runner/NativeLightwalletdClient.swift:358-407 | A framed payload comes back whatever follows the frame. |
| `WireMeaning.FrameIs` | ios/Runner/NativeLightwalletdClient.swift:358-364 | A frame byte by byte: zero, the length most significant byte first, the payload. |
| `WireMeaning.PayloadIs` | ios/Runner/NativeLightwalletdClient.swift:395-407 | A payload is cut out exactly of bytes that start uncompressed and are as long as the length in them says. |
| `WireMessages.GrpcPayload` | ios/Runner/NativeLightwalletdClient.swift:395-407 | The payload of an uncompressed, complete frame, else malformed. |
| `WireMessages.GrpcFrame` | ios/Runner/NativeLightwalletdClient.swift:358-364 | The header byte, the big-endian length, the payload. |
| `WireMessages.FieldsReadBack` | ios/Runner/NativeLightwalletdClient.swift:442-471 | Any sequence of well-formed fields reads back as itself. |
| `WireMessages.ResponsesOfFields` | ios/Runner/NativeLightwalletdClient.swift:243-356 | A framed response of any well-formed fields is read as those fields. |
| `WireMessages.RequestReadsBack` | ios/Runner/NativeLightwalletdClient.swift:366-381 | A request message reads back as its one field. |
| `WireMessages.ErrorCodesSurvive` | ios/Runner/NativeLightwalletdClient.swift:321-326 | A sign-extended 32-bit error code survives decoding. |
| `WireMeaning.LastNumberIs` | ios/Runner/NativeLightwalletdClient.swift:243-262 | A number field has the value of its last occurrence, or zero when it is absent. |
| `WireMeaning.FirstNumberIs` | ios/Runner/NativeLightwalletdClient.swift:165-188 | The first value of a field, or none exactly when it does not occur. |
| `WireMeaning.LastTextIs` | ios/Runner/NativeLightwalletdClient.swift:310-356 | A text field has its last text, or none as soon as one occurrence is no text. |
| `WireMessages.FirstHeightOfFields` | ios/Runner/NativeLightwalletdClient.swift:165-188 | The first height among well-formed fields is found whatever bytes follow, and missing when there is none. |
| `WireMessages.SkipField` | ios/Runner/NativeLightwalletdClient.swift:442-471 | Steps over exactly the value of the wire type, or fails. |
| `WireMessages.ParseTransactionResponse` | ios/Runner/NativeLightwalletdClient.swift:243-262 | The last height among the payload's fields, unknown fields ignored; malformed exactly when the payload is not a sequence of fields. |
| `WireMessages.ParseSendTransactionResponse` | ios/Runner/NativeLightwalletdClient.swift:310-356 | The last code and the last message, absent code meaning success; malformed also when any message is not text. |
| `WireMessages.ParseLatestBlockResponse` | ios/Runner/NativeLightwalletdClient.swift:165-188 | The first height of a non-empty payload. |
| `WireMessages.RawTransactionMessage` | ios/Runner/NativeLightwalletdClient.swift:366-371 | The request is field 1 with the raw transaction. |
| `WireMessages.TransactionFilterMessage` | ios/Runner/NativeLightwalletdClient.swift:373-381 | The request is field 3 with the transaction id. |

## Left out

- RunOnce: lease changes by mutators during the run are the subject of `ExecutionGate` and not repeated here; the notification metadata, the account id and the wake delay of the result are not modelled.
- RecordUncertainItem: the attempt count is unbounded; the source traps when a 32-bit count overflows.
- MarkProof: the proof-readiness markers of a batch may change to anything; how the individual proof operations set them is not modelled beyond `MarkProofReadyIfNeeded`.
- SampleDelay: the logarithm is left out; the draw is any integer, clamped as the source clamps it.
- Lowercased: folds ASCII letters only, in txids and in reply messages.
- Less: strings are ordered character by character; Unicode collation is not modelled.
- EveryScopeOnce: stated for a stable set of candidate scopes and one endpoint filter, because the cursor is shared across endpoints.
- WaitUntilIdle: the sections other threads take while one waits are a finite list; if it ends before the gate is idle the method says so.
- EnsureFirstUnlockThisDeviceOnly: one access group; the store's own decoding errors count as a failed read.
- Clear: a successful deletion empties the service; synchronizable twins of an item are not distinguished.
- HandleCall: discovery results, error mapping, argument decoding and the settings calls are reduced to an immediate answer.
- SendCommand: the contents of command sequences and the pause after a signature are not modelled; any command may follow while the task is not cancelled.
- ScheduleRetry: asking another handler to retry its close is returned as a flag by the class and carried out by `Deliver` and in `LedgerSystem`.
- OpenZcashApp: clock reads, connection reads and cancellation reads take no time.
- Scheduled: the generation is unbounded where the source wraps at 64 bits; the content and trigger time of the alert are not modelled.
- GrpcFrame: a payload of 4 GiB or more, on which the source traps, is excluded.
- ParseSendTransactionResponse: UTF-8 decoding is a parameter.
- `hasBatch`, `nextActionAccountUuid` and the cadence of wake-ups: pure reads with no bearing on the protocol.
- AES-GCM, JSON, files and the key store: the store is a snapshot that is read and written whole or not at all.
- Dart argument decoding of the outbox channel beyond the shape of the decoded batch.
- Preparation manager, background scheduling, Tor and release tooling: platform plumbing and small decision tables.
