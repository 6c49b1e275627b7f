/** The records of the migration outbox: signed transactions grouped in
    batches, delivery receipts, and the stored snapshot that holds both. */
module OutboxTypes {
  import opened Base

  datatype Error =
    | InvalidBatch | ConflictingBatch | BatchNotFound | ItemNotFound
    | InvalidArmRequest | InvalidTransition | InvalidSchedule

  datatype Status =
    | Staged | Armed | Submitting
    | AcceptedAwaiting | RejectedAwaiting | ExpiredAwaiting | NeedsResignAwaiting

  datatype Outcome = Accepted | AcceptedEquivalent | Rejected | Expired | NeedsResign

  datatype Item = Item(
    itemId: string, partIndex: nat, txid: string, raw: Bytes, digest: string,
    anchor: UInt64, scheduled: UInt64, scheduleStart: UInt64, expiry: UInt64,
    status: Status, attemptCount: nat, attemptId: Option<string>,
    attemptStartedAt: Option<Date>, nextAttemptAt: Option<Date>, lastError: Option<string>)

  datatype Batch = Batch(
    batchId: string, network: string, account: string, runId: string, url: string,
    mean: UInt64, max: UInt64, createdAt: Date, armedAt: Option<Date>,
    nextProof: Option<UInt64>, proofPending: Option<Date>, proofNotified: Option<Date>,
    noticePending: Option<Date>, noticed: Option<Date>,
    sentPending: Option<Date>, sentNotified: Option<Date>, items: seq<Item>)

  datatype ScheduleUpdate = ScheduleUpdate(itemId: string, scheduled: UInt64, scheduleStart: UInt64)

  datatype Receipt = Receipt(
    receiptId: string, batchId: string, itemId: string, network: string, account: string,
    runId: string, txid: string, outcome: Outcome, remoteHeight: UInt64,
    responseCode: Option<int>, responseMessage: Option<string>, recordedAt: Date,
    updates: seq<ScheduleUpdate>)

  /** What the store file holds. `announced` is empty where the source has nil. */
  datatype Snapshot = Snapshot(
    batches: seq<Batch>, receipts: seq<Receipt>, lastScope: Option<string>,
    lastEndpoint: Option<string>, announced: seq<string>)

  const EMPTY := Snapshot([], [], None, None, [])

  datatype Selection = Selection(batchId: string, account: string, scope: string, url: string, item: Item)

  function ScopeKey(b: Batch): string { b.network + ":" + b.account }

  predicate AwaitsProofAnnouncement(b: Batch) {
    b.proofNotified.None?
    && (b.proofPending.Some? || b.noticed.None? || b.noticePending.Some?)
  }

  predicate Awaiting(st: Status) {
    st in {AcceptedAwaiting, RejectedAwaiting, ExpiredAwaiting, NeedsResignAwaiting}
  }

  function StatusOf(o: Outcome): (st: Status)
    ensures Awaiting(st)
  {
    match o
    case Accepted => AcceptedAwaiting
    case AcceptedEquivalent => AcceptedAwaiting
    case Rejected => RejectedAwaiting
    case Expired => ExpiredAwaiting
    case NeedsResign => NeedsResignAwaiting
  }

  predicate Terminal(o: Outcome) { o.Rejected? || o.Expired? || o.NeedsResign? }

  function OutcomeName(o: Outcome): string {
    match o
    case Accepted => "accepted"
    case AcceptedEquivalent => "acceptedEquivalent"
    case Rejected => "rejected"
    case Expired => "expired"
    case NeedsResign => "needsResign"
  }
}
