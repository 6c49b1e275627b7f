/** The outbox as a step system: atomic store updates by channel calls and by
    the runner's select / send / record phases, interleaved at will, with
    crashes, failing store writes and arbitrary network replies. */
module OutboxProtocol {
  import opened Base
  import opened OutboxTypes
  import opened OutboxTransitions
  import opened OutboxInvariant

  /** What the system is parameterised by: the digest of a payload, and which
      batch each item id belongs to. */
  datatype Config = Config(hash: Bytes -> string, owner: Owner)

  /** The store updates made outside a run. */
  datatype Mutation =
    | StageBatch(batch: Batch)
    | Arm(batchId: string, digests: map<string, string>, at: Date)
    | Recover(batchId: string, network: string, account: string, runId: string, expected: set<string>, url: string,
              at: Date)
    | DiscardBatch(batchId: string)
    | AcknowledgeReceipts(receiptIds: set<string>)
    | AcknowledgeAnnouncement(batchId: string, at: Date)
    | RevokeScope(network: string, account: string)
    | MarkProof(batchId: string, proofPending: Option<Date>, proofNotified: Option<Date>,
                noticePending: Option<Date>, noticed: Option<Date>)
    | RemoveAll

  function WithProofMarkers(b: Batch, m: Mutation): Batch
    requires m.MarkProof?
  {
    b.(proofPending := m.proofPending, proofNotified := m.proofNotified, noticePending := m.noticePending,
       noticed := m.noticed)
  }

  /** The snapshot a mutation would write, or the error that leaves it as it is. */
  function Mutate(s: Snapshot, m: Mutation, cfg: Config): Result<Snapshot, Error> {
    match m
    case StageBatch(batch) => Stage(s, batch, cfg.hash)
    case Arm(batchId, digests, at) => ArmBatch(s, batchId, digests, at)
    case Recover(batchId, network, account, runId, expected, url, at) =>
      var r := RecoverBatch(s, batchId, network, account, runId, expected, url, at);
      if r.Failure? then Failure(r.error) else Success(r.value.0)
    case DiscardBatch(batchId) =>
      var r := Discard(s, batchId);
      if r.Failure? then Failure(r.error) else Success(r.value.0)
    case AcknowledgeReceipts(ids) => Success(Acknowledge(s, ids))
    case AcknowledgeAnnouncement(batchId, at) => AcknowledgeSent(s, batchId, at)
    case RevokeScope(network, account) => Success(Revoke(s, network, account))
    case MarkProof(batchId, _, _, _, _) =>
      var bi := BatchIndex(s.batches, batchId);
      if bi.None? then Failure(BatchNotFound)
      else Success(WithBatch(s, bi.value, WithProofMarkers(s.batches[bi.value], m)))
    case RemoveAll => Success(EMPTY)
  }

  /** The runner's second update: settle what expired, select, validate, begin. */
  function Choose(s: Snapshot, endpoint: string, height: UInt64, now: Date, attemptId: string, verify: bool)
    : Result<(Snapshot, Option<Selection>), Error>
  {
    var swept := MarkNeedingResign(ExpireItems(s, height, endpoint, now), height, endpoint, now);
    var marked := if verify then swept else MarkProofReady(swept, height, endpoint, now);
    var (picked, sel) := SelectDue(marked, Some(endpoint), height, now);
    if sel.None? then Success((picked, None))
    else
      var id := sel.value.item.itemId;
      var valid := ValidateRescheduling(picked, id, height);
      if valid.Failure? then Failure(valid.error)
      else
        var begun := BeginSubmission(picked, id, attemptId, now);
        if begun.Failure? then Failure(begun.error) else Success((begun.value, sel))
  }

  datatype Reply = Failed(error: string) | Replied(code: int, message: string, equivalent: bool)

  predicate AcceptedReply(r: Reply) { r.Replied? && (r.code == 0 || r.equivalent) }

  /** The runner's last update: record what the network said. */
  function Record(s: Snapshot, sel: Selection, height: UInt64, now: Date, reply: Reply, rank: nat -> int,
                  draws: nat -> int): Result<Snapshot, Error>
  {
    match reply
    case Failed(error) => RecordUncertain(s, sel.item.itemId, error, now)
    case Replied(code, message, _) =>
      if AcceptedReply(reply) then
        var r := RecordAccepted(s, sel.item.itemId, code != 0, height, code, message, now, rank, draws);
        if r.Failure? then r else Success(MarkSent(r.value, sel.batchId, now).0)
      else RecordRejected(s, sel.item.itemId, height, code, message, now)
  }

  /** A selection in flight. `live`: its record has been stored ever since it
      was selected. `quiet`: its batch was not armed or recovered since. The
      last two describe the selection and are only used to state theorems. */
  datatype Attempt = Attempt(sel: Selection, height: UInt64, now: Date, live: bool, quiet: bool, paused: set<string>)

  datatype Phase = Idle | Inspected(endpoint: string, now: Date) | Chosen(attempt: Attempt) | Sending(attempt: Attempt)

  /** One payload handed to the transport, by which run. */
  datatype Sent = Sent(run: nat, attempt: Attempt)

  /** The stored snapshot and the phase of the runner, with the history the
      theorems speak of: payloads sent, stored records ever handed to the
      transport, batches paused by a terminal outcome, and bytes ever staged. */
  datatype System = System(
    store: Snapshot, phase: Phase, run: nat, wire: seq<Sent>, handed: set<Key>, paused: set<string>,
    staged: set<(Key, Bytes)>)

  const INITIAL := System(EMPTY, Idle, 0, [], {}, {}, {})

  /** In every update `persisted` says whether reading and writing the store
      succeeded; an update that throws or does not persist changes nothing. */
  datatype Event =
    | Change(mutation: Mutation, persisted: bool)
    | Begin(now: Date, persisted: bool)
    | Select(height: UInt64, attemptId: string, verify: bool, persisted: bool)
    | CancelBeforeSubmission(error: string, persisted: bool)
    | Send
    | Finish(reply: Reply, rank: nat -> int, draws: nat -> int, persisted: bool)
    | Stop

  function SelectedKey(sel: Selection): Key { (sel.batchId, sel.item.itemId) }

  function BatchBytes(b: Batch): set<(Key, Bytes)> {
    set it | it in b.items :: ((b.batchId, it.itemId), it.raw)
  }

  /** Batches for which `s'` holds a terminal receipt that `s` did not. */
  function NewlyPaused(s: Snapshot, s': Snapshot): set<string> {
    set r | r in s'.receipts && r !in s.receipts && Terminal(r.outcome) :: r.batchId
  }

  function StillLive(a: Attempt, s: Snapshot): Attempt {
    a.(live := a.live && Lookup(s, SelectedKey(a.sel)).Some?)
  }

  /** Writes `s'` and brings the history up to date with it. */
  function Written(y: System, s': Snapshot): System {
    y.(store := s',
       handed := (set k | k in y.handed && Lookup(s', k).Some?),
       paused := y.paused + NewlyPaused(y.store, s'),
       phase := match y.phase
                case Chosen(a) => Chosen(StillLive(a, s'))
                case Sending(a) => Sending(StillLive(a, s'))
                case other => other)
  }

  function Disturbed(p: Phase, batchId: string): Phase {
    match p
    case Chosen(a) => if a.sel.batchId == batchId then Chosen(a.(quiet := false)) else p
    case Sending(a) => if a.sel.batchId == batchId then Sending(a.(quiet := false)) else p
    case other => p
  }

  function Changed(y: System, m: Mutation, s': Snapshot): System {
    var w := Written(y, s');
    match m
    case StageBatch(batch) => w.(staged := w.staged + BatchBytes(batch))
    case Arm(batchId, _, _) => w.(paused := w.paused - {batchId}, phase := Disturbed(w.phase, batchId))
    case Recover(batchId, _, _, _, _, _, _) =>
      w.(paused := w.paused - {batchId}, phase := Disturbed(w.phase, batchId))
    case other => w
  }

  function SelectedTo(y: System, height: UInt64, r: Result<(Snapshot, Option<Selection>), Error>): System
    requires y.phase.Inspected?
  {
    if r.Failure? then y.(phase := Idle)
    else
      var w := Written(y, r.value.0);
      w.(phase := if r.value.1.None? then Idle
                  else Chosen(Attempt(r.value.1.value, height, y.phase.now, true, true, w.paused)))
  }

  function FinishedTo(y: System, r: Result<Snapshot, Error>): System {
    (if r.Success? then Written(y, r.value) else y).(phase := Idle)
  }

  function Apply(y: System, e: Event, cfg: Config): System {
    match e
    case Change(m, persisted) =>
      var r := Mutate(y.store, m, cfg);
      if persisted && r.Success? then Changed(y, m, r.value) else y
    case Begin(now, persisted) =>
      if !y.phase.Idle? then y
      else if !persisted then y.(run := y.run + 1)
      else
        var (s', endpoint) := NextEndpoint(RecoverInterrupted(y.store, now));
        Written(y, s').(run := y.run + 1,
                        phase := if endpoint.Some? then Inspected(endpoint.value, now) else Idle)
    case Select(height, attemptId, verify, persisted) =>
      if !y.phase.Inspected? then y
      else if !persisted then y.(phase := Idle)
      else SelectedTo(y, height, Choose(y.store, y.phase.endpoint, height, y.phase.now, attemptId, verify))
    case CancelBeforeSubmission(error, persisted) =>
      if !y.phase.Chosen? then y
      else if !persisted then y.(phase := Idle)
      else FinishedTo(y, RecordCancelled(y.store, y.phase.attempt.sel.item.itemId, error))
    case Send =>
      if !y.phase.Chosen? then y
      else
        var a := y.phase.attempt;
        y.(phase := Sending(a), wire := y.wire + [Sent(y.run, a)],
           handed := if a.live then y.handed + {SelectedKey(a.sel)} else y.handed)
    case Finish(reply, rank, draws, persisted) =>
      if !y.phase.Sending? then y
      else if !persisted then y.(phase := Idle)
      else
        var a := y.phase.attempt;
        FinishedTo(y, Record(y.store, a.sel, a.height, a.now, reply, rank, draws))
    case Stop => y.(phase := Idle)
  }

  /** What the channel can stage: unarmed batches whose item ids are their own. */
  predicate Admissible(e: Event, cfg: Config) {
    e.Change? && e.mutation.StageBatch? ==>
      e.mutation.batch.armedAt.None?
      && forall it :: it in e.mutation.batch.items ==> cfg.owner(it.itemId) == e.mutation.batch.batchId
  }

  predicate AllAdmissible(events: seq<Event>, cfg: Config) {
    forall i :: 0 <= i < |events| ==> Admissible(events[i], cfg)
  }

  /** The system after a whole run of events. */
  function Run(y: System, events: seq<Event>, cfg: Config): System {
    if events == [] then y else Apply(Run(y, events[..|events| - 1], cfg), events[|events| - 1], cfg)
  }
}
