/** The store, whose updates load, change and write back the snapshot, and the
    runner, whose one run is verified to be a run of the step system. */
module OutboxRunner {
  import opened Base
  import opened OutboxTypes
  import opened OutboxTransitions
  import opened OutboxProtocol
  import opened OutboxSnapshot
  import opened OutboxInvariant
  import opened OutboxSelection
  import opened OutboxReachable
  import opened OutboxMeaning
  import opened OutboxReplies
  import G = ExecutionGate
  import P = OutboxProtocol

  // --------------------------------------------------------------- the store

  /** What the file system and the keychain do during one update. A write can
      fail before or after the new contents reached the file. */
  datatype Access = Works | ReadFails(temporary: bool) | WriteFails(temporary: bool, written: bool)

  datatype UpdateError = StoreFailed(temporary: bool) | Refused(error: Error)

  predicate Persists(access: Access) { access.Works? || (access.WriteFails? && access.written) }

  /** How an update ends whose mutation would yield `r`. */
  function Answer<T>(access: Access, r: Result<T, Error>): Result<T, UpdateError> {
    if access.ReadFails? then Failure(StoreFailed(access.temporary))
    else if r.Failure? then Failure(Refused(r.error))
    else if access.WriteFails? then Failure(StoreFailed(access.temporary))
    else Success(r.value)
  }

  /** The stored contents after an update whose mutation yields `r`. */
  function Kept(s: Snapshot, access: Access, r: Result<Snapshot, Error>): Snapshot {
    if Persists(access) && r.Success? then r.value else s
  }

  function Snapshots<T>(r: Result<(Snapshot, T), Error>): Result<Snapshot, Error> {
    if r.Failure? then Failure(r.error) else Success(r.value.0)
  }

  function Values<T>(r: Result<(Snapshot, T), Error>): Result<T, Error> {
    if r.Failure? then Failure(r.error) else Success(r.value.1)
  }

  class OutboxStore {
    var stored: Snapshot

    constructor ()
      ensures stored == EMPTY
    {
      stored := EMPTY;
    }

    /** Writes `snapshot` back, as far as the store lets it. */
    method Save(snapshot: SnapshotObject, access: Access) returns (r: Result<(), UpdateError>)
      requires !access.ReadFails?
      modifies this
      ensures stored == Kept(old(stored), access, Success(old(snapshot.Value())))
      ensures r == Answer(access, Success(()))
    {
      if Persists(access) { stored := snapshot.Value(); }
      if access.WriteFails? { return Failure(StoreFailed(access.temporary)); }
      return Success(());
    }

    /** An update by a channel call. */
    method Change(m: Mutation, access: Access, cfg: Config) returns (r: Result<(), UpdateError>)
      modifies this
      ensures stored == Kept(old(stored), access, Mutate(old(stored), m, cfg))
      ensures r.Success? <==> access.Works? && Mutate(old(stored), m, cfg).Success?
    {
      hide Discard, AcknowledgeSent;
      if access.ReadFails? { return Failure(StoreFailed(access.temporary)); }
      var snapshot := new SnapshotObject(stored);
      var done: Result<(), Error> := Success(());
      match m {
        case StageBatch(batch) => done := snapshot.StageBatch(batch, cfg.hash);
        case Arm(batchId, digests, at) => done := snapshot.ArmBatch(batchId, digests, at);
        case Recover(batchId, network, account, runId, expected, url, at) =>
          var found := snapshot.RecoverBatch(batchId, network, account, runId, expected, url, at);
          if found.Failure? { done := Failure(found.error); }
        case DiscardBatch(batchId) =>
          var found := snapshot.DiscardBatch(batchId);
          if found.Failure? { done := Failure(found.error); }
        case AcknowledgeReceipts(ids) => snapshot.AcknowledgeReceipts(ids);
        case AcknowledgeAnnouncement(batchId, at) => done := snapshot.AcknowledgeBroadcastComplete(batchId, at);
        case RevokeScope(network, account) => snapshot.RevokeScope(network, account);
        case MarkProof(batchId, _, _, _, _) =>
          var bi := BatchIndex(snapshot.batches, batchId);
          if bi.None? {
            done := Failure(BatchNotFound);
          } else {
            snapshot.batches := snapshot.batches[bi.value := WithProofMarkers(snapshot.batches[bi.value], m)];
          }
        case RemoveAll => snapshot := new SnapshotObject(EMPTY);
      }
      if done.Failure? { return Failure(Refused(done.error)); }
      r := Save(snapshot, access);
    }

    method InspectNext(now: Date, access: Access) returns (r: Result<Option<string>, UpdateError>)
      modifies this
      ensures var next := NextEndpoint(RecoverInterrupted(old(stored), now));
              stored == Kept(old(stored), access, Success(next.0)) && r == Answer(access, Success(next.1))
    {
      if access.ReadFails? { return Failure(StoreFailed(access.temporary)); }
      var snapshot := new SnapshotObject(stored);
      snapshot.RecoverInterruptedSubmissions(now);
      var endpoint := snapshot.NextEndpointForInspection();
      var saved := Save(snapshot, access);
      return if saved.Failure? then Failure(saved.error) else Success(endpoint);
    }

    method ChooseNext(endpoint: string, height: UInt64, now: Date, attemptId: string, verify: bool, access: Access)
      returns (r: Result<Option<Selection>, UpdateError>)
      modifies this
      ensures var c := Choose(old(stored), endpoint, height, now, attemptId, verify);
              stored == Kept(old(stored), access, Snapshots(c)) && r == Answer(access, Values(c))
    {
      hide SelectDue;
      if access.ReadFails? { return Failure(StoreFailed(access.temporary)); }
      var snapshot := new SnapshotObject(stored);
      snapshot.ExpireItems(height, endpoint, now);
      snapshot.MarkDueItemsNeedingResign(height, endpoint, now);
      if !verify { var _ := snapshot.MarkProofReadyIfNeeded(height, endpoint, now); }
      var selected := snapshot.SelectDueItem(Some(endpoint), height, now);
      if selected.Some? {
        var valid := snapshot.ValidateReschedulingAfterAcceptance(selected.value.item.itemId, height);
        if valid.Failure? { return Failure(Refused(valid.error)); }
        var begun := snapshot.BeginItem(selected.value.item.itemId, attemptId, now);
        if begun.Failure? { return Failure(Refused(begun.error)); }
      }
      var saved := Save(snapshot, access);
      return if saved.Failure? then Failure(saved.error) else Success(selected);
    }

    method CancelSelected(itemId: string, error: string, access: Access)
      modifies this
      ensures stored == Kept(old(stored), access, RecordCancelled(old(stored), itemId, error))
    {
      if access.ReadFails? { return; }
      var snapshot := new SnapshotObject(stored);
      var done := snapshot.RecordCancelledBeforeSubmission(itemId, error);
      if done.Success? { var _ := Save(snapshot, access); }
    }

    /** Records the reply to a payload. */
    method RecordReply(sel: Selection, height: UInt64, now: Date, response: SendReply, rank: nat -> int,
                       draws: nat -> int, access: Access) returns (r: Result<(), UpdateError>)
      modifies this
      ensures var done := Record(old(stored), sel, height, now, ReplyOf(response), rank, draws);
              stored == Kept(old(stored), access, done)
              && r == Answer(access, if done.Failure? then Failure(done.error) else Success(()))
      ensures r.Success? ==> ReplyStored(old(stored), stored, sel, height, now, response)
    {
      hide ReplyStored, RecordAccepted, RecordRejected, RecordUncertain, IsAcceptedEquivalent;
      RecordingIs(stored, sel, height, now, response, rank, draws);
      if access.ReadFails? { return Failure(StoreFailed(access.temporary)); }
      var snapshot := new SnapshotObject(stored);
      var done: Result<(), Error>;
      match response {
        case SendFailed(_, description) => done := snapshot.RecordUncertainItem(sel.item.itemId, description, now);
        case Responded(code, message) =>
          if code == 0 || IsAcceptedEquivalent(message) {
            done := snapshot.RecordAcceptedItem(sel.item.itemId, code != 0, height, code, message, now, rank, draws);
            if done.Success? { var _ := snapshot.MarkBroadcastCompleteIfNeeded(sel.batchId, now); }
          } else {
            done := snapshot.RecordRejectedItem(sel.item.itemId, height, code, message, now);
          }
      }
      if done.Failure? { return Failure(Refused(done.error)); }
      r := Save(snapshot, access);
    }
  }

  // --------------------------------------------------------------- the runner

  datatype Interruption = Interruption(mutation: Mutation, access: Access)

  datatype HeightReply = Height(height: UInt64) | HeightFailed(cancelled: bool)

  /** Everything one run reads from outside: the clock, the cancellation flag
      at its three checks, the replies of the server, randomness, what the
      store does, and the updates other callers make while the run waits. */
  datatype Environment = Environment(
    now: Date, verify: bool, attemptId: string,
    cancelledAtStart: bool, cancelledAfterHeight: bool, cancelledBeforeSend: bool,
    height: HeightReply, reply: SendReply, rank: nat -> int, draws: nat -> int,
    inspecting: Access, choosing: Access, recording: Access,
    duringHeight: seq<Interruption>, beforeSend: seq<Interruption>, duringSend: seq<Interruption>)

  datatype Outcome =
    | NoWork | Waiting(nextHeight: UInt64) | Delivered(endpoint: string, next: Option<UInt64>) | NeedsUserAction
    | TemporarilyUnavailable | Cancelled

  /** The server connection, with every payload handed to it. */
  class Lightwalletd {
    var sent: seq<(string, Bytes)>

    constructor ()
      ensures sent == []
    {
      sent := [];
    }

    method SendTransaction(url: string, raw: Bytes, reply: SendReply) returns (r: SendReply)
      modifies this
      ensures sent == old(sent) + [(url, raw)] && r == reply
    {
      sent := sent + [(url, raw)];
      return reply;
    }
  }

  function Payloads(wire: seq<Sent>): seq<(string, Bytes)> {
    seq(|wire|, i requires 0 <= i < |wire| => (wire[i].attempt.sel.url, wire[i].attempt.sel.item.raw))
  }

  // ------------------------------------------------ following the step system

  /** `y` is where `events` lead from `y0`. */
  ghost predicate Reaches(y0: P.System, events: seq<P.Event>, y: P.System, cfg: Config) {
    y == P.Run(y0, events, cfg) && AllAdmissible(events, cfg)
  }

  lemma Extended(y0: P.System, events: seq<P.Event>, y: P.System, e: P.Event, cfg: Config)
    requires Reaches(y0, events, y, cfg) && Admissible(e, cfg)
    ensures Reaches(y0, events + [e], Apply(y, e, cfg), cfg)
  {
    assert (events + [e])[..|events|] == events;
  }

  /** The same phase, up to what other updates did to the selected record. */
  predicate SamePhase(p: Phase, q: Phase) {
    match (p, q)
    case (Chosen(a), Chosen(b)) => a.(live := b.live, quiet := b.quiet) == b
    case (Sending(a), Sending(b)) => a.(live := b.live, quiet := b.quiet) == b
    case (_, _) => p == q
  }

  predicate AdmissibleAll(changes: seq<Interruption>, cfg: Config) {
    forall i :: 0 <= i < |changes| ==> Admissible(P.Change(changes[i].mutation, true), cfg)
  }

  method InterleaveOne(store: OutboxStore, c: Interruption, cfg: Config, ghost y0: P.System,
                       ghost before: seq<P.Event>, ghost y: P.System)
    returns (ghost events: seq<P.Event>, ghost y': P.System)
    requires Reaches(y0, before, y, cfg) && y.store == store.stored
    requires Admissible(P.Change(c.mutation, true), cfg)
    modifies store
    ensures Reaches(y0, events, y', cfg) && y'.store == store.stored
    ensures SamePhase(y.phase, y'.phase) && y'.wire == y.wire
  {
    var _ := store.Change(c.mutation, c.access, cfg);
    ghost var e := P.Change(c.mutation, Persists(c.access));
    Extended(y0, before, y, e, cfg);
    ChangeFollows(y, c.mutation, c.access, cfg);
    events, y' := before + [e], Apply(y, e, cfg);
  }

  lemma ChangeFollows(y: P.System, m: Mutation, access: Access, cfg: Config)
    ensures var y' := Apply(y, P.Change(m, Persists(access)), cfg);
            && y'.store == Kept(y.store, access, Mutate(y.store, m, cfg))
            && SamePhase(y.phase, y'.phase) && y'.wire == y.wire
  {
    hide Mutate, BatchIndex, BatchBytes, Choose, Record;
  }

  /** Other callers' updates, one after the other. */
  method Interleave(store: OutboxStore, changes: seq<Interruption>, cfg: Config, ghost y0: P.System,
                    ghost before: seq<P.Event>, ghost y: P.System)
    returns (ghost events: seq<P.Event>, ghost y': P.System)
    requires Reaches(y0, before, y, cfg) && y.store == store.stored && AdmissibleAll(changes, cfg)
    modifies store
    ensures Reaches(y0, events, y', cfg) && y'.store == store.stored
    ensures SamePhase(y.phase, y'.phase) && y'.wire == y.wire
    ensures changes == [] ==> y' == y
  {
    events, y' := before, y;
    for n := 0 to |changes|
      invariant Reaches(y0, events, y', cfg) && y'.store == store.stored
      invariant SamePhase(y.phase, y'.phase) && y'.wire == y.wire
      invariant n == 0 ==> y' == y
    {
      assert Admissible(P.Change(changes[n].mutation, true), cfg);
      events, y' := InterleaveOne(store, changes[n], cfg, y0, events, y');
    }
  }

  lemma FinishFollows(y: P.System, sel: Selection, height: UInt64, env: Environment, reply: Reply, cfg: Config)
    requires y.phase.Sending? && y.phase.attempt.sel == sel && y.phase.attempt.height == height
             && y.phase.attempt.now == env.now
    ensures var y' := Apply(y, P.Finish(reply, env.rank, env.draws, Persists(env.recording)), cfg);
            && y'.store == Kept(y.store, env.recording, Record(y.store, sel, height, env.now, reply, env.rank, env.draws))
            && y'.phase.Idle? && y'.wire == y.wire
  {
  }

  /** A receipt of a delivery at `height` of the selected item, by this reply. */
  ghost predicate ReportsDelivery(r: Receipt, sel: Selection, height: UInt64, response: SendReply) {
    && r.itemId == sel.item.itemId && r.remoteHeight == height
    && response.Responded? && (response.code == 0 || SaysKnown(response.message))
    && r.outcome == (if response.code == 0 then Accepted else AcceptedEquivalent)
    && r.responseCode == Some(response.code) && r.responseMessage == Some(response.message)
  }

  ghost predicate DeliveryRecorded(s: Snapshot, sent: seq<(string, Bytes)>, y: P.System, height: UInt64,
                                   response: SendReply)
  {
    && |y.wire| > 0 && |sent| > 0 && |s.receipts| > 0
    && var sel := y.wire[|y.wire| - 1].attempt.sel;
       sent[|sent| - 1] == (sel.url, sel.item.raw)
       && ReportsDelivery(s.receipts[|s.receipts| - 1], sel, height, response)
  }

  lemma StoredDelivery(s: Snapshot, s': Snapshot, sel: Selection, height: UInt64, now: Date, response: SendReply)
    requires ReplyStored(s, s', sel, height, now, response) && response.Responded?
    requires response.code == 0 || SaysKnown(response.message)
    ensures s'.receipts != [] && ReportsDelivery(s'.receipts[|s'.receipts| - 1], sel, height, response)
  {
    hide SaysKnown, AcceptedTo, MarksSent;
  }

  /** Whether the reply to the attempt in flight is certain to be recorded. */
  ghost predicate Recordable(y: P.System, cfg: Config) {
    && SystemInv(y, cfg) && y.phase.Sending? && y.phase.attempt.live && y.phase.attempt.quiet
    && InFlight(y.store, y.phase.attempt.sel, cfg.owner)
    && y.phase.attempt.height + 69_120 < 0x1_0000_0000_0000_0000
  }

  /** Records what the server said about the attempt in flight. */
  method Conclude(store: OutboxStore, height: UInt64, sel: Selection, response: SendReply, env: Environment, cfg: Config,
                  ghost y0: P.System, ghost before: seq<P.Event>, ghost y: P.System)
    returns (saved: Result<(), UpdateError>, ghost events: seq<P.Event>, ghost y': P.System)
    requires Reaches(y0, before, y, cfg) && y.store == store.stored && y.phase.Sending?
    requires y.phase.attempt.sel == sel && y.phase.attempt.height == height && y.phase.attempt.now == env.now
    modifies store
    ensures Reaches(y0, events, y', cfg) && y'.store == store.stored && y'.phase.Idle? && y'.wire == y.wire
    ensures saved.Success? ==> ReplyStored(y.store, y'.store, sel, height, env.now, response)
    ensures Recordable(y, cfg) && env.recording.Works? ==>
              saved.Success? && Reported(y'.store, sel, height, response)
  {
    hide Record, Recordable, ReplyStored, ReplyOf, Reported;
    saved := store.RecordReply(sel, height, env.now, response, env.rank, env.draws, env.recording);
    ghost var e := P.Finish(ReplyOf(response), env.rank, env.draws, Persists(env.recording));
    FinishFollows(y, sel, height, env, ReplyOf(response), cfg);
    Extended(y0, before, y, e, cfg);
    events, y' := before + [e], Apply(y, e, cfg);
    if Recordable(y, cfg) { RecordsWhenSending(y, height, sel, response, env, cfg); }
  }

  lemma RecordsWhenSending(y: P.System, height: UInt64, sel: Selection, response: SendReply, env: Environment, cfg: Config)
    requires Recordable(y, cfg)
    requires y.phase.attempt.sel == sel && y.phase.attempt.height == height && y.phase.attempt.now == env.now
    ensures var done := Record(y.store, sel, height, env.now, ReplyOf(response), env.rank, env.draws);
            done.Success? && Reported(done.value, sel, height, response)
  {
    RecordedIsReported(y.store, sel, height, env.now, response, env.rank, env.draws, cfg.owner);
    if response.Responded? && (response.code == 0 || SaysKnown(response.message)) {
      CanonicalExpiryIs(height);
      KnownIff(response.message);
      SendingIsRecordable(y, cfg, response.code != 0, response.code, response.message, env.rank, env.draws);
      hide RecordAccepted;
    }
  }

  /** How a run ends whose payload got this reply, recorded in full. */
  ghost predicate EndsWith(outcome: Outcome, response: SendReply) {
    match response
    case SendFailed(cancelled, _) => outcome == if cancelled then Cancelled else TemporarilyUnavailable
    case Responded(code, message) =>
      if code == 0 || SaysKnown(message) then outcome.Delivered? else outcome == NeedsUserAction
  }

  /** Sends the selected payload and records the reply. */
  method Submit(store: OutboxStore, transport: Lightwalletd, endpoint: string, height: UInt64, sel: Selection,
                env: Environment, cfg: Config, ghost y0: P.System, ghost before: seq<P.Event>, ghost chosen: P.System)
    returns (outcome: Outcome, ghost events: seq<P.Event>, ghost y: P.System)
    requires Reaches(y0, before, chosen, cfg) && chosen.store == store.stored && chosen.phase.Chosen?
    requires chosen.phase.attempt.sel == sel && chosen.phase.attempt.height == height
             && chosen.phase.attempt.now == env.now
    requires AdmissibleAll(env.duringSend, cfg)
    modifies store, transport
    ensures Reaches(y0, events, y, cfg) && y.store == store.stored && y.phase.Idle?
    ensures y.wire == chosen.wire + [Sent(chosen.run, chosen.phase.attempt)]
    ensures transport.sent == old(transport.sent) + [(sel.url, sel.item.raw)]
    ensures outcome.Delivered? ==> DeliveryRecorded(store.stored, transport.sent, y, height, env.reply)
                                   && outcome == Delivered(endpoint, NextActionHeight(store.stored, endpoint))
    ensures !outcome.NoWork? && !outcome.Waiting?
    ensures outcome.Delivered? || env.reply.SendFailed? ==> EndsWith(outcome, env.reply)
    ensures Recordable(Apply(chosen, P.Send, cfg), cfg) && env.duringSend == [] && env.recording.Works?
            ==> EndsWith(outcome, env.reply) && Reported(store.stored, sel, height, env.reply)
  {
    hide SystemInv, Mutate, Run, ReplyStored, Reported, SaysKnown, IsAcceptedEquivalent, Recordable, ReportsDelivery;
    y := Apply(chosen, P.Send, cfg);
    Extended(y0, before, chosen, P.Send, cfg);
    events := before + [P.Send];
    var response := transport.SendTransaction(sel.url, sel.item.raw, env.reply);
    events, y := Interleave(store, env.duringSend, cfg, y0, events, y);
    ghost var sending := y;
    var saved;
    saved, events, y := Conclude(store, height, sel, response, env, cfg, y0, events, y);
    match response {
      case SendFailed(cancelled, _) => outcome := if cancelled then Cancelled else TemporarilyUnavailable;
      case Responded(code, message) =>
        KnownIff(message);
        if saved.Failure? {
          outcome := FailureOutcome(saved.error);
        } else if code == 0 || IsAcceptedEquivalent(message) {
          outcome := Delivered(endpoint, NextActionHeight(store.stored, endpoint));
          StoredDelivery(sending.store, y.store, sel, height, env.now, response);
        } else {
          outcome := NeedsUserAction;
        }
    }
  }

  /** The first update: recover what an earlier run left, pick an endpoint. */
  method Inspect(store: OutboxStore, env: Environment, cfg: Config, ghost y0: P.System)
    returns (found: Result<Option<string>, UpdateError>, ghost events: seq<P.Event>, ghost y: P.System)
    requires y0.store == store.stored && y0.phase.Idle?
    modifies store
    ensures Reaches(y0, events, y, cfg) && y.store == store.stored && y.wire == y0.wire
    ensures found == Answer(env.inspecting, Success(NextEndpoint(RecoverInterrupted(y0.store, env.now)).1))
    ensures found.Success? ==> y.store == NextEndpoint(RecoverInterrupted(y0.store, env.now)).0
    ensures found.Success? && found.value.Some? ==> y.phase == Inspected(found.value.value, env.now)
  {
    found := store.InspectNext(env.now, env.inspecting);
    ghost var e := Begin(env.now, Persists(env.inspecting));
    Extended(y0, [], y0, e, cfg);
    events, y := [] + [e], Apply(y0, e, cfg);
  }

  /** The second update: settle what expired, select an item, begin it. */
  method Pick(store: OutboxStore, endpoint: string, height: UInt64, env: Environment, cfg: Config, ghost y0: P.System,
              ghost before: seq<P.Event>, ghost y: P.System)
    returns (picked: Result<Option<Selection>, UpdateError>, ghost events: seq<P.Event>, ghost y': P.System)
    requires Reaches(y0, before, y, cfg) && y.store == store.stored && y.phase == Inspected(endpoint, env.now)
    modifies store
    ensures Reaches(y0, events, y', cfg) && y'.store == store.stored && y'.wire == y.wire
    ensures var c := Choose(y.store, endpoint, height, env.now, env.attemptId, env.verify);
            picked == Answer(env.choosing, Values(c)) && y'.store == Kept(y.store, env.choosing, Snapshots(c))
    ensures picked.Success? && picked.value.Some? ==>
              FreshAttempt(y', picked.value.value, height, env.now)
              && (SystemInv(y, cfg) ==> InFlight(y'.store, picked.value.value, cfg.owner))
  {
    hide Apply, InFlight, Choose, SystemInv;
    picked := store.ChooseNext(endpoint, height, env.now, env.attemptId, env.verify, env.choosing);
    ghost var e := Select(height, env.attemptId, env.verify, Persists(env.choosing));
    Extended(y0, before, y, e, cfg);
    SelectFollows(y, height, env, cfg);
    events, y' := before + [e], Apply(y, e, cfg);
  }

  /** An attempt just selected, its record stored and its batch undisturbed. */
  predicate FreshAttempt(y: P.System, sel: Selection, height: UInt64, now: Date) {
    y.phase.Chosen? && y.phase.attempt == Attempt(sel, height, now, true, true, y.phase.attempt.paused)
  }

  lemma SelectFollows(y: P.System, height: UInt64, env: Environment, cfg: Config)
    requires y.phase.Inspected? && y.phase.now == env.now
    ensures var c := Choose(y.store, y.phase.endpoint, height, env.now, env.attemptId, env.verify);
            var y' := Apply(y, Select(height, env.attemptId, env.verify, Persists(env.choosing)), cfg);
            && y'.store == Kept(y.store, env.choosing, Snapshots(c)) && y'.wire == y.wire
            && (env.choosing.Works? && c.Success? && c.value.1.Some? ==>
                  FreshAttempt(y', c.value.1.value, height, env.now)
                  && (SystemInv(y, cfg) ==> InFlight(y'.store, c.value.1.value, cfg.owner)))
  {
    hide Choose, Inv, Lookup;
    var c := Choose(y.store, y.phase.endpoint, height, env.now, env.attemptId, env.verify);
    if c.Success? && c.value.1.Some? && SystemInv(y, cfg) {
      ChooseBegins(y.store, y.phase.endpoint, height, env.now, env.attemptId, env.verify, cfg.owner);
    }
  }

  const CANCELLED_BEFORE_SUBMISSION := "Background execution expired before submission."

  method Withdraw(store: OutboxStore, sel: Selection, env: Environment, cfg: Config, ghost y0: P.System,
                  ghost before: seq<P.Event>, ghost y: P.System)
    returns (ghost events: seq<P.Event>, ghost y': P.System)
    requires Reaches(y0, before, y, cfg) && y.store == store.stored
    requires y.phase.Chosen? && y.phase.attempt.sel == sel
    modifies store
    ensures Reaches(y0, events, y', cfg) && y'.store == store.stored && y'.phase.Idle? && y'.wire == y.wire
  {
    store.CancelSelected(sel.item.itemId, CANCELLED_BEFORE_SUBMISSION, env.recording);
    ghost var e := CancelBeforeSubmission(CANCELLED_BEFORE_SUBMISSION, Persists(env.recording));
    Extended(y0, before, y, e, cfg);
    events, y' := before + [e], Apply(y, e, cfg);
  }

  /** Whatever ended the run early, the next one starts from an idle runner. */
  ghost method Leave(cfg: Config, y0: P.System, before: seq<P.Event>, y: P.System)
    returns (events: seq<P.Event>, y': P.System)
    requires Reaches(y0, before, y, cfg)
    ensures Reaches(y0, events, y', cfg) && y'.store == y.store && y'.phase.Idle? && y'.wire == y.wire
  {
    Extended(y0, before, y, Stop, cfg);
    events, y' := before + [Stop], Apply(y, Stop, cfg);
  }

  function WaitingOutcome(s: Snapshot, endpoint: string, height: UInt64): Outcome {
    if exists r :: r in s.receipts && r.outcome in {Expired, NeedsResign} && r.remoteHeight == height then NeedsUserAction
    else
      var next := NextActionHeight(s, endpoint);
      if next.Some? then Waiting(next.value) else NoWork
  }

  function FailureOutcome(e: UpdateError): Outcome {
    if e == StoreFailed(true) then TemporarilyUnavailable else NeedsUserAction
  }

  /** How the outcome of a run relates to what it sent and stored: at most one
      payload goes out, exactly those of the step system's wire; a delivery is
      reported only with the reply that tells of it and its receipt stored;
      waiting means nothing was sent. */
  ghost predicate Accounted(outcome: Outcome, s: Snapshot, sentBefore: seq<(string, Bytes)>, sent: seq<(string, Bytes)>,
                            y0: P.System, y: P.System, env: Environment)
  {
    && y.store == s && y.phase.Idle?
    && (y.wire == y0.wire || (|y.wire| == |y0.wire| + 1 && y0.wire == y.wire[..|y0.wire|]))
    && sent == sentBefore + Payloads(y.wire[|y0.wire|..])
    && (outcome.NoWork? || outcome.Waiting? ==> y.wire == y0.wire)
    && (outcome.Waiting? ==> exists endpoint :: NextActionHeight(s, endpoint) == Some(outcome.nextHeight))
    && (outcome.Delivered? ==> |y.wire| == |y0.wire| + 1 && outcome.next == NextActionHeight(s, outcome.endpoint)
                               && DeliveryRecorded(s, sent, y, y.wire[|y0.wire|].attempt.height, env.reply))
    && (env.cancelledAtStart || env.height.HeightFailed? || env.cancelledAfterHeight || env.cancelledBeforeSend
        ==> y.wire == y0.wire)
  }

  /** Nothing stands between the reply to a payload and its record. */
  predicate Unhindered(env: Environment) {
    && env.beforeSend == [] && env.duringSend == [] && env.recording.Works?
    && (env.height.Height? ==> env.height.height + 69_120 < 0x1_0000_0000_0000_0000)
  }

  predicate Undisturbed(env: Environment) {
    && !env.cancelledAtStart && !env.cancelledAfterHeight && !env.cancelledBeforeSend
    && env.inspecting.Works? && env.choosing.Works? && env.height.Height? && env.duringHeight == []
  }

  /** The outcome of a run that found nothing to send: the user is needed if
      something expired at this height, else the next height to act at. */
  ghost predicate Waits(outcome: Outcome, s: Snapshot, endpoint: string, height: UInt64) {
    if exists r :: r in s.receipts && (r.outcome == Expired || r.outcome == NeedsResign) && r.remoteHeight == height
    then outcome == NeedsUserAction
    else
      match NextActionHeight(s, endpoint)
      case None => outcome == NoWork
      case Some(next) => outcome == Waiting(next)
  }

  lemma WaitingIs(s: Snapshot, endpoint: string, height: UInt64)
    ensures Waits(WaitingOutcome(s, endpoint, height), s, endpoint, height)
  {
    hide NextActionHeight;
  }

  /** How a run ends before its selection update, if it does. */
  function EndsEarly(env: Environment, s: Snapshot): Option<Outcome> {
    if env.cancelledAtStart then Some(Cancelled)
    else if env.inspecting != Works then Some(if env.inspecting.temporary then TemporarilyUnavailable else NeedsUserAction)
    else if NextEndpoint(RecoverInterrupted(s, env.now)).1 == None then Some(NoWork)
    else if env.height.HeightFailed? then Some(if env.height.cancelled then Cancelled else TemporarilyUnavailable)
    else if env.cancelledAfterHeight then Some(Cancelled)
    else if env.choosing.ReadFails? then Some(if env.choosing.temporary then TemporarilyUnavailable else NeedsUserAction)
    else None
  }

  /** An undisturbed run sends what the selection update picks, and only that. */
  ghost predicate Proceeds(outcome: Outcome, y0: P.System, y: P.System, env: Environment)
    requires env.height.Height?
  {
    var (s1, endpoint) := NextEndpoint(RecoverInterrupted(y0.store, env.now));
    if endpoint.None? then outcome == NoWork && y.wire == y0.wire && y.store == s1
    else
      match Choose(s1, endpoint.value, env.height.height, env.now, env.attemptId, env.verify)
      case Failure(_) => outcome == NeedsUserAction && y.wire == y0.wire && y.store == s1
      case Success((s2, None)) => y.wire == y0.wire && y.store == s2 && Waits(outcome, s2, endpoint.value, env.height.height)
      case Success((s2, Some(sel))) =>
        |y.wire| == |y0.wire| + 1 && y.wire[|y0.wire|].attempt.sel == sel
        && y.wire[|y0.wire|].attempt.height == env.height.height
        && (outcome.Delivered? ==> outcome.endpoint == endpoint.value)
  }

  /** The run sent a payload, ended as the reply to it says, and stored that reply. */
  ghost predicate Followed(outcome: Outcome, y0: P.System, y: P.System, env: Environment) {
    && |y.wire| > |y0.wire| && env.height.Height? && EndsWith(outcome, env.reply)
    && Reported(y.store, y.wire[|y0.wire|].attempt.sel, env.height.height, env.reply)
  }

  lemma OnePayload(wire: seq<Sent>, sent: Sent)
    ensures var after := wire + [sent];
            && after[..|wire|] == wire && after[|wire|] == sent
            && Payloads(after[|wire|..]) == [(sent.attempt.sel.url, sent.attempt.sel.item.raw)]
  {
    assert (wire + [sent])[|wire|..] == [sent];
  }

  /** The run from the selection on: withdraw if cancelled, else submit. */
  method Deliver(store: OutboxStore, transport: Lightwalletd, endpoint: string, height: UInt64, sel: Selection,
                 env: Environment, cfg: Config, ghost y0: P.System, ghost before: seq<P.Event>, ghost chosen: P.System)
    returns (outcome: Outcome, ghost events: seq<P.Event>, ghost y: P.System)
    requires Reaches(y0, before, chosen, cfg) && chosen.store == store.stored && chosen.wire == y0.wire
    requires FreshAttempt(chosen, sel, height, env.now) && env.height == Height(height)
    requires SystemInv(y0, cfg) ==> SystemInv(chosen, cfg) && InFlight(chosen.store, sel, cfg.owner)
    requires !env.cancelledAtStart && !env.cancelledAfterHeight
    requires AdmissibleAll(env.beforeSend, cfg) && AdmissibleAll(env.duringSend, cfg)
    modifies store, transport
    ensures Reaches(y0, events, y, cfg)
    ensures Accounted(outcome, store.stored, old(transport.sent), transport.sent, y0, y, env)
    ensures if env.cancelledBeforeSend then outcome == Cancelled
            else |y.wire| == |y0.wire| + 1 && y.wire[|y0.wire|].attempt.sel == sel
                 && y.wire[|y0.wire|].attempt.height == height && (outcome.Delivered? ==> outcome.endpoint == endpoint)
    ensures SystemInv(y0, cfg) && Unhindered(env) && y.wire != y0.wire ==> Followed(outcome, y0, y, env)
  {
    hide Lookup, Mutate;
    hide SystemInv, EndsWith, Reported, ReportsDelivery;
    ghost var ready;
    events, ready := Interleave(store, env.beforeSend, cfg, y0, before, chosen);
    if env.cancelledBeforeSend {
      events, y := Withdraw(store, sel, env, cfg, y0, events, ready);
      outcome := Cancelled;
      assert Payloads(y.wire[|y0.wire|..]) == [];
    } else {
      outcome, events, y := Submit(store, transport, endpoint, height, sel, env, cfg, y0, events, ready);
      OnePayload(y0.wire, Sent(ready.run, ready.phase.attempt));
      if SystemInv(y0, cfg) && env.beforeSend == [] {
        SendKeeps(chosen, cfg);
      }
    }
  }

  /** A run that the gate admitted. */
  method RunAdmitted(store: OutboxStore, transport: Lightwalletd, env: Environment, cfg: Config, ghost y0: P.System)
    returns (outcome: Outcome, ghost events: seq<P.Event>, ghost y: P.System)
    requires y0.store == store.stored && y0.phase.Idle?
    requires AdmissibleAll(env.duringHeight, cfg) && AdmissibleAll(env.beforeSend, cfg) && AdmissibleAll(env.duringSend, cfg)
    modifies store, transport
    ensures Reaches(y0, events, y, cfg)
    ensures Accounted(outcome, store.stored, old(transport.sent), transport.sent, y0, y, env)
    ensures env.cancelledAtStart ==> y == y0
    ensures EndsEarly(env, y0.store).Some? ==> outcome == EndsEarly(env, y0.store).value && y.wire == y0.wire
    ensures Undisturbed(env) ==> Proceeds(outcome, y0, y, env)
    ensures SystemInv(y0, cfg) && Unhindered(env) && y.wire != y0.wire ==> Followed(outcome, y0, y, env)
  {
    hide Apply, Choose, RecoverInterrupted, NextEndpoint, SystemInv, Followed, DeliveryRecorded, InFlight, Waits,
         Mutate, Unhindered, NextActionHeight;
    events, y := [], y0;
    assert Reaches(y0, events, y, cfg);
    hide Run;
    assert Payloads(y0.wire[|y0.wire|..]) == [];
    if env.cancelledAtStart { return Cancelled, events, y; }
    var found;
    found, events, y := Inspect(store, env, cfg, y0);
    if found.Failure? || found.value.None? {
      events, y := Leave(cfg, y0, events, y);
      return if found.Failure? then FailureOutcome(found.error) else NoWork, events, y;
    }
    events, y := Interleave(store, env.duringHeight, cfg, y0, events, y);
    if env.height.HeightFailed? || env.cancelledAfterHeight {
      events, y := Leave(cfg, y0, events, y);
      return if env.height.HeightFailed? && !env.height.cancelled then TemporarilyUnavailable else Cancelled, events, y;
    }
    var endpoint, height := found.value.value, env.height.height;
    if SystemInv(y0, cfg) { RunKeepsInv(y0, events, cfg); }
    var picked;
    picked, events, y := Pick(store, endpoint, height, env, cfg, y0, events, y);
    if picked.Failure? || picked.value.None? {
      events, y := Leave(cfg, y0, events, y);
      WaitingIs(store.stored, endpoint, height);
      return if picked.Failure? then FailureOutcome(picked.error) else WaitingOutcome(store.stored, endpoint, height),
             events, y;
    }
    if SystemInv(y0, cfg) { RunKeepsInv(y0, events, cfg); }
    outcome, events, y := Deliver(store, transport, endpoint, height, picked.value.value, env, cfg, y0, events, y);
  }

  /** One run of the outbox. It is a run of the step system from the stored
      state, so everything proved of all its runs holds of what is sent and
      stored here; it sends at most one payload, none once cancelled, and, left
      alone, just what the selection picks; and nobody but the gate's holder
      runs. From a state of the step system, if nothing interrupts the delivery,
      the reply to what was sent decides the outcome and what is stored. */
  method RunOnce(store: OutboxStore, gate: G.ExecutionGate, transport: Lightwalletd, env: Environment, cfg: Config,
                 ghost runner: nat, ghost y0: P.System)
    returns (outcome: Outcome, ghost events: seq<P.Event>, ghost y: P.System)
    requires y0.store == store.stored && y0.phase.Idle?
    requires AdmissibleAll(env.duringHeight, cfg) && AdmissibleAll(env.beforeSend, cfg) && AdmissibleAll(env.duringSend, cfg)
    modifies store, gate, transport
    ensures Reaches(y0, events, y, cfg)
    ensures Accounted(outcome, store.stored, old(transport.sent), transport.sent, y0, y, env)
    ensures !G.Admits(old(gate.State())) ==>
              outcome == TemporarilyUnavailable && y == y0 && gate.State() == old(gate.State())
    ensures G.Admits(old(gate.State())) ==> G.Admits(gate.State())
    ensures G.Admits(old(gate.State())) && EndsEarly(env, y0.store).Some? ==>
              outcome == EndsEarly(env, y0.store).value && y.wire == y0.wire
    ensures G.Admits(old(gate.State())) && Undisturbed(env) ==> Proceeds(outcome, y0, y, env)
    ensures SystemInv(y0, cfg) && Unhindered(env) && y.wire != y0.wire ==> Followed(outcome, y0, y, env)
  {
    hide SystemInv, Followed, DeliveryRecorded, Proceeds, EndsEarly;
    var admitted := gate.TryBeginRun(runner);
    if !admitted {
      assert Payloads(y0.wire[|y0.wire|..]) == [];
      return TemporarilyUnavailable, [], y0;
    }
    outcome, events, y := RunAdmitted(store, transport, env, cfg, y0);
    gate.FinishRun(runner);
  }

  /** Over a whole sequence of runs and other updates that starts from an empty
      store, every payload handed over was due and staged as sent, no run sent
      two, and the store keeps the invariant of the step system. */
  lemma RunsCompose(past: seq<P.Event>, y0: P.System, events: seq<P.Event>, y: P.System, cfg: Config, i: nat)
    requires Reaches(P.INITIAL, past, y0, cfg) && Reaches(y0, events, y, cfg) && i < |y.wire|
    ensures Reaches(P.INITIAL, past + events, y, cfg) && SystemInv(y, cfg)
    ensures var a := y.wire[i].attempt;
            && Payloads(y.wire)[i] == (a.sel.url, a.sel.item.raw)
            && a.sel.item.status == Armed && a.sel.item.scheduled <= a.height < a.sel.item.expiry
            && (a.sel.item.nextAttemptAt == None || a.sel.item.nextAttemptAt.value <= a.now)
            && (a.height + 69_120 < 0x1_0000_0000_0000_0000 ==>
                  a.sel.item.expiry % 34_560 == 0 && a.height + 34_560 < a.sel.item.expiry <= a.height + 69_120)
            && a.sel.batchId !in a.paused
            && exists n :: 0 <= n < |past + events|
                           && StagedBy(past + events, n, SelectedKey(a.sel), a.sel.item.raw, cfg)
  {
    RunConcat(P.INITIAL, past, events, cfg);
    EveryRunIsSafe(past + events, cfg);
    EverySentPayloadWasDue(past + events, cfg, i);
  }
}
