/** The invariant of the whole outbox protocol and the theorems it yields for
    every run: what may be sent, what stays reported, what stays reconciled,
    and that an acceptance can always be recorded. */
module OutboxReachable {
  import opened Base
  import opened OutboxTypes
  import opened OutboxTransitions
  import opened OutboxRescheduling
  import opened OutboxInvariant
  import opened OutboxOperations
  import opened OutboxPeers
  import opened OutboxSafety
  import opened OutboxSelection
  import opened OutboxProtocol
  import opened OutboxMeaning

  // ------------------------------------------------------------ the invariant

  ghost predicate AttemptsKept(s: Snapshot, handed: set<Key>) {
    forall k :: k in handed ==> Lookup(s, k).Some? && Evidence(Lookup(s, k).value)
  }

  ghost predicate ArmedAreUnpaused(s: Snapshot, paused: set<string>) {
    forall id :: ArmedIn(s, id) ==> id !in paused
  }

  ghost predicate BytesAreStaged(s: Snapshot, staged: set<(Key, Bytes)>) {
    forall k :: Lookup(s, k).Some? ==> (k, Lookup(s, k).value.raw) in staged
  }

  ghost predicate StoreInv(y: System, cfg: Config) {
    Inv(y.store, cfg.owner) && AttemptsKept(y.store, y.handed) && ArmedAreUnpaused(y.store, y.paused)
    && BytesAreStaged(y.store, y.staged)
  }

  /** The selection an attempt was made for met every sending condition. */
  predicate GoodAttempt(a: Attempt, staged: set<(Key, Bytes)>, owner: Owner) {
    && owner(a.sel.item.itemId) == a.sel.batchId
    && Due(a.sel.item, a.height, a.now)
    && (CanonicalExpiry(a.height).Some? ==> a.sel.item.expiry == CanonicalExpiry(a.height).value)
    && a.sel.batchId !in a.paused
    && (SelectedKey(a.sel), a.sel.item.raw) in staged
  }

  ghost predicate OnlySubmitting(s: Snapshot, k: Key) {
    forall k' :: Lookup(s, k').Some? && Lookup(s, k').value.status.Submitting? ==> k' == k
  }

  ghost predicate NoneSubmitting(s: Snapshot) {
    forall k :: Lookup(s, k).Some? ==> !Lookup(s, k).value.status.Submitting?
  }

  ghost predicate AttemptInv(s: Snapshot, a: Attempt, staged: set<(Key, Bytes)>, owner: Owner) {
    var k := SelectedKey(a.sel);
    && GoodAttempt(a, staged, owner)
    && OnlySubmitting(s, k)
    && (a.live ==> Lookup(s, k).Some? && Evidence(Lookup(s, k).value))
    && (!a.live ==> NoneSubmitting(s))
    && (a.live && a.quiet ==> Lookup(s, k).value.status.Submitting? && HasRoom(s, a.sel, a.height))
  }

  /** A record handed over in an earlier run has been counted since. */
  ghost predicate CountedIfHanded(s: Snapshot, handed: set<Key>, k: Key) {
    k in handed ==> Lookup(s, k).Some? && Lookup(s, k).value.attemptCount > 0
  }

  ghost predicate PhaseInv(y: System, cfg: Config) {
    match y.phase
    case Idle => true
    case Inspected(_, _) => NoneSubmitting(y.store)
    case Chosen(a) => AttemptInv(y.store, a, y.staged, cfg.owner) && CountedIfHanded(y.store, y.handed, SelectedKey(a.sel))
    case Sending(a) => AttemptInv(y.store, a, y.staged, cfg.owner)
  }

  ghost predicate WireInv(y: System, cfg: Config) {
    && (forall i :: 0 <= i < |y.wire| ==> y.wire[i].run <= y.run && GoodAttempt(y.wire[i].attempt, y.staged, cfg.owner))
    && (forall i, j :: 0 <= i < j < |y.wire| ==> y.wire[i].run < y.wire[j].run)
    && (y.phase.Inspected? || y.phase.Chosen? ==> forall i :: 0 <= i < |y.wire| ==> y.wire[i].run < y.run)
  }

  ghost predicate SystemInv(y: System, cfg: Config) {
    StoreInv(y, cfg) && PhaseInv(y, cfg) && WireInv(y, cfg)
  }

  // --------------------------------------------------------- mutation events

  lemma MergedBytes(s: Snapshot, b: Batch, cfg: Config, bi: nat, i: nat, j: nat)
    requires Inv(s, cfg.owner) && Stageable(b, cfg.hash) && bi < |s.batches|
    requires var s' := WithBatch(s, bi, Merged(s.batches[bi], b));
             && i < |s'.batches| && j < |s'.batches[i].items|
             && Lookup(s, (s'.batches[i].batchId, s'.batches[i].items[j].itemId)).None?
    ensures i == bi && WithBatch(s, bi, Merged(s.batches[bi], b)).batches[i].items[j] in b.items
  {
    var e := s.batches[bi];
    MergedItems(e, b, cfg.hash);
    if i != bi || j < |e.items| { FoundByKey(s, cfg.owner, i, j); }
    var added := NewItems(e.items, b.items);
    assert added[j - |e.items|] in added;
  }

  /** Only staging brings new records, and those carry the bytes it staged. */
  lemma StagedBytes(s: Snapshot, b: Batch, cfg: Config, k: Key)
    requires Inv(s, cfg.owner) && Stage(s, b, cfg.hash).Success?
    requires Lookup(s, k).None? && Lookup(Stage(s, b, cfg.hash).value, k).Some?
    ensures (k, Lookup(Stage(s, b, cfg.hash).value, k).value.raw) in BatchBytes(b)
  {
    var s' := Stage(s, b, cfg.hash).value;
    var i, j := KeyPosition(s', k);
    var bi := BatchIndex(s.batches, b.batchId);
    if bi.Some? {
      MergedBytes(s, b, cfg, bi.value, i, j);
    } else if i < |s.batches| {
      FoundByKey(s, cfg.owner, i, j);
    } else {
      assert b.items[j] in b.items;
    }
  }

  lemma ChangeKeepsStore(y: System, m: Mutation, cfg: Config)
    requires StoreInv(y, cfg) && Mutate(y.store, m, cfg).Success? && Admissible(Change(m, true), cfg)
    ensures StoreInv(Changed(y, m, Mutate(y.store, m, cfg).value), cfg)
  {
    var s' := Mutate(y.store, m, cfg).value;
    var y' := Changed(y, m, s');
    MutationKeepsInv(y.store, m, cfg);
    MutationAddsNoReceipt(y.store, m, cfg);
    forall id | ArmedIn(s', id) ensures id !in y'.paused {
      if !ArmsOrRecovers(m, id) { MutationArms(y.store, m, cfg, id); }
    }
    forall k | Lookup(s', k).Some? ensures (k, Lookup(s', k).value.raw) in y'.staged {
      if m.StageBatch? && Lookup(y.store, k).None? { StagedBytes(y.store, m.batch, cfg, k); }
    }
  }

  lemma RoomSurvives(s: Snapshot, s': Snapshot, a: Attempt)
    requires HasRoom(s, a.sel, a.height) && Undisturbed(s, s', SelectedKey(a.sel)) && Lookup(s', SelectedKey(a.sel)).Some?
    ensures HasRoom(s', a.sel, a.height)
  {
    if CanonicalExpiry(a.height).Some? {
      FewerPeersKeepRoom(BatchOf(s, a.sel.batchId).value.items, BatchOf(s', a.sel.batchId).value.items,
                         a.sel.item.itemId, a.height);
    }
  }

  lemma ChangeKeepsAttempt(y: System, m: Mutation, a: Attempt, cfg: Config)
    requires StoreInv(y, cfg) && Mutate(y.store, m, cfg).Success? && Admissible(Change(m, true), cfg)
    requires AttemptInv(y.store, a, y.staged, cfg.owner)
    ensures var s' := Mutate(y.store, m, cfg).value;
            var quiet := a.quiet && !ArmsOrRecovers(m, a.sel.batchId);
            AttemptInv(s', StillLive(a, s').(quiet := quiet), Changed(y, m, s').staged, cfg.owner)
  {
    var s' := Mutate(y.store, m, cfg).value;
    var k := SelectedKey(a.sel);
    MutationKeepsInv(y.store, m, cfg);
    if a.live && a.quiet && !ArmsOrRecovers(m, a.sel.batchId) && Lookup(s', k).Some? {
      MutationUndisturbed(y.store, m, cfg, k);
      RoomSurvives(y.store, s', a);
    }
  }

  lemma EvolvingKeepsCount(s: Snapshot, s': Snapshot, handed: set<Key>, k: Key)
    requires Evolves(s, s') && CountedIfHanded(s, handed, k)
    ensures CountedIfHanded(s', (set k' | k' in handed && Lookup(s', k').Some?), k)
    ensures NoneSubmitting(s) ==> NoneSubmitting(s')
  {
  }

  lemma ChangeKeepsPhase(y: System, m: Mutation, cfg: Config)
    requires StoreInv(y, cfg) && PhaseInv(y, cfg)
    requires Mutate(y.store, m, cfg).Success? && Admissible(Change(m, true), cfg)
    ensures PhaseInv(Changed(y, m, Mutate(y.store, m, cfg).value), cfg)
  {
    var s' := Mutate(y.store, m, cfg).value;
    var y' := Changed(y, m, s');
    match y.phase
    case Idle =>
    case Inspected(_, _) =>
      assert NoneSubmitting(s') by {
        MutationKeepsInv(y.store, m, cfg);
        EvolvingKeepsCount(y.store, s', {}, ("", ""));
      }
    case Chosen(a) =>
      ChangeKeepsAttempt(y, m, a, cfg);
      assert y'.phase == Chosen(StillLive(a, s').(quiet := a.quiet && !ArmsOrRecovers(m, a.sel.batchId)));
      assert CountedIfHanded(s', y'.handed, SelectedKey(a.sel)) by {
        MutationKeepsInv(y.store, m, cfg);
        EvolvingKeepsCount(y.store, s', y.handed, SelectedKey(a.sel));
      }
    case Sending(a) =>
      ChangeKeepsAttempt(y, m, a, cfg);
      assert y'.phase == Sending(StillLive(a, s').(quiet := a.quiet && !ArmsOrRecovers(m, a.sel.batchId)));
  }

  lemma ChangeKeeps(y: System, m: Mutation, cfg: Config)
    requires SystemInv(y, cfg) && Mutate(y.store, m, cfg).Success? && Admissible(Change(m, true), cfg)
    ensures SystemInv(Changed(y, m, Mutate(y.store, m, cfg).value), cfg)
  {
    hide Mutate;
    ChangeKeepsStore(y, m, cfg);
    ChangeKeepsPhase(y, m, cfg);
  }

  // ----------------------------------------------------------- runner events

  /** A runner update that keeps every record and pauses what it must. */
  lemma KeepingStoreInv(y: System, s': Snapshot, cfg: Config)
    requires StoreInv(y, cfg) && Inv(s', cfg.owner) && KeepsRecords(y.store, s') && PausesKept(y.store, s')
    ensures StoreInv(Written(y, s'), cfg)
  {
  }

  lemma BeginKeeps(y: System, now: Date, cfg: Config)
    requires SystemInv(y, cfg) && y.phase.Idle?
    ensures SystemInv(Apply(y, Begin(now, true), cfg), cfg)
  {
    hide InspectionRing, Mutate, Record;
    var r := RecoverInterrupted(y.store, now);
    var s' := NextEndpoint(r).0;
    RecoverInterruptedKeepsInv(y.store, now, cfg.owner);
    AmendFields(r, s', cfg.owner);
    SameLookups(r, s', cfg.owner);
    SameArming(y.store, s');
    KeepingStoreInv(y, s', cfg);
  }

  lemma BegunKeepsStore(y: System, s': Snapshot, sel: Selection, cfg: Config)
    requires StoreInv(y, cfg) && Inv(s', cfg.owner) && PausesKept(y.store, s') && BegunRecords(y.store, s', sel)
    ensures StoreInv(Written(y, s'), cfg)
  {
  }

  lemma BegunAttempt(y: System, s': Snapshot, sel: Selection, height: UInt64, now: Date, cfg: Config)
    requires StoreInv(y, cfg) && NoneSubmitting(y.store) && StoreInv(Written(y, s'), cfg)
    requires SoundSelection(s', sel, height, now, cfg.owner) && BegunRecords(y.store, s', sel) && HasRoom(s', sel, height)
    ensures AttemptInv(s', Attempt(sel, height, now, true, true, Written(y, s').paused), y.staged, cfg.owner)
    ensures CountedIfHanded(s', y.handed, SelectedKey(sel))
  {
    assert (SelectedKey(sel), Lookup(s', SelectedKey(sel)).value.raw) in y.staged;
    assert Lookup(y.store, SelectedKey(sel)).Some?;
  }

  lemma SelectedToKeeps(y: System, height: UInt64, s': Snapshot, selected: Option<Selection>, cfg: Config)
    requires SystemInv(y, cfg) && y.phase.Inspected?
    requires Inv(s', cfg.owner) && PausesKept(y.store, s')
    requires selected.None? ==> KeepsRecords(y.store, s')
    requires selected.Some? ==>
               SoundSelection(s', selected.value, height, y.phase.now, cfg.owner)
               && BegunRecords(y.store, s', selected.value) && HasRoom(s', selected.value, height)
    ensures SystemInv(SelectedTo(y, height, Success((s', selected))), cfg)
  {
    hide Lookup;
    if selected.None? {
      KeepingStoreInv(y, s', cfg);
    } else {
      BegunKeepsStore(y, s', selected.value, cfg);
      BegunAttempt(y, s', selected.value, height, y.phase.now, cfg);
    }
  }

  lemma SelectKeeps(y: System, height: UInt64, attemptId: string, verify: bool, cfg: Config)
    requires SystemInv(y, cfg) && y.phase.Inspected?
    ensures SystemInv(SelectedTo(y, height, Choose(y.store, y.phase.endpoint, height, y.phase.now, attemptId, verify)), cfg)
  {
    hide Choose;
    var r := Choose(y.store, y.phase.endpoint, height, y.phase.now, attemptId, verify);
    if r.Success? {
      if r.value.1.None? {
        ChooseNothing(y.store, y.phase.endpoint, height, y.phase.now, attemptId, verify, cfg.owner);
      } else {
        ChooseBegins(y.store, y.phase.endpoint, height, y.phase.now, attemptId, verify, cfg.owner);
      }
      SelectedToKeeps(y, height, r.value.0, r.value.1, cfg);
    }
  }

  lemma CancelKeepsStore(y: System, error: string, cfg: Config)
    requires StoreInv(y, cfg) && PhaseInv(y, cfg) && y.phase.Chosen?
    requires RecordCancelled(y.store, y.phase.attempt.sel.item.itemId, error).Success?
    ensures StoreInv(Written(y, RecordCancelled(y.store, y.phase.attempt.sel.item.itemId, error).value), cfg)
  {
    hide FirstIndex, Lookup;
    var id := y.phase.attempt.sel.item.itemId;
    CancelledKeepsInv(y.store, id, error, cfg.owner);
    SameArming(y.store, RecordCancelled(y.store, id, error).value);
  }

  /** Cancelling before the transport call un-counts nothing: the record was
      either never handed over or counted by an earlier run. */
  lemma CancelKeeps(y: System, error: string, cfg: Config)
    requires SystemInv(y, cfg) && y.phase.Chosen?
    ensures SystemInv(FinishedTo(y, RecordCancelled(y.store, y.phase.attempt.sel.item.itemId, error)), cfg)
  {
    var r := RecordCancelled(y.store, y.phase.attempt.sel.item.itemId, error);
    if r.Success? { CancelKeepsStore(y, error, cfg); }
    FinishedToKeeps(y, r, cfg);
  }

  lemma SendKeeps(y: System, cfg: Config)
    requires SystemInv(y, cfg) && y.phase.Chosen?
    ensures SystemInv(Apply(y, Send, cfg), cfg)
  {
    hide Inv, Lookup, Mutate;
    var y' := Apply(y, Send, cfg);
    assert PhaseInv(y', cfg);
    assert WireInv(y', cfg);
    assert AttemptsKept(y'.store, y'.handed);
  }

  lemma UncertainKeepsStore(y: System, itemId: string, error: string, at: Date, cfg: Config)
    requires StoreInv(y, cfg) && RecordUncertain(y.store, itemId, error, at).Success?
    ensures StoreInv(Written(y, RecordUncertain(y.store, itemId, error, at).value), cfg)
  {
    var s' := RecordUncertain(y.store, itemId, error, at).value;
    UncertainKeepsInv(y.store, itemId, error, at, cfg.owner);
    SameArming(y.store, s');
    KeepingStoreInv(y, s', cfg);
  }

  lemma RejectedKeepsStore(y: System, itemId: string, height: UInt64, code: int, message: string, at: Date, cfg: Config)
    requires StoreInv(y, cfg) && RecordRejected(y.store, itemId, height, code, message, at).Success?
    ensures StoreInv(Written(y, RecordRejected(y.store, itemId, height, code, message, at).value), cfg)
  {
    var s' := RecordRejected(y.store, itemId, height, code, message, at).value;
    RejectedKeepsInv(y.store, itemId, height, code, message, at, cfg.owner);
    RejectedPauses(y.store, itemId, height, code, message, at, cfg.owner);
    KeepingStoreInv(y, s', cfg);
  }

  lemma MarkSentArming(s: Snapshot, batchId: string, at: Date)
    ensures PausesKept(s, MarkSent(s, batchId, at).0)
  {
    SameArming(s, MarkSent(s, batchId, at).0);
  }

  lemma AcceptedArming(s: Snapshot, itemId: string, equivalent: bool, height: UInt64, code: int, message: string,
                       at: Date, rank: nat -> int, draws: nat -> int)
    requires RecordAccepted(s, itemId, equivalent, height, code, message, at, rank, draws).Success?
    ensures PausesKept(s, RecordAccepted(s, itemId, equivalent, height, code, message, at, rank, draws).value)
  {
    SameArming(s, RecordAccepted(s, itemId, equivalent, height, code, message, at, rank, draws).value);
  }

  lemma AcceptedKeepsStore(y: System, sel: Selection, height: UInt64, code: int, message: string, at: Date,
                           rank: nat -> int, draws: nat -> int, cfg: Config)
    requires StoreInv(y, cfg)
    requires RecordAccepted(y.store, sel.item.itemId, code != 0, height, code, message, at, rank, draws).Success?
    ensures var s1 := RecordAccepted(y.store, sel.item.itemId, code != 0, height, code, message, at, rank, draws).value;
            StoreInv(Written(y, MarkSent(s1, sel.batchId, at).0), cfg)
  {
    var s1 := RecordAccepted(y.store, sel.item.itemId, code != 0, height, code, message, at, rank, draws).value;
    var s' := MarkSent(s1, sel.batchId, at).0;
    AcceptedKeepsInv(y.store, sel.item.itemId, code != 0, height, code, message, at, rank, draws, cfg.owner);
    AcceptedArming(y.store, sel.item.itemId, code != 0, height, code, message, at, rank, draws);
    MarkSentKeepsInv(s1, sel.batchId, at, cfg.owner);
    MarkSentArming(s1, sel.batchId, at);
    PausesKeptTransitive(y.store, s1, s');
    KeepingStoreInv(y, s', cfg);
  }

  lemma RecordKeepsStore(y: System, reply: Reply, rank: nat -> int, draws: nat -> int, cfg: Config)
    requires StoreInv(y, cfg) && y.phase.Sending?
    requires var a := y.phase.attempt; Record(y.store, a.sel, a.height, a.now, reply, rank, draws).Success?
    ensures var a := y.phase.attempt;
            StoreInv(Written(y, Record(y.store, a.sel, a.height, a.now, reply, rank, draws).value), cfg)
  {
    var a := y.phase.attempt;
    match reply
    case Failed(error) => UncertainKeepsStore(y, a.sel.item.itemId, error, a.now, cfg);
    case Replied(code, message, _) =>
      if AcceptedReply(reply) {
        AcceptedKeepsStore(y, a.sel, a.height, code, message, a.now, rank, draws, cfg);
      } else {
        RejectedKeepsStore(y, a.sel.item.itemId, a.height, code, message, a.now, cfg);
      }
  }

  lemma FinishedToKeeps(y: System, r: Result<Snapshot, Error>, cfg: Config)
    requires SystemInv(y, cfg) && (r.Success? ==> StoreInv(Written(y, r.value), cfg))
    ensures SystemInv(FinishedTo(y, r), cfg)
  {
  }

  lemma FinishKeeps(y: System, reply: Reply, rank: nat -> int, draws: nat -> int, cfg: Config)
    requires SystemInv(y, cfg) && y.phase.Sending?
    ensures var a := y.phase.attempt;
            SystemInv(FinishedTo(y, Record(y.store, a.sel, a.height, a.now, reply, rank, draws)), cfg)
  {
    var a := y.phase.attempt;
    var r := Record(y.store, a.sel, a.height, a.now, reply, rank, draws);
    if r.Success? { RecordKeepsStore(y, reply, rank, draws, cfg); }
    FinishedToKeeps(y, r, cfg);
  }

  // ----------------------------------------------------------- every run

  lemma EventKeeps(y: System, e: Event, cfg: Config)
    requires SystemInv(y, cfg) && Admissible(e, cfg)
    ensures SystemInv(Apply(y, e, cfg), cfg)
  {
    match e
    case Change(m, persisted) =>
      if persisted && Mutate(y.store, m, cfg).Success? { ChangeKeeps(y, m, cfg); }
    case Begin(now, persisted) =>
      if y.phase.Idle? && persisted { BeginKeeps(y, now, cfg); }
    case Select(height, attemptId, verify, persisted) =>
      if y.phase.Inspected? && persisted { SelectKeeps(y, height, attemptId, verify, cfg); }
    case CancelBeforeSubmission(error, persisted) =>
      if y.phase.Chosen? && persisted { CancelKeeps(y, error, cfg); }
    case Send =>
      if y.phase.Chosen? { SendKeeps(y, cfg); }
    case Finish(reply, rank, draws, persisted) =>
      if y.phase.Sending? && persisted { FinishKeeps(y, reply, rank, draws, cfg); }
    case Stop =>
  }

  /** Whatever interleaving of channel calls, runner steps, crashes, failing
      writes and network replies: the invariant holds after it. */
  lemma {:induction false} EveryRunIsSafe(events: seq<Event>, cfg: Config)
    requires AllAdmissible(events, cfg)
    ensures SystemInv(Run(INITIAL, events, cfg), cfg)
    decreases |events|
  {
    if events != [] {
      EveryRunIsSafe(events[..|events| - 1], cfg);
      EventKeeps(Run(INITIAL, events[..|events| - 1], cfg), events[|events| - 1], cfg);
    }
  }

  // ------------------------------------------------------------- the theorems

  /** In every reachable snapshot `listReceipts` finds beside each receipt its
      own transaction, awaiting reconciliation with the receipt's outcome, and
      each awaiting item has exactly one receipt. */
  lemma ReceiptsAndItemsCorrespond(events: seq<Event>, cfg: Config)
    requires AllAdmissible(events, cfg)
    ensures var s := Run(INITIAL, events, cfg).store;
            && (forall r :: r in s.receipts ==>
                  && ReceiptTransaction(s, r).Some?
                  && Matches(r, BatchOf(s, r.batchId).value, ReceiptTransaction(s, r).value))
            && (forall i, j :: AwaitingAt(s.batches, i, j) ==> HasReceipt(s.batches, s.receipts, i, j))
            && (forall r, q :: r in s.receipts && q in s.receipts && r.itemId == q.itemId ==> r == q)
  {
    hide Run;
    EveryRunIsSafe(events, cfg);
    var s := Run(INITIAL, events, cfg).store;
    forall r | r in s.receipts
      ensures ReceiptTransaction(s, r).Some? && Matches(r, BatchOf(s, r.batchId).value, ReceiptTransaction(s, r).value)
    {
      assert HasItem(s.batches, r);
      var i, j :| AboutItem(s.batches, r, i, j);
      FoundBatch(s.batches, i);
      assert BatchOk(s.batches[i], cfg.owner);
      FoundItem(s.batches[i].items, j);
    }
    forall r, q | r in s.receipts && q in s.receipts && r.itemId == q.itemId ensures r == q {
      ReceiptOfKey(s, cfg.owner, r, q);
    }
  }

  /** Event `n` staged these bytes as an item of this batch, and was carried out. */
  ghost predicate StagedBy(events: seq<Event>, n: nat, k: Key, raw: Bytes, cfg: Config)
    requires n < |events|
  {
    && events[n].Change? && events[n].persisted && events[n].mutation.StageBatch?
    && Mutate(Run(INITIAL, events[..n], cfg).store, events[n].mutation, cfg).Success?
    && events[n].mutation.batch.batchId == k.0
    && exists it :: it in events[n].mutation.batch.items && it.itemId == k.1 && it.raw == raw
  }

  lemma {:induction false} StagedBytesWereStaged(events: seq<Event>, cfg: Config, k: Key, raw: Bytes)
    requires (k, raw) in Run(INITIAL, events, cfg).staged
    ensures exists i :: 0 <= i < |events| && StagedBy(events, i, k, raw, cfg)
    decreases |events|
  {
    hide Mutate;
    if events != [] {
      var before, e := events[..|events| - 1], events[|events| - 1];
      if (k, raw) in Run(INITIAL, before, cfg).staged {
        StagedBytesWereStaged(before, cfg, k, raw);
        var i :| 0 <= i < |before| && StagedBy(before, i, k, raw, cfg);
        assert before[..i] == events[..i];
        assert StagedBy(events, i, k, raw, cfg);
      } else {
        assert StagedBy(events, |events| - 1, k, raw, cfg);
      }
    }
  }

  /** Every payload ever handed to the transport is the exact bytes some channel
      call staged for that item; the item was armed, due and past its backoff
      when selected, with the canonical expiry of the height, in a batch not
      paused since it was last armed or recovered; no run sends twice. */
  lemma EverySentPayloadWasDue(events: seq<Event>, cfg: Config, i: nat)
    requires AllAdmissible(events, cfg) && i < |Run(INITIAL, events, cfg).wire|
    ensures var a := Run(INITIAL, events, cfg).wire[i].attempt;
            && a.sel.item.status == Armed && a.sel.item.scheduled <= a.height < a.sel.item.expiry
            && (a.sel.item.nextAttemptAt == None || a.sel.item.nextAttemptAt.value <= a.now)
            && (a.height + 69_120 < 0x1_0000_0000_0000_0000 ==>
                  a.sel.item.expiry % 34_560 == 0 && a.height + 34_560 < a.sel.item.expiry <= a.height + 69_120)
            && a.sel.batchId !in a.paused
            && exists n :: 0 <= n < |events| && StagedBy(events, n, SelectedKey(a.sel), a.sel.item.raw, cfg)
    ensures forall j :: 0 <= j < i ==> Run(INITIAL, events, cfg).wire[j].run < Run(INITIAL, events, cfg).wire[i].run
  {
    EveryRunIsSafe(events, cfg);
    var y := Run(INITIAL, events, cfg);
    var a := y.wire[i].attempt;
    CanonicalExpiryIs(a.height);
    StagedBytesWereStaged(events, cfg, SelectedKey(a.sel), a.sel.item.raw);
  }

  lemma HandedAreReported(y: System, cfg: Config, k: Key)
    requires SystemInv(y, cfg) && k in y.handed
    ensures BatchOf(y.store, k.0).Some? && Lookup(y.store, k).Some?
    ensures var b := BatchOf(y.store, k.0).value;
            Lookup(y.store, k).value.txid in ListAttempted(y.store.batches, b.network, b.account, b.runId)
  {
    var i, j := KeyPosition(y.store, k);
    assert y.store.batches[i] in y.store.batches;
    assert y.store.batches[i].items[j] in y.store.batches[i].items;
  }

  lemma HandedUntilRemoved(y: System, e: Event, cfg: Config, k: Key)
    requires k in y.handed && Lookup(Apply(y, e, cfg).store, k).Some?
    ensures k in Apply(y, e, cfg).handed
  {
  }

  lemma {:induction false} HandedThroughout(y: System, later: seq<Event>, cfg: Config, k: Key)
    requires k in y.handed && forall n :: 0 <= n <= |later| ==> Lookup(Run(y, later[..n], cfg).store, k).Some?
    ensures k in Run(y, later, cfg).handed
    decreases |later|
  {
    hide Apply;
    assert later[..|later|] == later;
    if later != [] {
      var before := later[..|later| - 1];
      assert forall n :: 0 <= n <= |before| ==> before[..n] == later[..n];
      HandedThroughout(y, before, cfg, k);
      HandedUntilRemoved(Run(y, before, cfg), later[|later| - 1], cfg, k);
    }
  }

  lemma {:induction false} RunConcat(y: System, es: seq<Event>, fs: seq<Event>, cfg: Config)
    ensures Run(y, es + fs, cfg) == Run(Run(y, es, cfg), fs, cfg)
    decreases |fs|
  {
    if fs == [] {
      assert es + fs == es;
    } else {
      RunConcat(y, es, fs[..|fs| - 1], cfg);
      assert (es + fs)[..|es + fs| - 1] == es + fs[..|fs| - 1];
    }
  }

  /** A stored record whose payload was handed to the transport is reported as
      attempted for as long as the record exists, whatever happens later. */
  lemma SentRecordsStayReported(earlier: seq<Event>, later: seq<Event>, cfg: Config, k: Key)
    requires AllAdmissible(earlier, cfg) && AllAdmissible(later, cfg)
    requires Run(INITIAL, earlier, cfg).phase.Chosen? && Run(INITIAL, earlier, cfg).phase.attempt.live
    requires k == SelectedKey(Run(INITIAL, earlier, cfg).phase.attempt.sel)
    requires forall n :: 0 <= n <= |later| ==>
               Lookup(Run(Apply(Run(INITIAL, earlier, cfg), Send, cfg), later[..n], cfg).store, k).Some?
    ensures var s := Run(INITIAL, earlier + [Send] + later, cfg).store;
            Lookup(s, k).Some?
            && var b := BatchOf(s, k.0).value;
               Lookup(s, k).value.txid in ListAttempted(s.batches, b.network, b.account, b.runId)
  {
    hide Mutate;
    var y := Run(INITIAL, earlier, cfg);
    var sent := Apply(y, Send, cfg);
    HandedThroughout(sent, later, cfg, k);
    assert Run(INITIAL, earlier + [Send], cfg) == sent by {
      RunConcat(INITIAL, earlier, [Send], cfg);
      assert [Send][..0] == [];
    }
    RunConcat(INITIAL, earlier + [Send], later, cfg);
    EveryRunIsSafe(earlier + [Send] + later, cfg);
    HandedAreReported(Run(sent, later, cfg), cfg, k);
  }

  /** Unless its batch was armed or recovered in between, an acceptance never
      fails for want of a schedule, whatever the shuffle and the draws; and a
      record still stored is always recorded. */
  lemma AcceptanceIsAlwaysRecorded(events: seq<Event>, cfg: Config, equivalent: bool, code: int, message: string,
                                   rank: nat -> int, draws: nat -> int)
    requires AllAdmissible(events, cfg)
    requires Run(INITIAL, events, cfg).phase.Sending? && Run(INITIAL, events, cfg).phase.attempt.quiet
    requires CanonicalExpiry(Run(INITIAL, events, cfg).phase.attempt.height).Some?
    ensures var y := Run(INITIAL, events, cfg);
            var a := y.phase.attempt;
            var r := RecordAccepted(y.store, a.sel.item.itemId, equivalent, a.height, code, message, a.now, rank, draws);
            r != Failure(InvalidSchedule) && (a.live ==> r.Success?)
  {
    EveryRunIsSafe(events, cfg);
    SendingIsRecordable(Run(INITIAL, events, cfg), cfg, equivalent, code, message, rank, draws);
  }

  lemma SendingIsRecordable(y: System, cfg: Config, equivalent: bool, code: int, message: string, rank: nat -> int,
                            draws: nat -> int)
    requires SystemInv(y, cfg) && y.phase.Sending? && y.phase.attempt.quiet
    requires CanonicalExpiry(y.phase.attempt.height).Some?
    ensures var a := y.phase.attempt;
            var r := RecordAccepted(y.store, a.sel.item.itemId, equivalent, a.height, code, message, a.now, rank, draws);
            r != Failure(InvalidSchedule) && (a.live ==> r.Success?)
  {
    var a := y.phase.attempt;
    InvalidScheduleOnlyWithoutRoom(y.store, a.sel.item.itemId, equivalent, a.height, code, message, a.now, rank, draws,
                                   cfg.owner);
    if a.live {
      RoomMakesAcceptanceRecordable(y.store, a.sel.item.itemId, equivalent, a.height, code, message, a.now, rank, draws,
                                    cfg.owner);
    }
  }

  lemma {:induction false} RunKeepsInv(y: System, events: seq<Event>, cfg: Config)
    requires SystemInv(y, cfg) && AllAdmissible(events, cfg)
    ensures SystemInv(Run(y, events, cfg), cfg)
    decreases |events|
  {
    if events != [] {
      RunKeepsInv(y, events[..|events| - 1], cfg);
      EventKeeps(Run(y, events[..|events| - 1], cfg), events[|events| - 1], cfg);
    }
  }
}
