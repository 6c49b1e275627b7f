/** Every operation on the snapshot preserves the reconciliation invariant,
    and never loses the identity or the attempt evidence of a stored item. */
module OutboxOperations {
  import opened Base
  import opened OutboxTypes
  import opened OutboxTransitions
  import opened OutboxRescheduling
  import opened OutboxInvariant

  // ------------------------------------------------ evolution of one record

  /** A stored record keeps its payload and its evidence of an attempt, and
      only a submission can make it submitting. */
  predicate ItemStep(it: Item, it': Item) {
    && it'.itemId == it.itemId && it'.txid == it.txid && it'.raw == it.raw && it'.expiry == it.expiry
    && it.attemptCount <= it'.attemptCount
    && (Evidence(it) ==> Evidence(it'))
    && (it'.status.Submitting? ==> it.status.Submitting?)
  }

  predicate Fresh(it: Item) { it.status.Staged? }

  ghost predicate Evolves(s: Snapshot, s': Snapshot) {
    forall k :: Lookup(s', k).Some? ==>
      if Lookup(s, k).Some? then ItemStep(Lookup(s, k).value, Lookup(s', k).value) else Fresh(Lookup(s', k).value)
  }

  /** No record comes or goes, and each one evolves. */
  ghost predicate KeepsRecords(s: Snapshot, s': Snapshot) {
    forall k :: (Lookup(s', k).Some? <==> Lookup(s, k).Some?)
                && (Lookup(s, k).Some? ==> ItemStep(Lookup(s, k).value, Lookup(s', k).value))
  }

  lemma KeepsRecordsTransitive(s: Snapshot, s1: Snapshot, s2: Snapshot)
    requires KeepsRecords(s, s1) && KeepsRecords(s1, s2)
    ensures KeepsRecords(s, s2)
  {
  }

  ghost predicate StepsBatch(b: Batch, b': Batch) {
    && b'.batchId == b.batchId && |b.items| <= |b'.items|
    && (forall j :: 0 <= j < |b.items| ==> ItemStep(b.items[j], b'.items[j]))
    && (forall j :: |b.items| <= j < |b'.items| ==> Fresh(b'.items[j]))
  }

  lemma SteppingEvolves(s: Snapshot, s': Snapshot, owner: Owner)
    requires Inv(s, owner) && Inv(s', owner) && |s'.batches| == |s.batches|
    requires forall i :: 0 <= i < |s.batches| ==> StepsBatch(s.batches[i], s'.batches[i])
    ensures Evolves(s, s')
  {
    forall k | Lookup(s', k).Some?
      ensures if Lookup(s, k).Some? then ItemStep(Lookup(s, k).value, Lookup(s', k).value) else Fresh(Lookup(s', k).value)
    {
      var i, j := KeyPosition(s', k);
      assert StepsBatch(s.batches[i], s'.batches[i]);
      if j < |s.batches[i].items| {
        FoundByKey(s, owner, i, j);
      } else {
        FoundBatch(s.batches, i);
        assert BatchOk(s'.batches[i], owner);
        assert forall c :: 0 <= c < |s.batches[i].items| ==> s.batches[i].items[c].itemId != k.1;
      }
    }
  }

  lemma SteppingKeepsRecords(s: Snapshot, s': Snapshot, owner: Owner)
    requires Inv(s, owner) && Inv(s', owner) && |s'.batches| == |s.batches|
    requires forall i :: 0 <= i < |s.batches| ==>
               StepsBatch(s.batches[i], s'.batches[i]) && |s'.batches[i].items| == |s.batches[i].items|
    ensures KeepsRecords(s, s')
  {
    forall k | Lookup(s', k).Some?
      ensures Lookup(s, k).Some? && ItemStep(Lookup(s, k).value, Lookup(s', k).value)
    {
      var i, j := KeyPosition(s', k);
      FoundByKey(s, owner, i, j);
    }
    forall k | Lookup(s, k).Some? ensures Lookup(s', k).Some? {
      var i, j := KeyPosition(s, k);
      FoundByKey(s', owner, i, j);
    }
  }

  lemma DroppingEvolves(s: Snapshot, s': Snapshot, owner: Owner)
    requires Inv(s, owner) && forall i :: 0 <= i < |s'.batches| ==> TrimOf(s.batches, s'.batches[i])
    ensures Evolves(s, s')
    ensures forall k :: Lookup(s', k).Some? ==> Lookup(s, k) == Lookup(s', k)
  {
    forall k | Lookup(s', k).Some? ensures Lookup(s, k) == Lookup(s', k) {
      var i, j := KeyPosition(s', k);
      assert TrimOf(s.batches, s'.batches[i]);
      var b :| b in s.batches && Trims(b, s'.batches[i]);
      var a :| 0 <= a < |s.batches| && s.batches[a] == b;
      assert s'.batches[i].items[j] in s'.batches[i].items;
      var c :| 0 <= c < |b.items| && b.items[c] == s'.batches[i].items[j];
      FoundByKey(s, owner, a, c);
    }
  }

  // --------------------------------------------------- replacing one batch

  /** The receipts recorded beside the batch that takes position `bi`. */
  ghost predicate ReceiptsFor(b: Batch, b': Batch, extra: seq<Receipt>) {
    DistinctReceipts(extra)
    && forall r :: r in extra ==> exists j :: 0 <= j < |b.items| && j < |b'.items| && Matches(r, b', b'.items[j])
                                              && !Awaiting(b.items[j].status)
  }

  lemma ReplacingKeepsInv(s: Snapshot, bi: nat, b': Batch, extra: seq<Receipt>, owner: Owner)
    requires Inv(s, owner) && bi < |s.batches|
    requires SettlesBatch(s.batches[bi], b', extra) && ReceiptsFor(s.batches[bi], b', extra)
    requires BatchOk(b', owner) && (b'.sentPending.Some? ==> b'.batchId !in s.announced)
    ensures Inv(WithBatch(s, bi, b').(receipts := s.receipts + extra), owner)
  {
    var s' := WithBatch(s, bi, b').(receipts := s.receipts + extra);
    forall r | r in extra ensures exists i, j :: SettlesAt(s.batches, s'.batches, r, i, j) {
      var j :| 0 <= j < |s.batches[bi].items| && j < |b'.items| && Matches(r, b', b'.items[j])
               && !Awaiting(s.batches[bi].items[j].status);
      assert SettlesAt(s.batches, s'.batches, r, bi, j);
    }
    SettlingKeepsInv(s, s', extra, owner);
  }

  lemma ReplacingEvolves(s: Snapshot, bi: nat, b': Batch, receipts: seq<Receipt>, owner: Owner)
    requires Inv(s, owner) && bi < |s.batches| && StepsBatch(s.batches[bi], b')
    requires Inv(WithBatch(s, bi, b').(receipts := receipts), owner)
    ensures Evolves(s, WithBatch(s, bi, b').(receipts := receipts))
    ensures |b'.items| == |s.batches[bi].items| ==> KeepsRecords(s, WithBatch(s, bi, b').(receipts := receipts))
  {
    var s' := WithBatch(s, bi, b').(receipts := receipts);
    SteppingEvolves(s, s', owner);
    if |b'.items| == |s.batches[bi].items| { SteppingKeepsRecords(s, s', owner); }
  }

  lemma NoReceipts(s: Snapshot, bi: nat, b': Batch)
    requires bi < |s.batches|
    ensures WithBatch(s, bi, b') == WithBatch(s, bi, b').(receipts := s.receipts + [])
  {
    assert s.receipts + [] == s.receipts;
  }

  /** Replacing a batch without settling anything. */
  lemma AmendingKeepsInv(s: Snapshot, bi: nat, b': Batch, owner: Owner)
    requires Inv(s, owner) && bi < |s.batches| && SettlesBatch(s.batches[bi], b', [])
    requires BatchOk(b', owner) && (b'.sentPending.Some? ==> b'.batchId !in s.announced)
    ensures Inv(WithBatch(s, bi, b'), owner)
    ensures StepsBatch(s.batches[bi], b') ==> Evolves(s, WithBatch(s, bi, b'))
    ensures StepsBatch(s.batches[bi], b') && |b'.items| == |s.batches[bi].items| ==> KeepsRecords(s, WithBatch(s, bi, b'))
  {
    NoReceipts(s, bi, b');
    ReplacingKeepsInv(s, bi, b', [], owner);
    if StepsBatch(s.batches[bi], b') {
      ReplacingEvolves(s, bi, b', s.receipts + [], owner);
    }
  }

  // -------------------------------------------------------------- operations

  ghost predicate OwnedBatch(b: Batch, owner: Owner) {
    forall it :: it in b.items ==> owner(it.itemId) == b.batchId
  }

  lemma AppendingKeepsInv(s: Snapshot, b: Batch, hash: Bytes -> string, owner: Owner)
    requires Inv(s, owner) && Stageable(b, hash) && OwnedBatch(b, owner) && BatchIndex(s.batches, b.batchId).None?
    ensures Inv(s.(batches := s.batches + [b]), owner)
  {
    var s' := s.(batches := s.batches + [b]);
    assert forall j :: 0 <= j < |b.items| ==> b.items[j] in b.items;
    forall r | r in s'.receipts ensures HasItem(s'.batches, r) {
      assert HasItem(s.batches, r);
      var i, j :| AboutItem(s.batches, r, i, j);
      assert AboutItem(s'.batches, r, i, j);
    }
    forall i, j | AwaitingAt(s'.batches, i, j) ensures HasReceipt(s'.batches, s'.receipts, i, j) {
      if i < |s.batches| {
        assert HasReceipt(s.batches, s.receipts, i, j);
        var r :| r in s.receipts && AboutItem(s.batches, r, i, j);
        assert AboutItem(s'.batches, r, i, j);
      }
    }
  }

  lemma AppendingEvolves(s: Snapshot, b: Batch, hash: Bytes -> string, owner: Owner)
    requires Inv(s, owner) && Stageable(b, hash) && BatchIndex(s.batches, b.batchId).None?
    ensures Evolves(s, s.(batches := s.batches + [b]))
  {
    var s' := s.(batches := s.batches + [b]);
    forall k | Lookup(s', k).Some?
      ensures if Lookup(s, k).Some? then ItemStep(Lookup(s, k).value, Lookup(s', k).value) else Fresh(Lookup(s', k).value)
    {
      var i, j := KeyPosition(s', k);
      if i < |s.batches| {
        FoundByKey(s, owner, i, j);
      } else {
        assert b.items[j] in b.items;
      }
    }
  }

  /** The items a merge appends are new and as staged. */
  lemma MergedItemsAre(e: Batch, b: Batch, hash: Bytes -> string, owner: Owner)
    requires BatchOk(e, owner) && Stageable(b, hash) && OwnedBatch(b, owner) && e.batchId == b.batchId
    ensures var added := NewItems(e.items, b.items);
            && Merged(e, b).items == e.items + added && DistinctItemIds(e.items + added)
            && forall j :: 0 <= j < |added| ==> added[j].status.Staged? && Fresh(added[j])
                                                && owner(added[j].itemId) == e.batchId
  {
    var added := NewItems(e.items, b.items);
    FilterKeepsItemIds(b.items, (it: Item) => ItemIndex(e.items, it.itemId).None?);
    forall j | 0 <= j < |added| ensures added[j] in b.items && ItemIndex(e.items, added[j].itemId).None? {
      assert added[j] in added;
    }
  }

  lemma MergedIsOk(e: Batch, b: Batch, hash: Bytes -> string, owner: Owner)
    requires BatchOk(e, owner) && Stageable(b, hash) && OwnedBatch(b, owner) && e.batchId == b.batchId
    ensures BatchOk(Merged(e, b), owner) && SettlesBatch(e, Merged(e, b), []) && StepsBatch(e, Merged(e, b))
    ensures Merged(e, b).sentPending.Some? ==> e.sentPending.Some?
  {
    hide NewItems;
    MergedItemsAre(e, b, hash, owner);
    var added := NewItems(e.items, b.items);
    if added == [] { assert e.items + added == e.items; }
  }

  lemma StageKeepsInv(s: Snapshot, b: Batch, hash: Bytes -> string, owner: Owner)
    requires Inv(s, owner) && OwnedBatch(b, owner) && Stage(s, b, hash).Success?
    ensures Inv(Stage(s, b, hash).value, owner) && Evolves(s, Stage(s, b, hash).value)
  {
    var bi := BatchIndex(s.batches, b.batchId);
    if bi.None? {
      AppendingKeepsInv(s, b, hash, owner);
      AppendingEvolves(s, b, hash, owner);
    } else {
      MergedIsOk(s.batches[bi.value], b, hash, owner);
      AmendingKeepsInv(s, bi.value, Merged(s.batches[bi.value], b), owner);
    }
  }

  lemma ArmedIsOk(b: Batch, digests: map<string, string>, at: Date, owner: Owner)
    requires BatchOk(b, owner)
    ensures var b' := ArmedBatch(b, digests, at);
            BatchOk(b', owner) && SettlesBatch(b, b', []) && StepsBatch(b, b') && b'.sentPending == b.sentPending
  {
  }

  lemma RecoveredIsOk(b: Batch, url: string, at: Date, owner: Owner)
    requires BatchOk(b, owner)
    ensures var b' := RecoveredBatch(b, url, at);
            BatchOk(b', owner) && SettlesBatch(b, b', []) && StepsBatch(b, b') && b'.sentPending == b.sentPending
  {
    hide MapItems, Fresh;
  }

  lemma ArmKeepsInv(s: Snapshot, batchId: string, digests: map<string, string>, at: Date, owner: Owner)
    requires Inv(s, owner) && ArmBatch(s, batchId, digests, at).Success?
    ensures Inv(ArmBatch(s, batchId, digests, at).value, owner)
    ensures KeepsRecords(s, ArmBatch(s, batchId, digests, at).value)
  {
    var bi := BatchIndex(s.batches, batchId).value;
    ArmedIsOk(s.batches[bi], digests, at, owner);
    AmendingKeepsInv(s, bi, ArmedBatch(s.batches[bi], digests, at), owner);
  }

  lemma RecoverKeepsInv(s: Snapshot, batchId: string, network: string, account: string, runId: string,
                        expected: set<string>, url: string, at: Date, owner: Owner)
    requires Inv(s, owner) && RecoverBatch(s, batchId, network, account, runId, expected, url, at).Success?
    ensures Inv(RecoverBatch(s, batchId, network, account, runId, expected, url, at).value.0, owner)
    ensures KeepsRecords(s, RecoverBatch(s, batchId, network, account, runId, expected, url, at).value.0)
  {
    var bi := BatchIndex(s.batches, batchId);
    if bi.Some? {
      RecoveredIsOk(s.batches[bi.value], url, at, owner);
      AmendingKeepsInv(s, bi.value, RecoveredBatch(s.batches[bi.value], url, at), owner);
    }
  }

  lemma InterruptedIsOk(b: Batch, at: Date, owner: Owner)
    requires BatchOk(b, owner)
    ensures var b' := b.(items := MapItems(b.items, (it: Item) => Interrupted(it, at)));
            BatchOk(b', owner) && SettlesBatch(b, b', []) && StepsBatch(b, b')
  {
    hide MapItems;
  }

  lemma InterruptedIsOver(s: Snapshot, at: Date, k: Key)
    requires Lookup(RecoverInterrupted(s, at), k).Some?
    ensures !Lookup(RecoverInterrupted(s, at), k).value.status.Submitting?
  {
    var i, j := KeyPosition(RecoverInterrupted(s, at), k);
  }

  lemma RecoverInterruptedKeepsInv(s: Snapshot, at: Date, owner: Owner)
    requires Inv(s, owner)
    ensures Inv(RecoverInterrupted(s, at), owner) && KeepsRecords(s, RecoverInterrupted(s, at))
    ensures forall k :: Lookup(RecoverInterrupted(s, at), k).Some?
                        ==> !Lookup(RecoverInterrupted(s, at), k).value.status.Submitting?
  {
    var s' := RecoverInterrupted(s, at);
    forall i | 0 <= i < |s.batches|
      ensures BatchOk(s'.batches[i], owner) && SettlesBatch(s.batches[i], s'.batches[i], [])
      ensures StepsBatch(s.batches[i], s'.batches[i])
    {
      InterruptedIsOk(s.batches[i], at, owner);
    }
    assert s'.receipts == s.receipts + [];
    forall k | Lookup(s', k).Some? ensures !Lookup(s', k).value.status.Submitting? {
      InterruptedIsOver(s, at, k);
    }
    hide BatchOk, SettlesBatch, StepsBatch, Lookup;
    SettlingKeepsInv(s, s', [], owner);
    SteppingKeepsRecords(s, s', owner);
  }

  /** A batch with the same items and timing, and no new announcement. */
  lemma SameItemsIsOk(b: Batch, b': Batch, owner: Owner)
    requires BatchOk(b, owner) && b'.batchId == b.batchId && b'.items == b.items && b'.mean == b.mean && b'.max == b.max
    requires b'.sentPending.None? || b.sentPending.Some?
             || (forall j :: 0 <= j < |b.items| ==> b.items[j].status.AcceptedAwaiting?)
    ensures BatchOk(b', owner) && SettlesBatch(b, b', []) && StepsBatch(b, b')
  {
  }

  /** Fields the invariant does not read may change freely. */
  lemma AmendFields(s: Snapshot, s': Snapshot, owner: Owner)
    requires Inv(s, owner) && s'.batches == s.batches && s'.receipts == s.receipts && s'.announced == s.announced
    ensures Inv(s', owner) && Evolves(s, s')
  {
  }

  lemma MarkProofReadyKeepsInv(s: Snapshot, height: UInt64, endpoint: string, at: Date, owner: Owner)
    requires Inv(s, owner)
    ensures Inv(MarkProofReady(s, height, endpoint, at), owner)
    ensures forall k :: Lookup(MarkProofReady(s, height, endpoint, at), k) == Lookup(s, k)
  {
    hide Reconciled, FirstProofCandidate;
    var c := FirstProofCandidate(s.batches, height, endpoint);
    if c.Some? {
      var bi := BatchIndex(s.batches, c.value.batchId);
      if bi.Some? {
        var b := s.batches[bi.value];
        var b' := if b.proofPending.None? then b.(proofPending := Some(at)) else b;
        SameItemsIsOk(b, b', owner);
        AmendingKeepsInv(s, bi.value, b', owner);
        SameLookups(s, MarkProofReady(s, height, endpoint, at), owner);
      }
    }
  }

  lemma MarkSentKeepsInv(s: Snapshot, batchId: string, at: Date, owner: Owner)
    requires Inv(s, owner)
    ensures Inv(MarkSent(s, batchId, at).0, owner)
    ensures forall k :: Lookup(MarkSent(s, batchId, at).0, k) == Lookup(s, k)
  {
    var bi := BatchIndex(s.batches, batchId);
    if MarkSent(s, batchId, at).1 {
      var b := s.batches[bi.value];
      var b' := if b.sentPending.None? then b.(sentPending := Some(at)) else b;
      assert forall j :: 0 <= j < |b.items| ==> b.items[j] in b.items;
      SameItemsIsOk(b, b', owner);
      AmendingKeepsInv(s, bi.value, b', owner);
      SameLookups(s, MarkSent(s, batchId, at).0, owner);
    }
  }

  // ----------------------------------------------------- submission outcomes

  /** An item replaced in place, without settling. */
  lemma AmendItem(s: Snapshot, bi: nat, ii: nat, it': Item, owner: Owner)
    requires Inv(s, owner) && bi < |s.batches| && ii < |s.batches[bi].items|
    requires KeptItem(s.batches[bi].items[ii], it')
    ensures Inv(WithBatch(s, bi, WithItem(s.batches[bi], ii, it')), owner)
    ensures ItemStep(s.batches[bi].items[ii], it') ==> KeepsRecords(s, WithBatch(s, bi, WithItem(s.batches[bi], ii, it')))
    ensures forall k :: Lookup(WithBatch(s, bi, WithItem(s.batches[bi], ii, it')), k)
              == if k == (s.batches[bi].batchId, it'.itemId) then Some(it') else Lookup(s, k)
  {
    hide Lookup;
    var b' := WithItem(s.batches[bi], ii, it');
    var s' := WithBatch(s, bi, b');
    AmendingKeepsInv(s, bi, b', owner);
    forall k ensures Lookup(s', k) == if k == (s.batches[bi].batchId, it'.itemId) then Some(it') else Lookup(s, k) {
      LookupAfterAmend(s, bi, ii, it', owner, k);
    }
  }

  lemma LookupAfterAmend(s: Snapshot, bi: nat, ii: nat, it': Item, owner: Owner, k: Key)
    requires Inv(s, owner) && bi < |s.batches| && ii < |s.batches[bi].items|
    requires it'.itemId == s.batches[bi].items[ii].itemId
    requires Inv(WithBatch(s, bi, WithItem(s.batches[bi], ii, it')), owner)
    ensures Lookup(WithBatch(s, bi, WithItem(s.batches[bi], ii, it')), k)
              == if k == (s.batches[bi].batchId, it'.itemId) then Some(it') else Lookup(s, k)
  {
    hide Lookup;
    var s' := WithBatch(s, bi, WithItem(s.batches[bi], ii, it'));
    FoundByKey(s', owner, bi, ii);
    if k != (s.batches[bi].batchId, it'.itemId) {
      if Lookup(s', k).Some? {
        var i, j := KeyPosition(s', k);
        FoundByKey(s, owner, i, j);
      }
      if Lookup(s, k).Some? {
        var i, j := KeyPosition(s, k);
        FoundByKey(s', owner, i, j);
      }
    }
  }

  lemma SubmissionKeepsInv(s: Snapshot, itemId: string, attemptId: string, at: Date, owner: Owner)
    requires Inv(s, owner) && BeginSubmission(s, itemId, attemptId, at).Success?
    ensures var s' := BeginSubmission(s, itemId, attemptId, at).value;
            var k := (owner(itemId), itemId);
            && Inv(s', owner)
            && Lookup(s, k).Some? && Lookup(s, k).value.status.Armed?
            && Lookup(s', k) == Some(Lookup(s, k).value.(status := Submitting, attemptId := Some(attemptId),
                                                         attemptStartedAt := Some(at)))
            && forall k' :: k' != k ==> Lookup(s', k') == Lookup(s, k')
  {
    hide Lookup;
    LocationIsOwned(s, owner, itemId);
    var (bi, ii) := Location(s.batches, itemId).value;
    var it := s.batches[bi].items[ii];
    AmendItem(s, bi, ii, it.(status := Submitting, attemptId := Some(attemptId), attemptStartedAt := Some(at)), owner);
  }

  lemma UncertainKeepsInv(s: Snapshot, itemId: string, error: string, at: Date, owner: Owner)
    requires Inv(s, owner) && RecordUncertain(s, itemId, error, at).Success?
    ensures Inv(RecordUncertain(s, itemId, error, at).value, owner)
    ensures KeepsRecords(s, RecordUncertain(s, itemId, error, at).value)
  {
    hide Lookup;
    LocationIsOwned(s, owner, itemId);
    var (bi, ii) := Location(s.batches, itemId).value;
    AmendItem(s, bi, ii, Uncertain(s.batches[bi].items[ii], error, at), owner);
  }

  lemma CancelledKeepsInv(s: Snapshot, itemId: string, error: string, owner: Owner)
    requires Inv(s, owner) && RecordCancelled(s, itemId, error).Success?
    ensures var s' := RecordCancelled(s, itemId, error).value;
            var k := (owner(itemId), itemId);
            && Inv(s', owner)
            && Lookup(s, k).Some? && Lookup(s, k).value.status.Submitting?
            && Lookup(s', k) == Some(Lookup(s, k).value.(status := Armed, nextAttemptAt := None,
                                       lastError := Some(error), attemptId := None, attemptStartedAt := None))
            && forall k' :: k' != k ==> Lookup(s', k') == Lookup(s, k')
  {
    hide Lookup;
    LocationIsOwned(s, owner, itemId);
    var (bi, ii) := Location(s.batches, itemId).value;
    var it := s.batches[bi].items[ii];
    AmendItem(s, bi, ii, it.(status := Armed, nextAttemptAt := None, lastError := Some(error), attemptId := None,
                             attemptStartedAt := None), owner);
  }

  lemma RejectedIsOk(b: Batch, ii: nat, height: UInt64, code: int, message: string, at: Date, owner: Owner)
    requires BatchOk(b, owner) && ii < |b.items| && b.items[ii].status.Submitting?
    ensures var b' := WithItem(b, ii, Settled(b.items[ii], RejectedAwaiting)).(armedAt := None, nextProof := None);
            var r := MakeReceipt(b', b.items[ii], Rejected, height, Some(code), Some(message), [], at);
            && BatchOk(b', owner) && StepsBatch(b, b') && b'.sentPending == b.sentPending
            && SettlesBatch(b, b', [r]) && ReceiptsFor(b, b', [r])
  {
    var b' := WithItem(b, ii, Settled(b.items[ii], RejectedAwaiting)).(armedAt := None, nextProof := None);
    var r := MakeReceipt(b', b.items[ii], Rejected, height, Some(code), Some(message), [], at);
    assert r in [r] && Matches(r, b', b'.items[ii]);
    assert SettledItem(b, b.items[ii], b'.items[ii], [r]);
  }

  lemma RejectedKeepsInv(s: Snapshot, itemId: string, height: UInt64, code: int, message: string, at: Date, owner: Owner)
    requires Inv(s, owner) && RecordRejected(s, itemId, height, code, message, at).Success?
    ensures Inv(RecordRejected(s, itemId, height, code, message, at).value, owner)
    ensures KeepsRecords(s, RecordRejected(s, itemId, height, code, message, at).value)
  {
    var (bi, ii) := Location(s.batches, itemId).value;
    var b := s.batches[bi];
    var b' := WithItem(b, ii, Settled(b.items[ii], RejectedAwaiting)).(armedAt := None, nextProof := None);
    var r := MakeReceipt(b', b.items[ii], Rejected, height, Some(code), Some(message), [], at);
    RejectedIsOk(b, ii, height, code, message, at, owner);
    ReplacingKeepsInv(s, bi, b', [r], owner);
    ReplacingEvolves(s, bi, b', s.receipts + [r], owner);
  }

  /** The settled item is not among the peers that get respaced, and those
      keep all but their schedule. */
  lemma MovedAt(b: Batch, items': seq<Item>, updates: seq<ScheduleUpdate>, order: seq<nat>, height: UInt64,
                draws: nat -> int, a: nat)
    requires Respaced(b.items, items', updates, order, height, b.max, height, 0, draws) && a < |order|
    ensures order[a] < |b.items| == |items'|
    ensures items'[order[a]] == ReplacingSchedule(b.items[order[a]], items'[order[a]].scheduled, height)
  {
    assert Moved(b.items, items', order[a], updates[a], After(updates, height, a), |order| - 1 - a, height, b.max,
                 draws(0 + a));
  }

  lemma RespacingKeepsItems(b: Batch, itemId: string, height: UInt64, rank: nat -> int, draws: nat -> int,
                            items': seq<Item>, updates: seq<ScheduleUpdate>)
    requires Reschedule(b, itemId, height, rank, draws) == Success((items', updates))
    ensures |items'| == |b.items|
    ensures forall j :: 0 <= j < |b.items| ==>
              items'[j] == b.items[j]
              || (OverduePeer(b.items[j], itemId, height)
                  && items'[j] == ReplacingSchedule(b.items[j], items'[j].scheduled, height))
  {
    var order := RespacingOrder(b.items, itemId, height, rank);
    RescheduleOutcome(b, itemId, height, rank, draws);
    forall j: nat | j < |b.items|
      ensures items'[j] == b.items[j]
              || (OverduePeer(b.items[j], itemId, height)
                  && items'[j] == ReplacingSchedule(b.items[j], items'[j].scheduled, height))
    {
      if j in order {
        var a :| 0 <= a < |order| && order[a] == j;
        MovedAt(b, items', updates, order, height, draws, a);
      }
    }
  }

  lemma AcceptedIsOk(b: Batch, ii: nat, items': seq<Item>, r: Receipt, owner: Owner)
    requires BatchOk(b, owner) && ii < |b.items| == |items'| && b.items[ii].status.Submitting?
    requires items'[ii] == Settled(b.items[ii], AcceptedAwaiting)
    requires forall j :: 0 <= j < |b.items| && j != ii ==>
               items'[j] == b.items[j] || items'[j] == ReplacingSchedule(b.items[j], items'[j].scheduled, items'[j].scheduleStart)
    requires r.batchId == b.batchId && r.itemId == b.items[ii].itemId && r.txid == b.items[ii].txid
    requires StatusOf(r.outcome) == AcceptedAwaiting
    ensures var b' := b.(items := items');
            BatchOk(b', owner) && StepsBatch(b, b') && SettlesBatch(b, b', [r]) && ReceiptsFor(b, b', [r])
  {
    assert r in [r] && Matches(r, b, items'[ii]);
    assert SettledItem(b, b.items[ii], items'[ii], [r]);
    assert forall q :: q in [r] ==> q == r;
  }

  lemma AcceptedKeepsInv(s: Snapshot, itemId: string, equivalent: bool, height: UInt64, code: int, message: string,
                         at: Date, rank: nat -> int, draws: nat -> int, owner: Owner)
    requires Inv(s, owner)
    requires RecordAccepted(s, itemId, equivalent, height, code, message, at, rank, draws).Success?
    ensures Inv(RecordAccepted(s, itemId, equivalent, height, code, message, at, rank, draws).value, owner)
    ensures KeepsRecords(s, RecordAccepted(s, itemId, equivalent, height, code, message, at, rank, draws).value)
  {
    hide Location, Reschedule, DistinctReceipts;
    var (bi, ii) := Location(s.batches, itemId).value;
    var b := s.batches[bi];
    var b1 := WithItem(b, ii, Settled(b.items[ii], AcceptedAwaiting));
    var (items', updates) := Reschedule(b1, itemId, height, rank, draws).value;
    var r := MakeReceipt(b1, b.items[ii], if equivalent then AcceptedEquivalent else Accepted, height, Some(code),
                         Some(message), updates, at);
    RespacingKeepsItems(b1, itemId, height, rank, draws, items', updates);
    AcceptedIsOk(b, ii, items', r, owner);
    ReplacingKeepsInv(s, bi, b.(items := items'), [r], owner);
    ReplacingEvolves(s, bi, b.(items := items'), s.receipts + [r], owner);
  }

  // ------------------------------------------------------------------ sweeps

  predicate SweepReceiptOf(k: Sweep, height: UInt64, b: Batch, it: Item, at: Date, r: Receipt) {
    Swept(k, height, it) && r == MakeReceipt(b, it, SweepOutcome(k), height, None, SweepMessage(k), [], at)
  }

  lemma {:induction false} ItemReceiptsAreOfSwept(k: Sweep, height: UInt64, b: Batch, items: seq<Item>, at: Date,
                                                  r: Receipt)
    requires r in ItemReceipts(k, height, b, items, at)
    ensures exists j :: 0 <= j < |items| && SweepReceiptOf(k, height, b, items[j], at, r)
  {
    var n := |items| - 1;
    if r in ItemReceipts(k, height, b, items[..n], at) {
      ItemReceiptsAreOfSwept(k, height, b, items[..n], at, r);
      var j :| 0 <= j < n && SweepReceiptOf(k, height, b, items[..n][j], at, r);
      assert SweepReceiptOf(k, height, b, items[j], at, r);
    } else {
      assert SweepReceiptOf(k, height, b, items[n], at, r);
    }
  }

  lemma {:induction false} SweptItemsHaveReceipts(k: Sweep, height: UInt64, b: Batch, items: seq<Item>, at: Date,
                                                  r: Receipt, j: nat)
    requires j < |items| && SweepReceiptOf(k, height, b, items[j], at, r)
    ensures r in ItemReceipts(k, height, b, items, at)
  {
    var n := |items| - 1;
    if j < n {
      assert items[..n][j] == items[j];
      SweptItemsHaveReceipts(k, height, b, items[..n], at, r, j);
    }
  }

  lemma {:induction false} ItemReceiptsDistinct(k: Sweep, height: UInt64, b: Batch, items: seq<Item>, at: Date)
    requires DistinctItemIds(items)
    ensures DistinctReceipts(ItemReceipts(k, height, b, items, at))
  {
    if items != [] {
      var n := |items| - 1;
      ItemReceiptsDistinct(k, height, b, items[..n], at);
      var rs := ItemReceipts(k, height, b, items[..n], at);
      var new_ := MakeReceipt(b, items[n], SweepOutcome(k), height, None, SweepMessage(k), [], at);
      forall r | r in rs ensures !SameKey(r, new_) {
        ItemReceiptsAreOfSwept(k, height, b, items[..n], at, r);
      }
      JoinedDistinct(rs, [new_]);
    }
  }

  lemma JoinedDistinct(rs: seq<Receipt>, own: seq<Receipt>)
    requires DistinctReceipts(rs) && DistinctReceipts(own)
    requires forall r, q :: r in rs && q in own ==> !SameKey(r, q)
    ensures DistinctReceipts(rs + own) && DistinctReceipts(rs)
  {
    var all := rs + own;
    forall i, j | 0 <= i < j < |all| ensures !SameKey(all[i], all[j]) {
      if i < |rs| <= j { assert rs[i] in rs && own[j - |rs|] in own; }
    }
  }

  ghost predicate SweptAt(k: Sweep, height: UInt64, endpoint: string, batches: seq<Batch>, at: Date, r: Receipt,
                          i: int, j: int)
  {
    0 <= i < |batches| && 0 <= j < |batches[i].items| && batches[i].url == endpoint
    && SweepReceiptOf(k, height, batches[i], batches[i].items[j], at, r)
  }

  ghost predicate SweptSomewhere(k: Sweep, height: UInt64, endpoint: string, batches: seq<Batch>, at: Date, r: Receipt) {
    exists i, j :: SweptAt(k, height, endpoint, batches, at, r, i, j)
  }

  ghost predicate AllOk(batches: seq<Batch>, owner: Owner) {
    DistinctBatchIds(batches) && forall i :: 0 <= i < |batches| ==> BatchOk(batches[i], owner)
  }

  lemma OkInit(batches: seq<Batch>, owner: Owner)
    requires AllOk(batches, owner) && batches != []
    ensures AllOk(batches[..|batches| - 1], owner) && DistinctItemIds(batches[|batches| - 1].items)
  {
    assert BatchOk(batches[|batches| - 1], owner);
  }

  /** A sweep records a receipt for nothing but an item it settles ... */
  lemma {:induction false} SweepReceiptsAreOfSwept(k: Sweep, height: UInt64, endpoint: string, batches: seq<Batch>,
                                                   at: Date, owner: Owner, r: Receipt)
    requires AllOk(batches, owner) && r in SweepReceipts(k, height, endpoint, batches, at)
    ensures SweptSomewhere(k, height, endpoint, batches, at, r)
  {
    var n := |batches| - 1;
    var init, b := batches[..n], batches[n];
    OkInit(batches, owner);
    hide BatchOk, DistinctBatchIds, DistinctReceipts;
    if r in SweepReceipts(k, height, endpoint, init, at) {
      SweepReceiptsAreOfSwept(k, height, endpoint, init, at, owner, r);
      var i, j :| SweptAt(k, height, endpoint, init, at, r, i, j);
      assert SweptAt(k, height, endpoint, batches, at, r, i, j);
    } else {
      ItemReceiptsAreOfSwept(k, height, b, b.items, at, r);
      var j :| 0 <= j < |b.items| && SweepReceiptOf(k, height, b, b.items[j], at, r);
      assert SweptAt(k, height, endpoint, batches, at, r, n, j);
    }
  }

  /** ... one for each of these ... */
  lemma {:induction false} SweptHaveReceipts(k: Sweep, height: UInt64, endpoint: string, batches: seq<Batch>, at: Date,
                                             owner: Owner, r: Receipt, i: nat, j: nat)
    requires AllOk(batches, owner) && SweptAt(k, height, endpoint, batches, at, r, i, j)
    ensures r in SweepReceipts(k, height, endpoint, batches, at)
  {
    var n := |batches| - 1;
    var init, b := batches[..n], batches[n];
    OkInit(batches, owner);
    hide BatchOk, DistinctBatchIds, DistinctReceipts;
    if i < n {
      assert SweptAt(k, height, endpoint, init, at, r, i, j);
      SweptHaveReceipts(k, height, endpoint, init, at, owner, r, i, j);
    } else {
      SweptItemsHaveReceipts(k, height, b, b.items, at, r, j);
    }
  }

  /** ... and no two for one item. */
  lemma {:induction false} SweepReceiptsDistinct(k: Sweep, height: UInt64, endpoint: string, batches: seq<Batch>,
                                                 at: Date, owner: Owner)
    requires AllOk(batches, owner)
    ensures DistinctReceipts(SweepReceipts(k, height, endpoint, batches, at))
  {
    if batches != [] {
      var n := |batches| - 1;
      var init, b := batches[..n], batches[n];
      OkInit(batches, owner);
      SweepReceiptsDistinct(k, height, endpoint, init, at, owner);
      ItemReceiptsDistinct(k, height, b, b.items, at);
      var rs, own := SweepReceipts(k, height, endpoint, init, at), ItemReceipts(k, height, b, b.items, at);
      forall r, q | r in rs && q in own ensures !SameKey(r, q) {
        SweepReceiptsAreOfSwept(k, height, endpoint, init, at, owner, r);
        ItemReceiptsAreOfSwept(k, height, b, b.items, at, q);
        var i, j :| SweptAt(k, height, endpoint, init, at, r, i, j);
        assert batches[i].batchId != b.batchId;
      }
      hide ItemReceipts, BatchOk, DistinctBatchIds;
      JoinedDistinct(rs, own);
    }
  }

  lemma SweptBatchIsOk(b: Batch, k: Sweep, height: UInt64, endpoint: string, owner: Owner)
    requires BatchOk(b, owner)
    ensures var b' := SweptBatch(k, height, endpoint, b);
            BatchOk(b', owner) && StepsBatch(b, b') && b'.sentPending == b.sentPending
  {
    hide SweepOutcome;
  }

  lemma SweptBatchSettles(b: Batch, k: Sweep, height: UInt64, endpoint: string, at: Date, extra: seq<Receipt>)
    requires b.url == endpoint ==>
               forall j :: 0 <= j < |b.items| && Swept(k, height, b.items[j])
                 ==> MakeReceipt(b, b.items[j], SweepOutcome(k), height, None, SweepMessage(k), [], at) in extra
    ensures SettlesBatch(b, SweptBatch(k, height, endpoint, b), extra)
  {
    hide SweepMessage;
    var b' := SweptBatch(k, height, endpoint, b);
    forall j | 0 <= j < |b.items|
      ensures KeptItem(b.items[j], b'.items[j]) || SettledItem(b, b.items[j], b'.items[j], extra)
    {
      if b.url == endpoint && Swept(k, height, b.items[j]) {
        assert b.items[j] in b.items;
        assert Matches(MakeReceipt(b, b.items[j], SweepOutcome(k), height, None, SweepMessage(k), [], at), b, b'.items[j]);
      }
    }
  }

  lemma SweptReceiptSettles(batches: seq<Batch>, k: Sweep, height: UInt64, endpoint: string, at: Date, r: Receipt,
                            i: int, j: int)
    requires SweptAt(k, height, endpoint, batches, at, r, i, j)
    ensures SettlesAt(batches, MapBatches(batches, (b: Batch) => SweptBatch(k, height, endpoint, b)), r, i, j)
  {
    assert batches[i].items[j] in batches[i].items;
  }

  lemma SweepSettles(s: Snapshot, k: Sweep, height: UInt64, endpoint: string, at: Date, owner: Owner)
    requires AllOk(s.batches, owner)
    ensures Settles(s, SweepAll(s, k, height, endpoint, at), SweepReceipts(k, height, endpoint, s.batches, at))
  {
    var s' := SweepAll(s, k, height, endpoint, at);
    var extra := SweepReceipts(k, height, endpoint, s.batches, at);
    SweepReceiptsDistinct(k, height, endpoint, s.batches, at, owner);
    forall i | 0 <= i < |s.batches| ensures SettlesBatch(s.batches[i], s'.batches[i], extra) {
      var b := s.batches[i];
      forall j | 0 <= j < |b.items| && Swept(k, height, b.items[j]) && b.url == endpoint
        ensures MakeReceipt(b, b.items[j], SweepOutcome(k), height, None, SweepMessage(k), [], at) in extra
      {
        var r := MakeReceipt(b, b.items[j], SweepOutcome(k), height, None, SweepMessage(k), [], at);
        SweptHaveReceipts(k, height, endpoint, s.batches, at, owner, r, i, j);
      }
      SweptBatchSettles(b, k, height, endpoint, at, extra);
    }
    forall r | r in extra ensures exists i, j :: SettlesAt(s.batches, s'.batches, r, i, j) {
      SweepReceiptsAreOfSwept(k, height, endpoint, s.batches, at, owner, r);
      var i, j :| SweptAt(k, height, endpoint, s.batches, at, r, i, j);
      SweptReceiptSettles(s.batches, k, height, endpoint, at, r, i, j);
    }
  }

  lemma SweepKeepsInv(s: Snapshot, k: Sweep, height: UInt64, endpoint: string, at: Date, owner: Owner)
    requires Inv(s, owner)
    ensures Inv(SweepAll(s, k, height, endpoint, at), owner) && KeepsRecords(s, SweepAll(s, k, height, endpoint, at))
  {
    var s' := SweepAll(s, k, height, endpoint, at);
    SweepSettles(s, k, height, endpoint, at, owner);
    forall i | 0 <= i < |s.batches|
      ensures BatchOk(s'.batches[i], owner) && StepsBatch(s.batches[i], s'.batches[i])
      ensures s'.batches[i].sentPending == s.batches[i].sentPending && s'.batches[i].batchId == s.batches[i].batchId
    {
      SweptBatchIsOk(s.batches[i], k, height, endpoint, owner);
    }
    SettlingKeepsInv(s, s', SweepReceipts(k, height, endpoint, s.batches, at), owner);
    SteppingKeepsRecords(s, s', owner);
  }

  // ---------------------------------------------------------------- removals

  /** A trimmed batch with no item left but a reason to stay, or a dropped one. */
  lemma AcknowledgeMembers(s: Snapshot, ids: set<string>, b: Batch)
    requires b in s.batches && !ClosedByAcknowledgement(s, ids, b.batchId)
    requires !Emptied(WithoutItems(b, AcknowledgedItemIds(s, ids)))
    ensures WithoutItems(b, AcknowledgedItemIds(s, ids)) in Acknowledge(s, ids).batches
  {
    var open := Filter(s.batches, (b: Batch) => !ClosedByAcknowledgement(s, ids, b.batchId));
    var gone := AcknowledgedItemIds(s, ids);
    var trimmed := MapBatches(open, (b: Batch) => WithoutItems(b, gone));
    var i :| 0 <= i < |open| && open[i] == b;
    assert trimmed[i] == WithoutItems(b, gone);
  }

  lemma AcknowledgeKeepsBatchIds(s: Snapshot, ids: set<string>)
    requires DistinctBatchIds(s.batches)
    ensures DistinctBatchIds(Acknowledge(s, ids).batches)
  {
    var open := Filter(s.batches, (b: Batch) => !ClosedByAcknowledgement(s, ids, b.batchId));
    var gone := AcknowledgedItemIds(s, ids);
    var trimmed := MapBatches(open, (b: Batch) => WithoutItems(b, gone));
    FilterKeepsBatchIds(s.batches, (b: Batch) => !ClosedByAcknowledgement(s, ids, b.batchId));
    FilterKeepsBatchIds(trimmed, (b: Batch) => !Emptied(b));
  }

  /** Each batch left is a stored one without its acknowledged items. */
  lemma AcknowledgeLeaves(s: Snapshot, ids: set<string>, b': Batch) returns (b: Batch)
    requires b' in Acknowledge(s, ids).batches
    ensures b in s.batches && b' == WithoutItems(b, AcknowledgedItemIds(s, ids))
  {
    var open := Filter(s.batches, (b: Batch) => !ClosedByAcknowledgement(s, ids, b.batchId));
    var gone := AcknowledgedItemIds(s, ids);
    var trimmed := MapBatches(open, (b: Batch) => WithoutItems(b, gone));
    var a :| 0 <= a < |trimmed| && trimmed[a] == b';
    assert open[a] in open;
    b := open[a];
  }

  lemma AcknowledgeTrims(s: Snapshot, ids: set<string>, owner: Owner, b': Batch) returns (b: Batch)
    requires Inv(s, owner) && b' in Acknowledge(s, ids).batches
    ensures b in s.batches && Trims(b, b') && b' == WithoutItems(b, AcknowledgedItemIds(s, ids))
  {
    b := AcknowledgeLeaves(s, ids, b');
    var c :| 0 <= c < |s.batches| && s.batches[c] == b;
    assert BatchOk(s.batches[c], owner);
    FilterKeepsItemIds(b.items, (it: Item) => it.itemId !in AcknowledgedItemIds(s, ids));
  }

  /** No acknowledged receipt is about an item of this id, in whatever batch. */
  predicate Spares(s: Snapshot, ids: set<string>, itemId: string) {
    forall q :: q in s.receipts && q.receiptId in ids ==> q.itemId != itemId
  }

  /** What an acknowledgement leaves holds items of no acknowledged id. */
  lemma AcknowledgeLeavesSpared(s: Snapshot, ids: set<string>, b': Batch, it: Item)
    requires b' in Acknowledge(s, ids).batches && it in b'.items
    ensures Spares(s, ids, it.itemId)
    ensures exists b :: b in s.batches && b'.batchId == b.batchId && it in b.items
  {
    var b := AcknowledgeLeaves(s, ids, b');
    assert it.itemId !in AcknowledgedItemIds(s, ids);
  }

  /** Without any assumption about item ids: an item whose own receipt is not
      acknowledged stays in a batch of its id exactly when no acknowledged
      receipt, of whatever batch, names its item id. */
  lemma UnacknowledgedItemStaysIff(s: Snapshot, ids: set<string>, r: Receipt, b: Batch, it: Item)
    requires r in s.receipts && r.receiptId !in ids && Carries(s.batches, r, b, it)
    ensures Survives(Acknowledge(s, ids).batches, b, it) <==> Spares(s, ids, it.itemId)
  {
    if Survives(Acknowledge(s, ids).batches, b, it) {
      var b' :| b' in Acknowledge(s, ids).batches && b'.batchId == b.batchId && it in b'.items;
      AcknowledgeLeavesSpared(s, ids, b', it);
    }
    if Spares(s, ids, it.itemId) {
      assert it in WithoutItems(b, AcknowledgedItemIds(s, ids)).items;
      assert !ClosedByAcknowledgement(s, ids, b.batchId);
      AcknowledgeMembers(s, ids, b);
    }
  }

  lemma AcknowledgedKeepsReceipts(s: Snapshot, ids: set<string>, i: nat, j: nat)
    requires Reconciled(s.batches, s.receipts) && AwaitingAt(Acknowledge(s, ids).batches, i, j)
    ensures HasReceipt(Acknowledge(s, ids).batches, Acknowledge(s, ids).receipts, i, j)
  {
    hide Filter;
    var s' := Acknowledge(s, ids);
    var b', it := s'.batches[i], s'.batches[i].items[j];
    assert b' in s'.batches && it in b'.items;
    AcknowledgeLeavesSpared(s, ids, b', it);
    var b :| b in s.batches && b'.batchId == b.batchId && it in b.items;
    var a :| 0 <= a < |s.batches| && s.batches[a] == b;
    var c :| 0 <= c < |b.items| && b.items[c] == it;
    assert HasReceipt(s.batches, s.receipts, a, c);
    var r :| r in s.receipts && AboutItem(s.batches, r, a, c);
    assert r in s'.receipts && AboutItem(s'.batches, r, i, j);
  }

  lemma SparedKeepsItem(s: Snapshot, ids: set<string>, r: Receipt)
    requires Reconciled(s.batches, s.receipts) && r in s.receipts && r.receiptId !in ids
    ensures HasItem(Acknowledge(s, ids).batches, r) <==> Spares(s, ids, r.itemId)
  {
    hide Acknowledge;
    var s' := Acknowledge(s, ids);
    if HasItem(s'.batches, r) {
      var i, j :| AboutItem(s'.batches, r, i, j);
      AcknowledgeLeavesSpared(s, ids, s'.batches[i], s'.batches[i].items[j]);
    }
    if Spares(s, ids, r.itemId) {
      assert HasItem(s.batches, r);
      var i, j :| AboutItem(s.batches, r, i, j);
      var b, it := s.batches[i], s.batches[i].items[j];
      assert Carries(s.batches, r, b, it);
      UnacknowledgedItemStaysIff(s, ids, r, b, it);
      var b' :| b' in s'.batches && b'.batchId == b.batchId && it in b'.items;
      var i' :| 0 <= i' < |s'.batches| && s'.batches[i'] == b';
      var j' :| 0 <= j' < |b'.items| && b'.items[j'] == it;
      assert AboutItem(s'.batches, r, i', j');
    }
  }

  /** Whatever ids items and batches have: an acknowledgement keeps receipts and
      awaiting items in correspondence exactly when no receipt it names shares
      its item id with one it does not name. */
  lemma AcknowledgeReconciledIff(s: Snapshot, ids: set<string>)
    requires Reconciled(s.batches, s.receipts)
    ensures Reconciled(Acknowledge(s, ids).batches, Acknowledge(s, ids).receipts)
            <==> forall r :: r in s.receipts && r.receiptId !in ids ==> Spares(s, ids, r.itemId)
  {
    var s' := Acknowledge(s, ids);
    forall r | r in s.receipts && r.receiptId !in ids
      ensures HasItem(s'.batches, r) <==> Spares(s, ids, r.itemId)
    {
      SparedKeepsItem(s, ids, r);
    }
    forall i, j | AwaitingAt(s'.batches, i, j) ensures HasReceipt(s'.batches, s'.receipts, i, j) {
      AcknowledgedKeepsReceipts(s, ids, i, j);
    }
    FilterKeepsReceipts(s.receipts, (r: Receipt) => r.receiptId !in ids);
    assert forall r :: r in s'.receipts <==> r in s.receipts && r.receiptId !in ids;
  }

  lemma AcknowledgedItemGoes(s: Snapshot, ids: set<string>, owner: Owner, r: Receipt, b: Batch, it: Item)
    requires Inv(s, owner) && r in s.receipts && Carries(s.batches, r, b, it)
    ensures it.itemId in AcknowledgedItemIds(s, ids) <==> r.receiptId in ids
  {
    if it.itemId in AcknowledgedItemIds(s, ids) {
      var q :| q in s.receipts && q.receiptId in ids && q.itemId == it.itemId;
      ReceiptOfKey(s, owner, r, q);
    }
  }

  lemma UnacknowledgedItemStays(s: Snapshot, ids: set<string>, owner: Owner, r: Receipt, b: Batch, it: Item)
    requires Inv(s, owner) && r in s.receipts && r.receiptId !in ids && Carries(s.batches, r, b, it)
    ensures Survives(Acknowledge(s, ids).batches, b, it)
  {
    AcknowledgedItemGoes(s, ids, owner, r, b, it);
    assert forall q :: q in s.receipts && q.receiptId in ids ==> q.itemId in AcknowledgedItemIds(s, ids);
    UnacknowledgedItemStaysIff(s, ids, r, b, it);
  }

  lemma TrimmedItemIsUnacknowledged(s: Snapshot, ids: set<string>, owner: Owner, r: Receipt, b': Batch, it: Item)
    requires Inv(s, owner) && r in s.receipts && Carries(Acknowledge(s, ids).batches, r, b', it)
    ensures r.receiptId !in ids
  {
    var b := AcknowledgeTrims(s, ids, owner, b');
    assert Carries(s.batches, r, b, it);
    AcknowledgedItemGoes(s, ids, owner, r, b, it);
  }

  lemma AcknowledgeDrops(s: Snapshot, ids: set<string>, owner: Owner)
    requires Inv(s, owner)
    ensures Drops(s, Acknowledge(s, ids))
  {
    var s' := Acknowledge(s, ids);
    AcknowledgeKeepsBatchIds(s, ids);
    FilterKeepsReceipts(s.receipts, (r: Receipt) => r.receiptId !in ids);
    forall i | 0 <= i < |s'.batches| ensures TrimOf(s.batches, s'.batches[i]) {
      var b := AcknowledgeTrims(s, ids, owner, s'.batches[i]);
    }
    forall r, b, it | r in s'.receipts && Carries(s.batches, r, b, it) ensures Survives(s'.batches, b, it) {
      UnacknowledgedItemStays(s, ids, owner, r, b, it);
    }
    forall r, b', it | r in s.receipts && Carries(s'.batches, r, b', it) ensures r in s'.receipts {
      TrimmedItemIsUnacknowledged(s, ids, owner, r, b', it);
    }
  }

  /** Acknowledging any subset of the receipts keeps the correspondence. */
  lemma AcknowledgeKeepsInv(s: Snapshot, ids: set<string>, owner: Owner)
    requires Inv(s, owner)
    ensures Inv(Acknowledge(s, ids), owner) && Evolves(s, Acknowledge(s, ids))
    ensures forall k :: Lookup(Acknowledge(s, ids), k).Some? ==> Lookup(s, k) == Lookup(Acknowledge(s, ids), k)
  {
    AcknowledgeDrops(s, ids, owner);
    DroppingKeepsInv(s, Acknowledge(s, ids), owner);
    DroppingEvolves(s, Acknowledge(s, ids), owner);
  }

  /** No item still awaiting reconciliation is removed by an acknowledgement
      that does not name its receipt. */
  lemma UnreconciledItemIsKept(s: Snapshot, ids: set<string>, owner: Owner, i: nat, j: nat)
    requires Inv(s, owner) && AwaitingAt(s.batches, i, j)
    requires forall r :: r in s.receipts && AboutItem(s.batches, r, i, j) ==> r.receiptId !in ids
    ensures Lookup(Acknowledge(s, ids), (s.batches[i].batchId, s.batches[i].items[j].itemId)) == Some(s.batches[i].items[j])
  {
    assert HasReceipt(s.batches, s.receipts, i, j);
    var r :| r in s.receipts && AboutItem(s.batches, r, i, j);
    var b, it := s.batches[i], s.batches[i].items[j];
    assert Carries(s.batches, r, b, it);
    UnacknowledgedItemStays(s, ids, owner, r, b, it);
    AcknowledgeKeepsInv(s, ids, owner);
    var s' := Acknowledge(s, ids);
    var b' :| b' in s'.batches && b'.batchId == b.batchId && it in b'.items;
    var a :| 0 <= a < |s'.batches| && s'.batches[a] == b';
    var c :| 0 <= c < |b'.items| && b'.items[c] == it;
    FoundByKey(s', owner, a, c);
  }

  /** Dropping whole batches, each with all of its receipts. */
  lemma DropBatches(s: Snapshot, s': Snapshot, keep: string -> bool, owner: Owner)
    requires Inv(s, owner)
    requires s'.batches == Filter(s.batches, (b: Batch) => keep(b.batchId))
    requires s'.receipts == Filter(s.receipts, (r: Receipt) => keep(r.batchId))
    requires forall id :: id in s'.announced ==> id in s.announced
    ensures Inv(s', owner) && Evolves(s, s')
    ensures forall k :: Lookup(s', k).Some? ==> Lookup(s, k) == Lookup(s', k)
  {
    FilterKeepsBatchIds(s.batches, (b: Batch) => keep(b.batchId));
    FilterKeepsReceipts(s.receipts, (r: Receipt) => keep(r.batchId));
    forall i | 0 <= i < |s'.batches| ensures TrimOf(s.batches, s'.batches[i]) {
      assert s'.batches[i] in s'.batches;
      var c :| 0 <= c < |s.batches| && s.batches[c] == s'.batches[i];
      assert BatchOk(s.batches[c], owner);
      assert Trims(s.batches[c], s'.batches[i]);
    }
    DroppingKeepsInv(s, s', owner);
    DroppingEvolves(s, s', owner);
  }

  lemma RevokeKeepsInv(s: Snapshot, network: string, account: string, owner: Owner)
    requires Inv(s, owner)
    ensures Inv(Revoke(s, network, account), owner) && Evolves(s, Revoke(s, network, account))
    ensures forall k :: Lookup(Revoke(s, network, account), k).Some?
                        ==> Lookup(s, k) == Lookup(Revoke(s, network, account), k)
  {
    var ids := ScopeBatchIds(s, network, account);
    var s' := Revoke(s, network, account);
    var keep := (id: string) => id !in ids;
    FilterAgrees(s.batches, (b: Batch) => b.batchId !in ids, (b: Batch) => keep(b.batchId));
    FilterAgrees(s.receipts, (r: Receipt) => r.batchId !in ids, (r: Receipt) => keep(r.batchId));
    DropBatches(s, s', keep, owner);
  }

  lemma {:induction false} FilterAll<T(!new)>(xs: seq<T>, p: T -> bool)
    requires forall x :: x in xs ==> p(x)
    ensures Filter(xs, p) == xs
  {
    if xs != [] {
      assert xs[0] in xs && forall x :: x in xs[1..] ==> x in xs;
      FilterAll(xs[1..], p);
    }
  }

  lemma RemoveAtHead(batches: seq<Batch>, bi: nat)
    requires bi < |batches|
    ensures bi == 0 ==> RemoveAt(batches, bi) == batches[1..]
    ensures bi > 0 ==> RemoveAt(batches, bi) == [batches[0]] + RemoveAt(batches[1..], bi - 1)
  {
  }

  lemma {:induction false} RemoveAtIsFilter(batches: seq<Batch>, bi: nat, p: Batch -> bool)
    requires bi < |batches| && forall i :: 0 <= i < |batches| ==> p(batches[i]) == (i != bi)
    ensures RemoveAt(batches, bi) == Filter(batches, p)
  {
    RemoveAtHead(batches, bi);
    hide RemoveAt;
    assert forall i :: 0 <= i < |batches[1..]| ==> batches[1..][i] == batches[i + 1];
    if bi == 0 {
      FilterAll(batches[1..], p);
    } else {
      RemoveAtIsFilter(batches[1..], bi - 1, p);
    }
  }

  /** Removing a batch that no receipt mentions. */
  lemma RemoveBatchKeepsInv(s: Snapshot, bi: nat, s': Snapshot, owner: Owner)
    requires Inv(s, owner) && bi < |s.batches| && s'.batches == RemoveAt(s.batches, bi)
    requires s'.receipts == s.receipts && forall r :: r in s.receipts ==> r.batchId != s.batches[bi].batchId
    requires forall id :: id in s'.announced ==> id in s.announced
    ensures Inv(s', owner) && Evolves(s, s')
    ensures forall k :: Lookup(s', k).Some? ==> Lookup(s, k) == Lookup(s', k)
  {
    var keep := (id: string) => id != s.batches[bi].batchId;
    RemoveAtIsFilter(s.batches, bi, (b: Batch) => keep(b.batchId));
    FilterAll(s.receipts, (r: Receipt) => keep(r.batchId));
    DropBatches(s, s', keep, owner);
  }

  lemma DiscardKeepsInv(s: Snapshot, batchId: string, owner: Owner)
    requires Inv(s, owner) && Discard(s, batchId).Success?
    ensures Inv(Discard(s, batchId).value.0, owner) && Evolves(s, Discard(s, batchId).value.0)
    ensures forall k :: Lookup(Discard(s, batchId).value.0, k).Some?
                        ==> Lookup(s, k) == Lookup(Discard(s, batchId).value.0, k)
  {
    var bi := BatchIndex(s.batches, batchId);
    if bi.Some? {
      RemoveBatchKeepsInv(s, bi.value, Discard(s, batchId).value.0, owner);
    }
  }

  /** A batch that may be discarded holds no evidence of an attempt. */
  lemma DiscardedHasNoEvidence(s: Snapshot, batchId: string, owner: Owner, i: nat, j: nat)
    requires Inv(s, owner) && Discard(s, batchId).Success?
    requires BatchIndex(s.batches, batchId) == Some(i) && i < |s.batches| && j < |s.batches[i].items|
    ensures !Evidence(s.batches[i].items[j])
  {
    assert s.batches[i].items[j] in s.batches[i].items;
    assert AwaitingAt(s.batches, i, j) ==> HasReceipt(s.batches, s.receipts, i, j);
  }

  /** Where batch `i` is after batch `bi` was removed. */
  lemma RemovedShifts(batches: seq<Batch>, bi: nat, i: nat)
    requires bi < |batches| && i < |batches| && i != bi
    ensures var i' := if i < bi then i else i - 1;
            i' < |RemoveAt(batches, bi)| && RemoveAt(batches, bi)[i'] == batches[i]
  {
  }

  /** Discarding a batch never removes a record with evidence of an attempt. */
  lemma DiscardKeepsAttempted(s: Snapshot, batchId: string, owner: Owner, k: Key)
    requires Inv(s, owner) && Discard(s, batchId).Success?
    requires Lookup(s, k).Some? && Evidence(Lookup(s, k).value)
    ensures Lookup(Discard(s, batchId).value.0, k) == Lookup(s, k)
  {
    var bi := BatchIndex(s.batches, batchId);
    if bi.Some? {
      var i, j := KeyPosition(s, k);
      if i == bi.value { DiscardedHasNoEvidence(s, batchId, owner, i, j); }
      RemovedShifts(s.batches, bi.value, i);
      DiscardKeepsInv(s, batchId, owner);
      hide Inv, Lookup, Evidence;
      FoundByKey(Discard(s, batchId).value.0, owner, if i < bi.value then i else i - 1, j);
    }
  }

  lemma AcknowledgeSentKeepsInv(s: Snapshot, batchId: string, at: Date, owner: Owner)
    requires Inv(s, owner) && AcknowledgeSent(s, batchId, at).Success?
    ensures Inv(AcknowledgeSent(s, batchId, at).value, owner) && Evolves(s, AcknowledgeSent(s, batchId, at).value)
    ensures forall k :: Lookup(AcknowledgeSent(s, batchId, at).value, k).Some?
                        ==> Lookup(s, k) == Lookup(AcknowledgeSent(s, batchId, at).value, k)
  {
    var bi := BatchIndex(s.batches, batchId).value;
    var b := s.batches[bi];
    var marked := b.(sentPending := None, sentNotified := Some(at));
    SameItemsIsOk(b, marked, owner);
    AmendingKeepsInv(s, bi, marked, owner);
    var s1 := WithBatch(s, bi, marked);
    var s' := AcknowledgeSent(s, batchId, at).value;
    AnnouncingKeepsInv(s1, batchId, s'.announced, owner, bi);
    SameLookups(s, s1.(announced := s'.announced), owner);
    if b.items == [] && b.nextProof.None? {
      forall r | r in s.receipts ensures r.batchId != batchId {
        assert HasItem(s.batches, r);
        var i, j :| AboutItem(s.batches, r, i, j);
      }
      RemoveBatchKeepsInv(s1.(announced := s'.announced), bi, s', owner);
    }
  }

  lemma AnnouncingKeepsInv(s: Snapshot, batchId: string, announced: seq<string>, owner: Owner, bi: nat)
    requires Inv(s, owner) && bi < |s.batches| && s.batches[bi].batchId == batchId && s.batches[bi].sentPending.None?
    requires forall id :: id in announced ==> id == batchId || id in s.announced
    ensures Inv(s.(announced := announced), owner)
  {
  }

  lemma SameLookups(s: Snapshot, s': Snapshot, owner: Owner)
    requires Inv(s, owner) && Inv(s', owner) && |s'.batches| == |s.batches|
    requires forall i :: 0 <= i < |s.batches| ==>
               s'.batches[i].batchId == s.batches[i].batchId && s'.batches[i].items == s.batches[i].items
    ensures forall k :: Lookup(s', k) == Lookup(s, k)
  {
    forall k ensures Lookup(s', k) == Lookup(s, k) {
      if Lookup(s', k).Some? {
        var i, j := KeyPosition(s', k);
        FoundByKey(s, owner, i, j);
      }
      if Lookup(s, k).Some? {
        var i, j := KeyPosition(s, k);
        FoundByKey(s', owner, i, j);
      }
    }
  }
}
