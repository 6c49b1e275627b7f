/** What holds in every reachable state of the outbox protocol. */
module OutboxSafety {
  import opened Base
  import opened OutboxTypes
  import opened OutboxTransitions
  import opened OutboxRescheduling
  import opened OutboxInvariant
  import opened OutboxOperations
  import opened OutboxPeers
  import P = OutboxProtocol
  import opened OutboxProtocol

  // -------------------------------------------------- armed and paused batches

  ghost predicate ArmedIn(s: Snapshot, batchId: string) {
    exists i :: 0 <= i < |s.batches| && s.batches[i].batchId == batchId && s.batches[i].armedAt.Some?
  }

  /** No batch that is still armed gets a terminal receipt, and none becomes
      armed. */
  ghost predicate PausesKept(s: Snapshot, s': Snapshot) {
    forall id :: ArmedIn(s', id) ==> ArmedIn(s, id) && id !in NewlyPaused(s, s')
  }

  lemma PausesKeptTransitive(s: Snapshot, s1: Snapshot, s2: Snapshot)
    requires PausesKept(s, s1) && PausesKept(s1, s2)
    ensures PausesKept(s, s2)
  {
    assert NewlyPaused(s, s2) <= NewlyPaused(s, s1) + NewlyPaused(s1, s2);
  }

  /** Same batches by index, nothing newly armed, no new terminal receipt. */
  lemma SameArming(s: Snapshot, s': Snapshot)
    requires |s'.batches| == |s.batches| && forall r :: r in s'.receipts && r !in s.receipts ==> !Terminal(r.outcome)
    requires forall i :: 0 <= i < |s.batches| ==>
               s'.batches[i].batchId == s.batches[i].batchId && (s'.batches[i].armedAt.Some? ==> s.batches[i].armedAt.Some?)
    ensures PausesKept(s, s')
  {
    assert NewlyPaused(s, s') == {};
    forall id | ArmedIn(s', id) ensures ArmedIn(s, id) {
      var i :| 0 <= i < |s'.batches| && s'.batches[i].batchId == id && s'.batches[i].armedAt.Some?;
      assert s.batches[i].batchId == id && s.batches[i].armedAt.Some?;
    }
  }

  lemma SweepPauses(s: Snapshot, k: Sweep, height: UInt64, endpoint: string, at: Date, owner: Owner)
    requires Inv(s, owner)
    ensures PausesKept(s, SweepAll(s, k, height, endpoint, at))
  {
    hide DistinctBatchIds, SweepReceipts;
    var s' := SweepAll(s, k, height, endpoint, at);
    forall id | ArmedIn(s', id) ensures ArmedIn(s, id) && id !in NewlyPaused(s, s') {
      var i :| 0 <= i < |s'.batches| && s'.batches[i].batchId == id && s'.batches[i].armedAt.Some?;
      assert s.batches[i].batchId == id && s.batches[i].armedAt.Some?;
      forall r | r in s'.receipts && r !in s.receipts ensures r.batchId != s.batches[i].batchId {
        SweepReceiptsAreOfSwept(k, height, endpoint, s.batches, at, owner, r);
        SweptBatchIsPaused(s, k, height, endpoint, at, r, i);
      }
    }
  }

  lemma SweptBatchIsPaused(s: Snapshot, k: Sweep, height: UInt64, endpoint: string, at: Date, r: Receipt, i: nat)
    requires DistinctBatchIds(s.batches) && i < |s.batches|
    requires SweptSomewhere(k, height, endpoint, s.batches, at, r)
    requires SweptBatch(k, height, endpoint, s.batches[i]).armedAt.Some?
    ensures r.batchId != s.batches[i].batchId
  {
    var a, j :| SweptAt(k, height, endpoint, s.batches, at, r, a, j);
    assert s.batches[a].items[j] in s.batches[a].items;
  }

  lemma RejectedPauses(s: Snapshot, itemId: string, height: UInt64, code: int, message: string, at: Date, owner: Owner)
    requires Inv(s, owner) && RecordRejected(s, itemId, height, code, message, at).Success?
    ensures PausesKept(s, RecordRejected(s, itemId, height, code, message, at).value)
  {
    var s' := RecordRejected(s, itemId, height, code, message, at).value;
    var (bi, ii) := Location(s.batches, itemId).value;
    assert NewlyPaused(s, s') <= {s.batches[bi].batchId};
    forall id | ArmedIn(s', id) ensures ArmedIn(s, id) && id != s.batches[bi].batchId {
      var i :| 0 <= i < |s'.batches| && s'.batches[i].batchId == id && s'.batches[i].armedAt.Some?;
      assert s.batches[i].batchId == id && s.batches[i].armedAt.Some?;
    }
  }

  // -------------------------------------------------- mutations between phases

  ghost predicate NoNewKeys(s: Snapshot, s': Snapshot) {
    forall k :: Lookup(s', k).Some? ==> Lookup(s, k).Some?
  }

  lemma MutationKeepsInv(s: Snapshot, m: Mutation, cfg: Config)
    requires Inv(s, cfg.owner) && Mutate(s, m, cfg).Success? && Admissible(Change(m, true), cfg)
    ensures Inv(Mutate(s, m, cfg).value, cfg.owner) && Evolves(s, Mutate(s, m, cfg).value)
    ensures m.StageBatch? || NoNewKeys(s, Mutate(s, m, cfg).value)
  {
    match m
    case StageBatch(batch) => StageKeepsInv(s, batch, cfg.hash, cfg.owner);
    case Arm(batchId, digests, at) => ArmKeepsInv(s, batchId, digests, at, cfg.owner);
    case Recover(batchId, network, account, runId, expected, url, at) =>
      RecoverKeepsInv(s, batchId, network, account, runId, expected, url, at, cfg.owner);
    case DiscardBatch(batchId) => DiscardKeepsInv(s, batchId, cfg.owner);
    case AcknowledgeReceipts(ids) => AcknowledgeKeepsInv(s, ids, cfg.owner);
    case AcknowledgeAnnouncement(batchId, at) => AcknowledgeSentKeepsInv(s, batchId, at, cfg.owner);
    case RevokeScope(network, account) => RevokeKeepsInv(s, network, account, cfg.owner);
    case MarkProof(batchId, _, _, _, _) =>
      var bi := BatchIndex(s.batches, batchId).value;
      SameItemsIsOk(s.batches[bi], WithProofMarkers(s.batches[bi], m), cfg.owner);
      AmendingKeepsInv(s, bi, WithProofMarkers(s.batches[bi], m), cfg.owner);
    case RemoveAll =>
  }

  lemma MutationAddsNoReceipt(s: Snapshot, m: Mutation, cfg: Config)
    requires Mutate(s, m, cfg).Success?
    ensures NewlyPaused(s, Mutate(s, m, cfg).value) == {}
  {
  }

  /** Armed batches of `s'` are unchanged batches of `s`, position by position. */
  lemma SubsetArming(s: Snapshot, s': Snapshot, id: string)
    requires ArmedIn(s', id) && forall b :: b in s'.batches ==> b in s.batches
    ensures ArmedIn(s, id)
  {
    var i :| 0 <= i < |s'.batches| && s'.batches[i].batchId == id && s'.batches[i].armedAt.Some?;
    assert s'.batches[i] in s'.batches;
    var a :| 0 <= a < |s.batches| && s.batches[a] == s'.batches[i];
    assert s.batches[a].batchId == id && s.batches[a].armedAt.Some?;
  }

  lemma ReplacedArming(s: Snapshot, bi: nat, b': Batch, s': Snapshot, id: string)
    requires bi < |s.batches| && s'.batches == s.batches[bi := b'] && ArmedIn(s', id)
    requires b'.batchId == s.batches[bi].batchId && (b'.batchId == id ==> b'.armedAt == s.batches[bi].armedAt)
    ensures ArmedIn(s, id)
  {
    var i :| 0 <= i < |s'.batches| && s'.batches[i].batchId == id && s'.batches[i].armedAt.Some?;
    assert s.batches[i].batchId == id && s.batches[i].armedAt.Some?;
  }

  lemma StageArming(s: Snapshot, b: Batch, hash: Bytes -> string, id: string)
    requires Stage(s, b, hash).Success? && b.armedAt.None? && ArmedIn(Stage(s, b, hash).value, id)
    ensures ArmedIn(s, id)
  {
    var s' := Stage(s, b, hash).value;
    var bi := BatchIndex(s.batches, b.batchId);
    if bi.Some? {
      ReplacedArming(s, bi.value, Merged(s.batches[bi.value], b), s', id);
    } else {
      var i :| 0 <= i < |s'.batches| && s'.batches[i].batchId == id && s'.batches[i].armedAt.Some?;
      assert s.batches[i].batchId == id && s.batches[i].armedAt.Some?;
    }
  }

  lemma AcknowledgeSentArming(s: Snapshot, batchId: string, at: Date, id: string)
    requires AcknowledgeSent(s, batchId, at).Success? && ArmedIn(AcknowledgeSent(s, batchId, at).value, id)
    ensures ArmedIn(s, id)
  {
    var s' := AcknowledgeSent(s, batchId, at).value;
    var bi := BatchIndex(s.batches, batchId).value;
    if |s'.batches| == |s.batches| {
      ReplacedArming(s, bi, s'.batches[bi], s', id);
    } else {
      SubsetArming(s, s', id);
    }
  }

  /** Only arming or recovering a batch can make it armed. */
  lemma MutationArms(s: Snapshot, m: Mutation, cfg: Config, id: string)
    requires Inv(s, cfg.owner) && Mutate(s, m, cfg).Success? && Admissible(Change(m, true), cfg)
    requires ArmedIn(Mutate(s, m, cfg).value, id) && !ArmsOrRecovers(m, id)
    ensures ArmedIn(s, id)
  {
    hide FirstIndex, Inv, Stage;
    var s' := Mutate(s, m, cfg).value;
    match m
    case StageBatch(batch) => StageArming(s, batch, cfg.hash, id);
    case Arm(batchId, _, _) =>
      var bi := BatchIndex(s.batches, batchId).value;
      ReplacedArming(s, bi, s'.batches[bi], s', id);
    case Recover(batchId, _, _, _, _, _, _) =>
      var bi := BatchIndex(s.batches, batchId);
      if bi.Some? { ReplacedArming(s, bi.value, s'.batches[bi.value], s', id); }
    case DiscardBatch(_) => SubsetArming(s, s', id);
    case AcknowledgeReceipts(ids) =>
      var i :| 0 <= i < |s'.batches| && s'.batches[i].batchId == id && s'.batches[i].armedAt.Some?;
      AcknowledgeArming(s, ids, cfg.owner, i);
    case AcknowledgeAnnouncement(batchId, at) => AcknowledgeSentArming(s, batchId, at, id);
    case RevokeScope(_, _) => SubsetArming(s, s', id);
    case MarkProof(batchId, _, _, _, _) =>
      ReplacedArming(s, BatchIndex(s.batches, batchId).value, s'.batches[BatchIndex(s.batches, batchId).value], s', id);
    case RemoveAll =>
  }

  lemma AcknowledgeArming(s: Snapshot, ids: set<string>, owner: Owner, i: nat)
    requires Inv(s, owner) && i < |Acknowledge(s, ids).batches| && Acknowledge(s, ids).batches[i].armedAt.Some?
    ensures ArmedIn(s, Acknowledge(s, ids).batches[i].batchId)
  {
    var kept := Acknowledge(s, ids).batches;
    var b := AcknowledgeTrims(s, ids, owner, kept[i]);
    var a :| 0 <= a < |s.batches| && s.batches[a] == b;
    assert s.batches[a].armedAt.Some?;
  }
}
