/** What the rest of the system can do to the batch of an item in flight. */
module OutboxPeers {
  import opened Base
  import opened OutboxTypes
  import opened OutboxTransitions
  import opened OutboxRescheduling
  import opened OutboxInvariant
  import opened OutboxOperations
  import P = OutboxProtocol

  // ------------------------------------------------------ counting the peers

  lemma OverdueSnoc(items: seq<Item>, it: Item, itemId: string, height: UInt64)
    ensures |Overdue(items + [it], itemId, height)|
            == |Overdue(items, itemId, height)| + (if OverduePeer(it, itemId, height) then 1 else 0)
  {
    var all := items + [it];
    var p := (i: nat) => i < |all| && OverduePeer(all[i], itemId, height);
    FilterSnoc<nat>(Indices(|items|), |items|, p);
    FilterAgrees<nat>(Indices(|items|), p, (i: nat) => i < |items| && OverduePeer(items[i], itemId, height));
  }

  lemma {:induction false} FilteringShrinksOverdue(items: seq<Item>, keep: Item -> bool, itemId: string, height: UInt64)
    ensures |Overdue(Filter(items, keep), itemId, height)| <= |Overdue(items, itemId, height)|
    decreases |items|
  {
    if items != [] {
      var init, last := items[..|items| - 1], items[|items| - 1];
      assert items == init + [last];
      FilterSnoc(init, last, keep);
      FilteringShrinksOverdue(init, keep, itemId, height);
      OverdueSnoc(init, last, itemId, height);
      if keep(last) { OverdueSnoc(Filter(init, keep), last, itemId, height); }
      else { assert Filter(init, keep) + [] == Filter(init, keep); }
    }
  }

  lemma {:induction false} StagedAreNotOverdue(items: seq<Item>, added: seq<Item>, itemId: string, height: UInt64)
    requires forall it :: it in added ==> it.status.Staged?
    ensures |Overdue(items + added, itemId, height)| == |Overdue(items, itemId, height)|
    decreases |added|
  {
    if added == [] {
      assert items + added == items;
    } else {
      var init, last := added[..|added| - 1], added[|added| - 1];
      assert items + added == items + init + [last];
      assert forall it :: it in init ==> it in added;
      StagedAreNotOverdue(items, init, itemId, height);
      OverdueSnoc(items + init, last, itemId, height);
    }
  }

  // ------------------------------------------------ a batch left in peace

  predicate HasPeersOf(items: seq<Item>, items': seq<Item>) {
    forall j :: 0 <= j < |items'| && items'[j].status.Armed? ==> items'[j] in items
  }

  ghost predicate NoMoreOverdue(items: seq<Item>, items': seq<Item>) {
    forall itemId, height :: |Overdue(items', itemId, height)| <= |Overdue(items, itemId, height)|
  }

  /** Every peer in `items'` is one of `items`, and there are no more of them. */
  ghost predicate FewerPeers(items: seq<Item>, items': seq<Item>) {
    HasPeersOf(items, items') && NoMoreOverdue(items, items')
  }

  lemma FewerPeersKeepRoom(items: seq<Item>, items': seq<Item>, itemId: string, height: UInt64)
    requires FewerPeers(items, items') && RoomForPeers(items, itemId, height)
    ensures RoomForPeers(items', itemId, height)
  {
    forall j | 0 <= j < |items'| && OverduePeer(items'[j], itemId, height)
      ensures items'[j].expiry > height + |Overdue(items', itemId, height)|
    {
      var i :| 0 <= i < |items| && items[i] == items'[j];
    }
  }

  lemma TrimmedFewerPeers(items: seq<Item>, keep: Item -> bool)
    ensures FewerPeers(items, Filter(items, keep))
  {
    forall itemId, height: UInt64
      ensures |Overdue(Filter(items, keep), itemId, height)| <= |Overdue(items, itemId, height)|
    {
      FilteringShrinksOverdue(items, keep, itemId, height);
    }
    var items' := Filter(items, keep);
    assert forall j :: 0 <= j < |items'| ==> items'[j] in items';
  }

  lemma AppendedFewerPeers(items: seq<Item>, added: seq<Item>)
    requires forall it :: it in added ==> it.status.Staged?
    ensures FewerPeers(items, items + added)
  {
    forall itemId, height: UInt64
      ensures |Overdue(items + added, itemId, height)| <= |Overdue(items, itemId, height)|
    {
      StagedAreNotOverdue(items, added, itemId, height);
    }
    assert forall j :: 0 <= j < |added| ==> added[j] in added;
  }

  lemma MergedItems(e: Batch, b: Batch, hash: Bytes -> string)
    requires Stageable(b, hash)
    ensures Merged(e, b).items == e.items + NewItems(e.items, b.items)
    ensures forall it :: it in NewItems(e.items, b.items) ==> it.status.Staged?
  {
  }

  /** The selected record and its peers, across a mutation that neither arms
      nor recovers its batch: gone, or unchanged with no new peer. */
  ghost predicate Undisturbed(s: Snapshot, s': Snapshot, k: Key) {
    Lookup(s', k).Some? ==>
      && Lookup(s', k) == Lookup(s, k)
      && BatchOf(s, k.0).Some? && BatchOf(s', k.0).Some?
      && FewerPeers(BatchOf(s, k.0).value.items, BatchOf(s', k.0).value.items)
  }

  predicate ArmsOrRecovers(m: P.Mutation, batchId: string) {
    (m.Arm? || m.Recover?) && m.batchId == batchId
  }

  lemma OtherBatchUntouched(s: Snapshot, bi: nat, b': Batch, id: string)
    requires DistinctBatchIds(s.batches) && bi < |s.batches| && b'.batchId == s.batches[bi].batchId
    ensures BatchOf(WithBatch(s, bi, b'), id)
            == if id == b'.batchId then Some(b') else BatchOf(s, id)
  {
    var s' := WithBatch(s, bi, b');
    assert DistinctBatchIds(s'.batches);
    FoundBatch(s'.batches, bi);
    if id != b'.batchId {
      var i, i' := BatchIndex(s.batches, id), BatchIndex(s'.batches, id);
      if i.Some? { FoundBatch(s'.batches, i.value); }
      if i'.Some? { FoundBatch(s.batches, i'.value); }
    }
  }

  lemma AmendedUndisturbed(s: Snapshot, bi: nat, b': Batch, s': Snapshot, k: Key)
    requires DistinctBatchIds(s.batches) && bi < |s.batches| && b'.batchId == s.batches[bi].batchId
    requires s'.batches == WithBatch(s, bi, b').batches && Lookup(s, k).Some?
    requires k.0 == b'.batchId ==>
               FewerPeers(s.batches[bi].items, b'.items) && |s.batches[bi].items| <= |b'.items|
               && forall j :: 0 <= j < |s.batches[bi].items| ==> b'.items[j] == s.batches[bi].items[j]
    ensures Undisturbed(s, s', k)
  {
    hide FirstIndex;
    OtherBatchUntouched(s, bi, b', k.0);
    assert BatchOf(s', k.0) == BatchOf(WithBatch(s, bi, b'), k.0);
    if k.0 == b'.batchId {
      FoundBatch(s.batches, bi);
      var j := ItemIndex(s.batches[bi].items, k.1).value;
      assert forall a :: 0 <= a < j ==> b'.items[a].itemId != k.1;
      assert b'.items[j].itemId == k.1;
      assert ItemIndex(b'.items, k.1) == Some(j);
    }
  }

  /** `b'` is what is left of `b` without the items in `gone`. */
  predicate LeftOf(b': Batch, b: Batch, gone: set<string>) {
    b.batchId == b'.batchId && (b'.items == b.items || b'.items == WithoutItems(b, gone).items)
  }

  ghost predicate LeftOfSome(b': Batch, batches: seq<Batch>, gone: set<string>) {
    exists b {:trigger LeftOf(b', b, gone)} :: b in batches && LeftOf(b', b, gone)
  }

  lemma LeftHasFewerPeers(b': Batch, b: Batch, gone: set<string>)
    requires LeftOf(b', b, gone)
    ensures FewerPeers(b.items, b'.items)
  {
    TrimmedFewerPeers(b.items, (it: Item) => it.itemId !in gone);
  }

  /** Dropping batches and trimming items. */
  lemma DroppedUndisturbed(s: Snapshot, s': Snapshot, gone: set<string>, owner: Owner, k: Key)
    requires Inv(s, owner) && Lookup(s, k).Some?
    requires Lookup(s', k).Some? ==> Lookup(s, k) == Lookup(s', k)
    requires forall b' :: b' in s'.batches ==> LeftOfSome(b', s.batches, gone)
    ensures Undisturbed(s, s', k)
  {
    if Lookup(s', k).Some? {
      var b' := BatchOf(s', k.0).value;
      assert b' in s'.batches && b'.batchId == k.0;
      assert LeftOfSome(b', s.batches, gone);
      var b :| b in s.batches && LeftOf(b', b, gone);
      var i :| 0 <= i < |s.batches| && s.batches[i] == b;
      FoundBatch(s.batches, i);
      LeftHasFewerPeers(b', b, gone);
    }
  }

  lemma StageUndisturbed(s: Snapshot, b: Batch, hash: Bytes -> string, owner: Owner, k: Key)
    requires Inv(s, owner) && Stage(s, b, hash).Success? && Lookup(s, k).Some?
    ensures Undisturbed(s, Stage(s, b, hash).value, k)
  {
    var bi := BatchIndex(s.batches, b.batchId);
    if bi.None? {
      FoundAfterAppend(s, b, k);
    } else {
      var e := s.batches[bi.value];
      MergedItems(e, b, hash);
      AppendedFewerPeers(e.items, NewItems(e.items, b.items));
      AmendedUndisturbed(s, bi.value, Merged(e, b), Stage(s, b, hash).value, k);
    }
  }

  lemma DiscardUndisturbed(s: Snapshot, batchId: string, owner: Owner, k: Key)
    requires Inv(s, owner) && Discard(s, batchId).Success? && Lookup(s, k).Some?
    ensures Undisturbed(s, Discard(s, batchId).value.0, k)
  {
    DiscardKeepsInv(s, batchId, owner);
    var s' := Discard(s, batchId).value.0;
    forall b' | b' in s'.batches ensures LeftOfSome(b', s.batches, {}) {
      assert b' in s.batches && LeftOf(b', b', {});
    }
    DroppedUndisturbed(s, s', {}, owner, k);
  }

  lemma AcknowledgeUndisturbed(s: Snapshot, ids: set<string>, owner: Owner, k: Key)
    requires Inv(s, owner) && Lookup(s, k).Some?
    ensures Undisturbed(s, Acknowledge(s, ids), k)
  {
    AcknowledgeKeepsInv(s, ids, owner);
    AcknowledgedBatches(s, ids, owner);
    DroppedUndisturbed(s, Acknowledge(s, ids), AcknowledgedItemIds(s, ids), owner, k);
  }

  lemma AcknowledgeSentUndisturbed(s: Snapshot, batchId: string, at: Date, owner: Owner, k: Key)
    requires Inv(s, owner) && AcknowledgeSent(s, batchId, at).Success? && Lookup(s, k).Some?
    ensures Undisturbed(s, AcknowledgeSent(s, batchId, at).value, k)
  {
    hide Lookup;
    AcknowledgeSentKeepsInv(s, batchId, at, owner);
    var s' := AcknowledgeSent(s, batchId, at).value;
    var bi := BatchIndex(s.batches, batchId).value;
    forall b' | b' in s'.batches ensures LeftOfSome(b', s.batches, {}) {
      assert b' in s.batches || (b'.items == s.batches[bi].items && b'.batchId == s.batches[bi].batchId);
      assert LeftOf(b', if b' in s.batches then b' else s.batches[bi], {});
    }
    DroppedUndisturbed(s, s', {}, owner, k);
  }

  lemma RevokeUndisturbed(s: Snapshot, network: string, account: string, owner: Owner, k: Key)
    requires Inv(s, owner) && Lookup(s, k).Some?
    ensures Undisturbed(s, Revoke(s, network, account), k)
  {
    RevokeKeepsInv(s, network, account, owner);
    forall b' | b' in Revoke(s, network, account).batches ensures LeftOfSome(b', s.batches, {}) {
      assert b' in s.batches && LeftOf(b', b', {});
    }
    DroppedUndisturbed(s, Revoke(s, network, account), {}, owner, k);
  }

  lemma MarkProofUndisturbed(s: Snapshot, bi: nat, b': Batch, owner: Owner, k: Key)
    requires Inv(s, owner) && bi < |s.batches| && Lookup(s, k).Some?
    requires b'.batchId == s.batches[bi].batchId && b'.items == s.batches[bi].items
    ensures Undisturbed(s, WithBatch(s, bi, b'), k)
  {
    AmendedUndisturbed(s, bi, b', WithBatch(s, bi, b'), k);
  }

  lemma SameUndisturbed(s: Snapshot, k: Key)
    requires Lookup(s, k).Some?
    ensures Undisturbed(s, s, k)
  {
  }

  lemma ArmUndisturbed(s: Snapshot, batchId: string, digests: map<string, string>, at: Date, k: Key)
    requires DistinctBatchIds(s.batches) && ArmBatch(s, batchId, digests, at).Success?
    requires Lookup(s, k).Some? && k.0 != batchId
    ensures Undisturbed(s, ArmBatch(s, batchId, digests, at).value, k)
  {
    var bi := BatchIndex(s.batches, batchId).value;
    AmendedUndisturbed(s, bi, ArmedBatch(s.batches[bi], digests, at), ArmBatch(s, batchId, digests, at).value, k);
  }

  lemma RecoverUndisturbed(s: Snapshot, batchId: string, network: string, account: string, runId: string,
                           expected: set<string>, url: string, at: Date, k: Key)
    requires DistinctBatchIds(s.batches)
    requires RecoverBatch(s, batchId, network, account, runId, expected, url, at).Success?
    requires Lookup(s, k).Some? && k.0 != batchId
    ensures Undisturbed(s, RecoverBatch(s, batchId, network, account, runId, expected, url, at).value.0, k)
  {
    var s' := RecoverBatch(s, batchId, network, account, runId, expected, url, at).value.0;
    var bi := BatchIndex(s.batches, batchId);
    if bi.Some? {
      AmendedUndisturbed(s, bi.value, RecoveredBatch(s.batches[bi.value], url, at), s', k);
    } else {
      SameUndisturbed(s, k);
    }
  }

  lemma RemovalUndisturbed(s: Snapshot, m: P.Mutation, cfg: P.Config, k: Key)
    requires m.DiscardBatch? || m.AcknowledgeReceipts? || m.AcknowledgeAnnouncement? || m.RevokeScope?
    requires Inv(s, cfg.owner) && P.Mutate(s, m, cfg).Success? && Lookup(s, k).Some?
    ensures Undisturbed(s, P.Mutate(s, m, cfg).value, k)
  {
    match m
    case DiscardBatch(batchId) => DiscardUndisturbed(s, batchId, cfg.owner, k);
    case AcknowledgeReceipts(ids) => AcknowledgeUndisturbed(s, ids, cfg.owner, k);
    case AcknowledgeAnnouncement(batchId, at) => AcknowledgeSentUndisturbed(s, batchId, at, cfg.owner, k);
    case RevokeScope(network, account) => RevokeUndisturbed(s, network, account, cfg.owner, k);
  }

  /** Outside arming and recovering, every mutation leaves a stored record and
      the peers of its batch as they are, or removes some of them. */
  lemma MutationUndisturbed(s: Snapshot, m: P.Mutation, cfg: P.Config, k: Key)
    requires Inv(s, cfg.owner) && P.Mutate(s, m, cfg).Success? && Lookup(s, k).Some?
    requires !ArmsOrRecovers(m, k.0)
    ensures Undisturbed(s, P.Mutate(s, m, cfg).value, k)
  {
    match m
    case StageBatch(batch) => StageUndisturbed(s, batch, cfg.hash, cfg.owner, k);
    case Arm(batchId, digests, at) => ArmUndisturbed(s, batchId, digests, at, k);
    case Recover(batchId, network, account, runId, expected, url, at) =>
      RecoverUndisturbed(s, batchId, network, account, runId, expected, url, at, k);
    case DiscardBatch(_) => RemovalUndisturbed(s, m, cfg, k);
    case AcknowledgeReceipts(_) => RemovalUndisturbed(s, m, cfg, k);
    case AcknowledgeAnnouncement(_, _) => RemovalUndisturbed(s, m, cfg, k);
    case RevokeScope(_, _) => RemovalUndisturbed(s, m, cfg, k);
    case MarkProof(batchId, _, _, _, _) =>
      var bi := BatchIndex(s.batches, batchId).value;
      MarkProofUndisturbed(s, bi, P.WithProofMarkers(s.batches[bi], m), cfg.owner, k);
    case RemoveAll =>
  }

  lemma AcknowledgedBatches(s: Snapshot, ids: set<string>, owner: Owner)
    requires Inv(s, owner)
    ensures forall b' :: b' in Acknowledge(s, ids).batches ==> LeftOfSome(b', s.batches, AcknowledgedItemIds(s, ids))
  {
    var kept, gone := Acknowledge(s, ids).batches, AcknowledgedItemIds(s, ids);
    forall b' | b' in kept ensures LeftOfSome(b', s.batches, gone) {
      var b := AcknowledgeTrims(s, ids, owner, b');
      assert LeftOf(b', b, gone);
    }
  }

  lemma FoundAfterAppend(s: Snapshot, b: Batch, k: Key)
    requires Lookup(s, k).Some? && BatchIndex(s.batches, b.batchId).None?
    ensures Undisturbed(s, s.(batches := s.batches + [b]), k)
  {
    var i := BatchIndex(s.batches, k.0).value;
    var all := s.batches + [b];
    assert all[i] == s.batches[i] && forall a :: 0 <= a < i ==> all[a].batchId != k.0;
    assert BatchIndex(all, k.0) == Some(i);
  }
}
