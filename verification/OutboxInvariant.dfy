/** The reconciliation invariant of the stored snapshot: unacknowledged
    receipts and items awaiting reconciliation correspond one to one. */
module OutboxInvariant {
  import opened Base
  import opened OutboxTypes
  import opened OutboxTransitions

  type Key = (string, string)

  /** The assumption on callers: an item id is only ever staged under the one
      batch id that `owner` names. */
  type Owner = string -> string

  ghost predicate DistinctBatchIds(batches: seq<Batch>) {
    forall i, j :: 0 <= i < j < |batches| ==> batches[i].batchId != batches[j].batchId
  }

  ghost predicate BatchOk(b: Batch, owner: Owner) {
    && DistinctItemIds(b.items)
    && (forall i :: 0 <= i < |b.items| ==> owner(b.items[i].itemId) == b.batchId)
    && 0 < b.mean <= b.max
    && (b.sentPending.Some? ==> forall i :: 0 <= i < |b.items| ==> b.items[i].status.AcceptedAwaiting?)
  }

  predicate Matches(r: Receipt, b: Batch, it: Item) {
    r.batchId == b.batchId && r.itemId == it.itemId && r.txid == it.txid && it.status == StatusOf(r.outcome)
  }

  /** Receipt `r` is about item `j` of batch `i`. */
  predicate AboutItem(batches: seq<Batch>, r: Receipt, i: int, j: int) {
    0 <= i < |batches| && 0 <= j < |batches[i].items| && Matches(r, batches[i], batches[i].items[j])
  }

  ghost predicate HasItem(batches: seq<Batch>, r: Receipt) { exists i, j :: AboutItem(batches, r, i, j) }

  predicate AwaitingAt(batches: seq<Batch>, i: int, j: int) {
    0 <= i < |batches| && 0 <= j < |batches[i].items| && Awaiting(batches[i].items[j].status)
  }

  ghost predicate HasReceipt(batches: seq<Batch>, receipts: seq<Receipt>, i: int, j: int) {
    exists r :: r in receipts && AboutItem(batches, r, i, j)
  }

  predicate SameKey(r: Receipt, q: Receipt) { r.batchId == q.batchId && r.itemId == q.itemId }

  ghost predicate DistinctReceipts(receipts: seq<Receipt>) {
    forall i, j :: 0 <= i < j < |receipts| ==> !SameKey(receipts[i], receipts[j])
  }

  /** Every receipt has its item, every awaiting item its receipt, and no two
      receipts share an item. */
  ghost predicate Reconciled(batches: seq<Batch>, receipts: seq<Receipt>) {
    && (forall r {:trigger HasItem(batches, r)} :: r in receipts ==> HasItem(batches, r))
    && (forall i, j {:trigger HasReceipt(batches, receipts, i, j)} ::
          AwaitingAt(batches, i, j) ==> HasReceipt(batches, receipts, i, j))
    && DistinctReceipts(receipts)
  }

  ghost predicate Inv(s: Snapshot, owner: Owner) {
    && DistinctBatchIds(s.batches)
    && (forall i :: 0 <= i < |s.batches| ==> BatchOk(s.batches[i], owner))
    && Reconciled(s.batches, s.receipts)
    && (forall i :: 0 <= i < |s.batches| && s.batches[i].sentPending.Some? ==> s.batches[i].batchId !in s.announced)
  }

  // ------------------------------------------------------------------ lookups

  lemma FoundBatch(batches: seq<Batch>, i: nat)
    requires DistinctBatchIds(batches) && i < |batches|
    ensures BatchIndex(batches, batches[i].batchId) == Some(i)
  {
  }

  lemma FoundItem(items: seq<Item>, j: nat)
    requires DistinctItemIds(items) && j < |items|
    ensures ItemIndex(items, items[j].itemId) == Some(j)
  {
  }

  function BatchOf(s: Snapshot, batchId: string): (r: Option<Batch>)
    ensures r.Some? ==> r.value in s.batches && r.value.batchId == batchId
  {
    var bi := BatchIndex(s.batches, batchId);
    if bi.None? then None else Some(s.batches[bi.value])
  }

  function Lookup(s: Snapshot, k: Key): (r: Option<Item>)
    ensures r.Some? ==> r.value.itemId == k.1
  {
    var b := BatchOf(s, k.0);
    if b.None? then None
    else
      var ii := ItemIndex(b.value.items, k.1);
      if ii.None? then None else Some(b.value.items[ii.value])
  }

  lemma FoundByKey(s: Snapshot, owner: Owner, i: nat, j: nat)
    requires Inv(s, owner) && i < |s.batches| && j < |s.batches[i].items|
    ensures Lookup(s, (s.batches[i].batchId, s.batches[i].items[j].itemId)) == Some(s.batches[i].items[j])
  {
    FoundBatch(s.batches, i);
    FoundItem(s.batches[i].items, j);
  }

  lemma KeyPosition(s: Snapshot, k: Key) returns (i: nat, j: nat)
    requires Lookup(s, k).Some?
    ensures i < |s.batches| && j < |s.batches[i].items|
    ensures BatchIndex(s.batches, k.0) == Some(i) && s.batches[i].batchId == k.0
    ensures s.batches[i].items[j] == Lookup(s, k).value && s.batches[i].items[j].itemId == k.1
  {
    i := BatchIndex(s.batches, k.0).value;
    j := ItemIndex(s.batches[i].items, k.1).value;
  }

  /** Finding an item by its id alone finds it under its own batch. */
  lemma LocationIsOwned(s: Snapshot, owner: Owner, itemId: string)
    requires Inv(s, owner)
    ensures Location(s.batches, itemId).Some? <==> Lookup(s, (owner(itemId), itemId)).Some?
    ensures Location(s.batches, itemId).Some? ==>
              var (bi, ii) := Location(s.batches, itemId).value;
              s.batches[bi].batchId == owner(itemId)
              && Lookup(s, (owner(itemId), itemId)) == Some(s.batches[bi].items[ii])
  {
    if Location(s.batches, itemId).Some? {
      var (bi, ii) := Location(s.batches, itemId).value;
      FoundByKey(s, owner, bi, ii);
    }
    if Lookup(s, (owner(itemId), itemId)).Some? {
      var i, j := KeyPosition(s, (owner(itemId), itemId));
      assert ItemIndex(s.batches[i].items, itemId).Some?;
    }
  }

  // ----------------------------------------------- steps that keep every batch

  /** An item that keeps its identity and either its status or a non-awaiting one. */
  predicate KeptItem(it: Item, it': Item) {
    it'.itemId == it.itemId && it'.txid == it.txid
    && (Awaiting(it.status) || Awaiting(it'.status) ==> it'.status == it.status)
  }

  /** An item that settles, under one of the `extra` receipts. */
  predicate SettledItem(b: Batch, it: Item, it': Item, extra: seq<Receipt>) {
    it'.itemId == it.itemId && it'.txid == it.txid && !Awaiting(it.status)
    && exists r :: r in extra && Matches(r, b, it')
  }

  ghost predicate SettlesBatch(b: Batch, b': Batch, extra: seq<Receipt>) {
    && b'.batchId == b.batchId && |b.items| <= |b'.items|
    && (forall j :: 0 <= j < |b.items| ==>
          KeptItem(b.items[j], b'.items[j]) || SettledItem(b, b.items[j], b'.items[j], extra))
    && (forall j :: |b.items| <= j < |b'.items| ==> b'.items[j].status.Staged?)
  }

  /** Receipt `r` is about item `j` of batch `i`, which was not yet awaiting. */
  ghost predicate SettlesAt(batches: seq<Batch>, batches': seq<Batch>, r: Receipt, i: int, j: int) {
    0 <= i < |batches| && i < |batches'| && 0 <= j < |batches[i].items| && j < |batches'[i].items|
    && Matches(r, batches'[i], batches'[i].items[j])
    && !Awaiting(batches[i].items[j].status)
  }

  ghost predicate Settles(s: Snapshot, s': Snapshot, extra: seq<Receipt>) {
    && |s'.batches| == |s.batches|
    && s'.receipts == s.receipts + extra
    && (forall i :: 0 <= i < |s.batches| ==> SettlesBatch(s.batches[i], s'.batches[i], extra))
    && (forall r :: r in extra ==> exists i, j :: SettlesAt(s.batches, s'.batches, r, i, j))
    && DistinctReceipts(extra)
  }

  lemma SettlingKeepsItems(s: Snapshot, s': Snapshot, extra: seq<Receipt>, owner: Owner, r: Receipt)
    requires Inv(s, owner) && Settles(s, s', extra) && r in s'.receipts
    ensures HasItem(s'.batches, r)
  {
    if r in extra {
      var i, j :| SettlesAt(s.batches, s'.batches, r, i, j);
      assert AboutItem(s'.batches, r, i, j);
    } else {
      assert r in s.receipts && HasItem(s.batches, r);
      var i, j :| AboutItem(s.batches, r, i, j);
      assert SettlesBatch(s.batches[i], s'.batches[i], extra);
      assert KeptItem(s.batches[i].items[j], s'.batches[i].items[j]);
      assert AboutItem(s'.batches, r, i, j);
    }
  }

  lemma SettlingKeepsReceipts(s: Snapshot, s': Snapshot, extra: seq<Receipt>, owner: Owner, i: nat, j: nat)
    requires Inv(s, owner) && Settles(s, s', extra) && AwaitingAt(s'.batches, i, j)
    ensures HasReceipt(s'.batches, s'.receipts, i, j)
  {
    var b, b' := s.batches[i], s'.batches[i];
    assert SettlesBatch(b, b', extra);
    if KeptItem(b.items[j], b'.items[j]) {
      assert HasReceipt(s.batches, s.receipts, i, j);
      var r :| r in s.receipts && AboutItem(s.batches, r, i, j);
      assert r in s'.receipts && AboutItem(s'.batches, r, i, j);
    } else {
      var r :| r in extra && Matches(r, b, b'.items[j]);
      assert r in s'.receipts && AboutItem(s'.batches, r, i, j);
    }
  }

  lemma NewReceiptIsNew(s: Snapshot, s': Snapshot, extra: seq<Receipt>, owner: Owner, r: Receipt, q: Receipt)
    requires Inv(s, owner) && Settles(s, s', extra) && r in s.receipts && q in extra
    ensures !SameKey(r, q)
  {
    hide BatchOk;
    assert HasItem(s.batches, r);
    var i, j :| AboutItem(s.batches, r, i, j);
    var i', j' :| SettlesAt(s.batches, s'.batches, q, i', j');
    assert SettlesBatch(s.batches[i'], s'.batches[i'], extra);
    FoundByKey(s, owner, i, j);
    FoundByKey(s, owner, i', j');
    assert s'.batches[i'].items[j'].itemId == s.batches[i'].items[j'].itemId;
  }

  lemma SettlingKeepsReceiptsDistinct(s: Snapshot, s': Snapshot, extra: seq<Receipt>, owner: Owner)
    requires Inv(s, owner) && Settles(s, s', extra)
    ensures DistinctReceipts(s'.receipts)
  {
    forall i, j | 0 <= i < j < |s'.receipts| ensures !SameKey(s'.receipts[i], s'.receipts[j]) {
      if i < |s.receipts| <= j {
        NewReceiptIsNew(s, s', extra, owner, s.receipts[i], extra[j - |s.receipts|]);
      } else if j < |s.receipts| {
        assert !SameKey(s.receipts[i], s.receipts[j]);
      } else {
        assert !SameKey(extra[i - |s.receipts|], extra[j - |s.receipts|]);
      }
    }
  }

  /** Steps that only settle or keep items preserve the invariant. */
  lemma SettlingKeepsInv(s: Snapshot, s': Snapshot, extra: seq<Receipt>, owner: Owner)
    requires Inv(s, owner) && Settles(s, s', extra)
    requires forall i :: 0 <= i < |s'.batches| ==> BatchOk(s'.batches[i], owner)
    requires forall i :: 0 <= i < |s'.batches| && s'.batches[i].sentPending.Some?
               ==> s'.batches[i].batchId !in s'.announced
    ensures Inv(s', owner)
  {
    forall r | r in s'.receipts ensures HasItem(s'.batches, r) {
      SettlingKeepsItems(s, s', extra, owner, r);
    }
    forall i, j | AwaitingAt(s'.batches, i, j) ensures HasReceipt(s'.batches, s'.receipts, i, j)
    {
      SettlingKeepsReceipts(s, s', extra, owner, i, j);
    }
    SettlingKeepsReceiptsDistinct(s, s', extra, owner);
    forall i, j | 0 <= i < j < |s'.batches| ensures s'.batches[i].batchId != s'.batches[j].batchId {
      assert SettlesBatch(s.batches[i], s'.batches[i], extra) && SettlesBatch(s.batches[j], s'.batches[j], extra);
    }
  }

  // ---------------------------------------------------- steps that drop records

  lemma {:induction false} FilterKeepsBatchIds(batches: seq<Batch>, p: Batch -> bool)
    requires DistinctBatchIds(batches)
    ensures DistinctBatchIds(Filter(batches, p))
  {
    if batches != [] {
      FilterKeepsBatchIds(batches[1..], p);
      var rest := Filter(batches[1..], p);
      forall j | 0 <= j < |rest| ensures rest[j].batchId != batches[0].batchId {
        assert rest[j] in rest;
      }
    }
  }

  lemma {:induction false} FilterKeepsItemIds(items: seq<Item>, p: Item -> bool)
    requires DistinctItemIds(items)
    ensures DistinctItemIds(Filter(items, p))
  {
    if items != [] {
      FilterKeepsItemIds(items[1..], p);
      var rest := Filter(items[1..], p);
      forall j | 0 <= j < |rest| ensures rest[j].itemId != items[0].itemId {
        assert rest[j] in rest;
      }
    }
  }

  lemma {:induction false} FilterKeepsReceipts(receipts: seq<Receipt>, p: Receipt -> bool)
    requires DistinctReceipts(receipts)
    ensures DistinctReceipts(Filter(receipts, p))
  {
    if receipts != [] {
      FilterKeepsReceipts(receipts[1..], p);
      var rest := Filter(receipts[1..], p);
      forall j | 0 <= j < |rest| ensures !SameKey(receipts[0], rest[j]) {
        assert rest[j] in rest;
      }
    }
  }

  lemma ReceiptOfKey(s: Snapshot, owner: Owner, r: Receipt, q: Receipt)
    requires Inv(s, owner) && r in s.receipts && q in s.receipts && r.itemId == q.itemId
    ensures r == q
  {
    assert HasItem(s.batches, r) && HasItem(s.batches, q);
    var i, j :| AboutItem(s.batches, r, i, j);
    var i', j' :| AboutItem(s.batches, q, i', j');
    assert r.batchId == owner(r.itemId) == q.batchId by {
      assert BatchOk(s.batches[i], owner) && BatchOk(s.batches[i'], owner);
    }
    assert SameKey(r, q) && SameKey(q, r);
    var a :| 0 <= a < |s.receipts| && s.receipts[a] == r;
    var c :| 0 <= c < |s.receipts| && s.receipts[c] == q;
  }

  /** `b'` is a stored batch of `s` with some of its items dropped. */
  ghost predicate Trims(b: Batch, b': Batch) {
    && b'.batchId == b.batchId && b'.mean == b.mean && b'.max == b.max && b'.sentPending == b.sentPending
    && DistinctItemIds(b'.items) && (forall it :: it in b'.items ==> it in b.items)
  }

  ghost predicate TrimOf(batches: seq<Batch>, b': Batch) { exists b :: b in batches && Trims(b, b') }

  predicate Carries(batches: seq<Batch>, r: Receipt, b: Batch, it: Item) {
    b in batches && it in b.items && Matches(r, b, it)
  }

  ghost predicate Survives(batches: seq<Batch>, b: Batch, it: Item) {
    exists b' :: b' in batches && b'.batchId == b.batchId && it in b'.items
  }

  /** Dropping whole batches and items together with exactly their receipts. */
  ghost predicate Drops(s: Snapshot, s': Snapshot) {
    && DistinctBatchIds(s'.batches) && DistinctReceipts(s'.receipts)
    && (forall r :: r in s'.receipts ==> r in s.receipts)
    && (forall i :: 0 <= i < |s'.batches| ==> TrimOf(s.batches, s'.batches[i]))
    && (forall r, b, it :: r in s'.receipts && Carries(s.batches, r, b, it) ==> Survives(s'.batches, b, it))
    && (forall r, b', it :: r in s.receipts && Carries(s'.batches, r, b', it) ==> r in s'.receipts)
    && (forall id :: id in s'.announced ==> id in s.announced)
  }

  lemma DroppingKeepsItems(s: Snapshot, s': Snapshot, r: Receipt)
    requires Reconciled(s.batches, s.receipts) && Drops(s, s') && r in s'.receipts
    ensures HasItem(s'.batches, r)
  {
    assert HasItem(s.batches, r);
    var i, j :| AboutItem(s.batches, r, i, j);
    var it := s.batches[i].items[j];
    assert Carries(s.batches, r, s.batches[i], it);
    var b' :| b' in s'.batches && b'.batchId == s.batches[i].batchId && it in b'.items;
    var i' :| 0 <= i' < |s'.batches| && s'.batches[i'] == b';
    var j' :| 0 <= j' < |b'.items| && b'.items[j'] == it;
    assert AboutItem(s'.batches, r, i', j');
  }

  lemma DroppingKeepsReceipts(s: Snapshot, s': Snapshot, i: nat, j: nat)
    requires Reconciled(s.batches, s.receipts) && Drops(s, s')
    requires AwaitingAt(s'.batches, i, j)
    ensures HasReceipt(s'.batches, s'.receipts, i, j)
  {
    assert TrimOf(s.batches, s'.batches[i]);
    var b :| b in s.batches && Trims(b, s'.batches[i]);
    var it := s'.batches[i].items[j];
    assert it in s'.batches[i].items;
    var a :| 0 <= a < |s.batches| && s.batches[a] == b;
    var c :| 0 <= c < |b.items| && b.items[c] == it;
    assert HasReceipt(s.batches, s.receipts, a, c);
    var r :| r in s.receipts && AboutItem(s.batches, r, a, c);
    assert Carries(s'.batches, r, s'.batches[i], it);
    assert AboutItem(s'.batches, r, i, j);
  }

  lemma DroppingKeepsBatches(s: Snapshot, s': Snapshot, owner: Owner, i: nat)
    requires Inv(s, owner) && Drops(s, s') && i < |s'.batches|
    ensures BatchOk(s'.batches[i], owner)
    ensures s'.batches[i].sentPending.Some? ==> s'.batches[i].batchId !in s'.announced
  {
    assert TrimOf(s.batches, s'.batches[i]);
    var b :| b in s.batches && Trims(b, s'.batches[i]);
    var a :| 0 <= a < |s.batches| && s.batches[a] == b;
    assert BatchOk(s.batches[a], owner);
    forall j | 0 <= j < |s'.batches[i].items| ensures s'.batches[i].items[j] in b.items {
      assert s'.batches[i].items[j] in s'.batches[i].items;
    }
  }

  lemma DroppingKeepsInv(s: Snapshot, s': Snapshot, owner: Owner)
    requires Inv(s, owner) && Drops(s, s')
    ensures Inv(s', owner)
  {
    forall r | r in s'.receipts ensures HasItem(s'.batches, r) {
      DroppingKeepsItems(s, s', r);
    }
    forall i, j | AwaitingAt(s'.batches, i, j) ensures HasReceipt(s'.batches, s'.receipts, i, j)
    {
      DroppingKeepsReceipts(s, s', i, j);
    }
    forall i | 0 <= i < |s'.batches|
      ensures BatchOk(s'.batches[i], owner)
      ensures s'.batches[i].sentPending.Some? ==> s'.batches[i].batchId !in s'.announced
    {
      DroppingKeepsBatches(s, s', owner, i);
    }
  }
}
