/** No payload goes out that the caller did not approve: an arm named its very
    digest, or a recovery expected its transaction. */
module OutboxApproval {
  import opened Base
  import opened OutboxTypes
  import opened OutboxTransitions
  import opened OutboxInvariant
  import opened OutboxOperations
  import opened OutboxPeers
  import opened OutboxSafety
  import opened OutboxSelection
  import opened OutboxReachable
  import opened OutboxProtocol
  import opened OutboxMeaning

  /** The event approves sending the record `k` with this txid and digest. */
  predicate Approves(e: Event, k: Key, txid: string, digest: string) {
    && e.Change? && e.persisted
    && match e.mutation
       case Arm(batchId, digests, _) => batchId == k.0 && k.1 in digests && digests[k.1] == digest
       case Recover(batchId, _, _, _, expected, _, _) =>
         batchId == k.0 && exists t :: t in expected && Lowercased(t) == txid
       case other => false
  }

  /** The update made by event `n` was carried out. */
  ghost predicate Succeeded(events: seq<Event>, n: nat, cfg: Config)
    requires n < |events|
  {
    && events[n].Change? && events[n].persisted
    && Mutate(Run(INITIAL, events[..n], cfg).store, events[n].mutation, cfg).Success?
  }

  ghost predicate Approved(events: seq<Event>, k: Key, it: Item, cfg: Config) {
    exists n :: 0 <= n < |events| && Approves(events[n], k, it.txid, it.digest) && Succeeded(events, n, cfg)
  }

  lemma ApprovedStays(events: seq<Event>, e: Event, k: Key, it: Item, cfg: Config)
    requires Approved(events, k, it, cfg)
    ensures Approved(events + [e], k, it, cfg)
  {
    hide Mutate, Run;
    var n :| 0 <= n < |events| && Approves(events[n], k, it.txid, it.digest) && Succeeded(events, n, cfg);
    assert (events + [e])[n] == events[n] && (events + [e])[..n] == events[..n];
  }

  // --------------------------------------------------- steps that approve nothing

  predicate SamePayload(it: Item, it': Item) {
    it'.itemId == it.itemId && it'.txid == it.txid && it'.digest == it.digest && it'.raw == it.raw
  }

  /** A record keeps its payload, and is staged afterwards if it was before. */
  predicate Unapproved(it: Item, it': Item) { SamePayload(it, it') && (it.status.Staged? ==> it'.status.Staged?) }

  ghost predicate BatchAligned(b: Batch, b': Batch) {
    && b'.batchId == b.batchId && |b'.items| == |b.items|
    && forall j :: 0 <= j < |b.items| ==> Unapproved(b.items[j], b'.items[j])
  }

  ghost predicate Aligned(s: Snapshot, s': Snapshot) {
    |s'.batches| == |s.batches| && forall i :: 0 <= i < |s.batches| ==> BatchAligned(s.batches[i], s'.batches[i])
  }

  lemma AlignedTransitive(s: Snapshot, s1: Snapshot, s2: Snapshot)
    requires Aligned(s, s1) && Aligned(s1, s2)
    ensures Aligned(s, s2)
  {
    forall i | 0 <= i < |s.batches| ensures BatchAligned(s.batches[i], s2.batches[i]) {
      assert BatchAligned(s.batches[i], s1.batches[i]) && BatchAligned(s1.batches[i], s2.batches[i]);
    }
  }

  lemma InterruptedAligned(s: Snapshot, at: Date)
    ensures Aligned(s, RecoverInterrupted(s, at))
  {
  }

  lemma SweepAligned(s: Snapshot, k: Sweep, height: UInt64, endpoint: string, at: Date)
    ensures Aligned(s, SweepAll(s, k, height, endpoint, at))
  {
    forall i | 0 <= i < |s.batches|
      ensures BatchAligned(s.batches[i], SweptBatch(k, height, endpoint, s.batches[i]))
    {
    }
  }

  lemma MarkedAligned(s: Snapshot, endpoint: string, height: UInt64, now: Date, verify: bool)
    ensures Aligned(s, Marked(s, endpoint, height, now, verify))
  {
    SweepAligned(s, Expiring, height, endpoint, now);
    var expired := ExpireItems(s, height, endpoint, now);
    var canonical := CanonicalExpiry(height);
    if canonical.Some? { SweepAligned(expired, Resigning(canonical.value), height, endpoint, now); }
    var swept := SweptAll(s, endpoint, height, now);
    hide SweepAll;
    assert Aligned(expired, swept);
    AlignedTransitive(s, expired, swept);
    MarkKeepsItems(swept, height, endpoint, now);
    assert Aligned(swept, Marked(s, endpoint, height, now, verify));
    AlignedTransitive(s, swept, Marked(s, endpoint, height, now, verify));
  }

  /** One item replaced by one of the same payload that was not staged. */
  lemma ReplacedAligned(s: Snapshot, bi: nat, ii: nat, it': Item, s': Snapshot)
    requires bi < |s.batches| && ii < |s.batches[bi].items| && Unapproved(s.batches[bi].items[ii], it')
    requires |s'.batches| == |s.batches| && s'.batches == s.batches[bi := s'.batches[bi]]
    requires s'.batches[bi].batchId == s.batches[bi].batchId
    requires s'.batches[bi].items == s.batches[bi].items[ii := it']
    ensures Aligned(s, s')
  {
  }

  lemma BeginAligned(s: Snapshot, itemId: string, attemptId: string, at: Date)
    requires BeginSubmission(s, itemId, attemptId, at).Success?
    ensures Aligned(s, BeginSubmission(s, itemId, attemptId, at).value)
  {
    var (bi, ii) := Location(s.batches, itemId).value;
    var s' := BeginSubmission(s, itemId, attemptId, at).value;
    ReplacedAligned(s, bi, ii, s'.batches[bi].items[ii], s');
  }

  lemma CancelAligned(s: Snapshot, itemId: string, error: string)
    requires RecordCancelled(s, itemId, error).Success?
    ensures Aligned(s, RecordCancelled(s, itemId, error).value)
  {
    var (bi, ii) := Location(s.batches, itemId).value;
    var s' := RecordCancelled(s, itemId, error).value;
    ReplacedAligned(s, bi, ii, s'.batches[bi].items[ii], s');
  }

  lemma UncertainAligned(s: Snapshot, itemId: string, error: string, at: Date)
    requires RecordUncertain(s, itemId, error, at).Success?
    ensures Aligned(s, RecordUncertain(s, itemId, error, at).value)
  {
    var (bi, ii) := Location(s.batches, itemId).value;
    var s' := RecordUncertain(s, itemId, error, at).value;
    ReplacedAligned(s, bi, ii, s'.batches[bi].items[ii], s');
  }

  lemma RejectedAligned(s: Snapshot, itemId: string, height: UInt64, code: int, message: string, at: Date)
    requires RecordRejected(s, itemId, height, code, message, at).Success?
    ensures Aligned(s, RecordRejected(s, itemId, height, code, message, at).value)
  {
    var (bi, ii) := Location(s.batches, itemId).value;
    var s' := RecordRejected(s, itemId, height, code, message, at).value;
    ReplacedAligned(s, bi, ii, s'.batches[bi].items[ii], s');
  }

  lemma AcceptedAligned(s: Snapshot, itemId: string, equivalent: bool, height: UInt64, code: int, message: string,
                        at: Date, rank: nat -> int, draws: nat -> int)
    requires RecordAccepted(s, itemId, equivalent, height, code, message, at, rank, draws).Success?
    ensures Aligned(s, RecordAccepted(s, itemId, equivalent, height, code, message, at, rank, draws).value)
  {
    hide Location;
    LocationIs(s, itemId);
    var (i, j) := Location(s.batches, itemId).value;
    RecordAcceptedIs(s, itemId, equivalent, height, code, message, at, rank, draws, i, j);
    hide RecordAccepted;
    var s' := RecordAccepted(s, itemId, equivalent, height, code, message, at, rank, draws).value;
    assert BatchAligned(s.batches[i], s'.batches[i]);
  }

  lemma RecordAligned(s: Snapshot, sel: Selection, height: UInt64, now: Date, reply: Reply, rank: nat -> int,
                      draws: nat -> int)
    requires Record(s, sel, height, now, reply, rank, draws).Success?
    ensures Aligned(s, Record(s, sel, height, now, reply, rank, draws).value)
  {
    hide RecordAccepted, RecordRejected, RecordUncertain;
    var id := sel.item.itemId;
    match reply
    case Failed(error) => UncertainAligned(s, id, error, now);
    case Replied(code, message, _) =>
      if AcceptedReply(reply) {
        AcceptedAligned(s, id, code != 0, height, code, message, now, rank, draws);
        var s1 := RecordAccepted(s, id, code != 0, height, code, message, now, rank, draws).value;
        assert Aligned(s1, MarkSent(s1, sel.batchId, now).0);
        AlignedTransitive(s, s1, MarkSent(s1, sel.batchId, now).0);
      } else {
        RejectedAligned(s, id, height, code, message, now);
      }
  }

  /** Every record of `s'` comes from one of `s` without being approved. */
  ghost predicate Traced(s: Snapshot, s': Snapshot) {
    forall k :: Lookup(s', k).Some? ==> Lookup(s, k).Some? && Unapproved(Lookup(s, k).value, Lookup(s', k).value)
  }

  lemma AlignedIsTraced(s: Snapshot, s': Snapshot, owner: Owner)
    requires Inv(s, owner) && Aligned(s, s')
    ensures Traced(s, s')
  {
    forall k | Lookup(s', k).Some?
      ensures Lookup(s, k).Some? && Unapproved(Lookup(s, k).value, Lookup(s', k).value)
    {
      var i, j := KeyPosition(s', k);
      assert BatchAligned(s.batches[i], s'.batches[i]);
      FoundByKey(s, owner, i, j);
    }
  }

  // ------------------------------------------------------------ channel updates

  /** Staging adds staged records whose digest is that of their payload. */
  lemma StageTraces(s: Snapshot, b: Batch, cfg: Config, k: Key)
    requires Inv(s, cfg.owner) && Stage(s, b, cfg.hash).Success? && Inv(Stage(s, b, cfg.hash).value, cfg.owner)
    requires Lookup(Stage(s, b, cfg.hash).value, k).Some?
    ensures var it' := Lookup(Stage(s, b, cfg.hash).value, k).value;
            if Lookup(s, k).Some? then Unapproved(Lookup(s, k).value, it')
            else it'.status.Staged? && it'.digest == cfg.hash(it'.raw)
  {
    hide Stage, Inv, Lookup;
    var s' := Stage(s, b, cfg.hash).value;
    var i, j := KeyPosition(s', k);
    if i < |s.batches| && j < |s.batches[i].items| {
      StagedKeepsPlace(s, b, cfg.hash, i, j);
      FoundByKey(s, cfg.owner, i, j);
    } else {
      StagedIsNew(s, b, cfg.hash, i, j);
      if Lookup(s, k).Some? {
        StagedWasAbsent(s, b, cfg, i, j, k);
      }
    }
  }

  lemma StagedKeepsPlace(s: Snapshot, b: Batch, hash: Bytes -> string, i: nat, j: nat)
    requires Stage(s, b, hash).Success? && i < |s.batches| && j < |s.batches[i].items|
    ensures var s' := Stage(s, b, hash).value;
            i < |s'.batches| && j < |s'.batches[i].items| && s'.batches[i].items[j] == s.batches[i].items[j]
            && s'.batches[i].batchId == s.batches[i].batchId
  {
  }

  lemma StagedIsNew(s: Snapshot, b: Batch, hash: Bytes -> string, i: nat, j: nat)
    requires Stage(s, b, hash).Success?
    requires var s' := Stage(s, b, hash).value; i < |s'.batches| && j < |s'.batches[i].items|
    requires !(i < |s.batches| && j < |s.batches[i].items|)
    ensures var it := Stage(s, b, hash).value.batches[i].items[j]; it.status.Staged? && it.digest == hash(it.raw)
  {
    var bi := BatchIndex(s.batches, b.batchId);
    if bi.Some? {
      var added := NewItems(s.batches[bi.value].items, b.items);
      assert added[j - |s.batches[bi.value].items|] in added;
    }
    assert Stage(s, b, hash).value.batches[i].items[j] in b.items;
  }

  lemma StagedWasAbsent(s: Snapshot, b: Batch, cfg: Config, i: nat, j: nat, k: Key)
    requires Inv(s, cfg.owner) && Stage(s, b, cfg.hash).Success?
    requires var s' := Stage(s, b, cfg.hash).value;
             && i < |s'.batches| && j < |s'.batches[i].items| && Inv(s', cfg.owner)
             && k == (s'.batches[i].batchId, s'.batches[i].items[j].itemId)
    requires !(i < |s.batches| && j < |s.batches[i].items|)
    ensures Lookup(s, k).None?
  {
    hide Stage, Inv, Lookup;
    if Lookup(s, k).Some? {
      var a, c := KeyPosition(s, k);
      StagedKeepsPlace(s, b, cfg.hash, a, c);
      FoundByKey(Stage(s, b, cfg.hash).value, cfg.owner, a, c);
      FoundByKey(Stage(s, b, cfg.hash).value, cfg.owner, i, j);
      SamePosition(Stage(s, b, cfg.hash).value, cfg.owner, a, c, i, j);
    }
  }

  lemma SamePosition(s: Snapshot, owner: Owner, a: nat, c: nat, i: nat, j: nat)
    requires Inv(s, owner) && a < |s.batches| && c < |s.batches[a].items| && i < |s.batches| && j < |s.batches[i].items|
    requires s.batches[a].batchId == s.batches[i].batchId && s.batches[a].items[c].itemId == s.batches[i].items[j].itemId
    ensures a == i && c == j
  {
    FoundBatch(s.batches, a);
    FoundBatch(s.batches, i);
    FoundItem(s.batches[a].items, c);
    FoundItem(s.batches[i].items, j);
  }

  predicate Leaves(it: Item, it': Item) { it.status.Staged? && !it'.status.Staged? }

  /** An update keeps payloads, and only arming and recovering approve. */
  lemma MutationTraces(s: Snapshot, m: Mutation, cfg: Config, k: Key)
    requires Inv(s, cfg.owner) && Mutate(s, m, cfg).Success? && Inv(Mutate(s, m, cfg).value, cfg.owner)
    requires Lookup(Mutate(s, m, cfg).value, k).Some?
    ensures var it' := Lookup(Mutate(s, m, cfg).value, k).value;
            if Lookup(s, k).Some? then
              && SamePayload(Lookup(s, k).value, it')
              && (Leaves(Lookup(s, k).value, it') ==> Approves(Change(m, true), k, it'.txid, it'.digest))
            else it'.status.Staged? && it'.digest == cfg.hash(it'.raw)
  {
    hide Inv, Lookup, Stage, ArmBatch, RecoverBatch;
    match m
    case StageBatch(batch) => StageTraces(s, batch, cfg, k);
    case Arm(batchId, digests, at) => ArmApproves(s, batchId, digests, at, cfg, k);
    case Recover(batchId, network, account, runId, expected, url, at) =>
      RecoverApproves(s, batchId, network, account, runId, expected, url, at, cfg, k);
    case other => OtherTraces(s, m, cfg, k);
  }

  /** Every other update only removes records or marks batches. */
  lemma OtherTraces(s: Snapshot, m: Mutation, cfg: Config, k: Key)
    requires Inv(s, cfg.owner) && Mutate(s, m, cfg).Success? && !m.StageBatch? && !m.Arm? && !m.Recover?
    requires Lookup(Mutate(s, m, cfg).value, k).Some?
    ensures Lookup(s, k).Some?
    ensures var it, it' := Lookup(s, k).value, Lookup(Mutate(s, m, cfg).value, k).value;
            SamePayload(it, it') && !Leaves(it, it')
  {
    hide Discard, Acknowledge, AcknowledgeSent, Revoke;
    match m
    case DiscardBatch(batchId) => DiscardKeepsInv(s, batchId, cfg.owner);
    case AcknowledgeReceipts(ids) => AcknowledgeKeepsInv(s, ids, cfg.owner);
    case AcknowledgeAnnouncement(batchId, at) => AcknowledgeSentKeepsInv(s, batchId, at, cfg.owner);
    case RevokeScope(network, account) => RevokeKeepsInv(s, network, account, cfg.owner);
    case MarkProof(batchId, _, _, _, _) =>
      var i, j := KeyPosition(Mutate(s, m, cfg).value, k);
      FoundByKey(s, cfg.owner, i, j);
    case RemoveAll =>
  }

  lemma ArmApproves(s: Snapshot, batchId: string, digests: map<string, string>, at: Date, cfg: Config, k: Key)
    requires Inv(s, cfg.owner) && ArmBatch(s, batchId, digests, at).Success?
    requires Lookup(ArmBatch(s, batchId, digests, at).value, k).Some?
    ensures var it' := Lookup(ArmBatch(s, batchId, digests, at).value, k).value;
            && Lookup(s, k).Some? && SamePayload(Lookup(s, k).value, it')
            && (Leaves(Lookup(s, k).value, it') ==> batchId == k.0 && k.1 in digests && digests[k.1] == it'.digest)
  {
    var s' := ArmBatch(s, batchId, digests, at).value;
    var i, j := KeyPosition(s', k);
    ArmArmsNamed(s, batchId, digests, at, i);
    FoundByKey(s, cfg.owner, i, j);
    var b := s.batches[i];
    FoundBatch(s.batches, i);
    assert BatchOk(b, cfg.owner);
    assert b.batchId == batchId ==> DigestsMatch(b.items, digests);
    hide ArmBatch, DigestsMatch, Inv, BatchOk;
    if b.batchId == batchId && k.1 in digests { NamedDigest(b.items, digests, j); }
  }

  lemma NamedDigest(items: seq<Item>, digests: map<string, string>, j: nat)
    requires DistinctItemIds(items) && DigestsMatch(items, digests) && j < |items| && items[j].itemId in digests
    ensures digests[items[j].itemId] == items[j].digest
  {
    var it :| it in items && it.itemId == items[j].itemId && it.digest == digests[items[j].itemId];
    var d :| 0 <= d < |items| && items[d] == it;
  }

  lemma RecoverApproves(s: Snapshot, batchId: string, network: string, account: string, runId: string,
                        expected: set<string>, url: string, at: Date, cfg: Config, k: Key)
    requires Inv(s, cfg.owner) && RecoverBatch(s, batchId, network, account, runId, expected, url, at).Success?
    requires Lookup(RecoverBatch(s, batchId, network, account, runId, expected, url, at).value.0, k).Some?
    ensures var it' := Lookup(RecoverBatch(s, batchId, network, account, runId, expected, url, at).value.0, k).value;
            && Lookup(s, k).Some? && SamePayload(Lookup(s, k).value, it')
            && (Leaves(Lookup(s, k).value, it') ==> batchId == k.0 && exists t :: t in expected && Lowercased(t) == it'.txid)
  {
    hide RecoverBatch, Lookup;
    var s' := RecoverBatch(s, batchId, network, account, runId, expected, url, at).value.0;
    var i, j := KeyPosition(s', k);
    RecoveredItem(s, batchId, network, account, runId, expected, url, at, i, j);
    FoundByKey(s, cfg.owner, i, j);
  }

  lemma RecoveredItem(s: Snapshot, batchId: string, network: string, account: string, runId: string,
                      expected: set<string>, url: string, at: Date, i: nat, j: nat)
    requires DistinctBatchIds(s.batches)
    requires RecoverBatch(s, batchId, network, account, runId, expected, url, at).Success?
    requires var s' := RecoverBatch(s, batchId, network, account, runId, expected, url, at).value.0;
             i < |s'.batches| && j < |s'.batches[i].items|
    ensures var s' := RecoverBatch(s, batchId, network, account, runId, expected, url, at).value.0;
            && i < |s.batches| && j < |s.batches[i].items| && s'.batches[i].batchId == s.batches[i].batchId
            && SamePayload(s.batches[i].items[j], s'.batches[i].items[j])
            && (Leaves(s.batches[i].items[j], s'.batches[i].items[j]) ==>
                  batchId == s.batches[i].batchId
                  && exists t :: t in expected && Lowercased(t) == s.batches[i].items[j].txid)
  {
    hide RecoverBatch;
    RecoverCounts(s, batchId, network, account, runId, expected, url, at);
    RecoverRearms(s, batchId, network, account, runId, expected, url, at, i);
    if s.batches[i].batchId == batchId {
      RecoverSucceedsIff(s, batchId, network, account, runId, expected, url, at);
      assert s.batches[i] in s.batches && s.batches[i].items[j] in s.batches[i].items;
    }
  }

  lemma RecoverCounts(s: Snapshot, batchId: string, network: string, account: string, runId: string,
                      expected: set<string>, url: string, at: Date)
    requires RecoverBatch(s, batchId, network, account, runId, expected, url, at).Success?
    ensures |RecoverBatch(s, batchId, network, account, runId, expected, url, at).value.0.batches| == |s.batches|
  {
  }

  // ------------------------------------------------------------------ whole runs

  /** What every reachable system keeps: stored records have the digest of their
      payload, and whatever left the staged state was approved. */
  ghost predicate StoreApproved(y: System, events: seq<Event>, cfg: Config) {
    forall k :: Lookup(y.store, k).Some? ==>
      && Lookup(y.store, k).value.digest == cfg.hash(Lookup(y.store, k).value.raw)
      && (!Lookup(y.store, k).value.status.Staged? ==> Approved(events, k, Lookup(y.store, k).value, cfg))
  }

  ghost predicate AttemptApproved(a: Attempt, events: seq<Event>, cfg: Config) {
    a.sel.item.digest == cfg.hash(a.sel.item.raw) && Approved(events, SelectedKey(a.sel), a.sel.item, cfg)
  }

  ghost predicate AllApproved(y: System, events: seq<Event>, cfg: Config) {
    && StoreApproved(y, events, cfg)
    && (y.phase.Chosen? || y.phase.Sending? ==> AttemptApproved(y.phase.attempt, events, cfg))
    && forall i :: 0 <= i < |y.wire| ==> AttemptApproved(y.wire[i].attempt, events, cfg)
  }

  lemma AttemptStays(a: Attempt, events: seq<Event>, e: Event, cfg: Config)
    requires AttemptApproved(a, events, cfg)
    ensures AttemptApproved(a, events + [e], cfg)
  {
    ApprovedStays(events, e, SelectedKey(a.sel), a.sel.item, cfg);
  }

  lemma TracedStore(y: System, y': System, events: seq<Event>, e: Event, cfg: Config)
    requires StoreApproved(y, events, cfg) && Traced(y.store, y'.store)
    ensures StoreApproved(y', events + [e], cfg)
  {
    forall k | Lookup(y'.store, k).Some?
      ensures Lookup(y'.store, k).value.digest == cfg.hash(Lookup(y'.store, k).value.raw)
      ensures !Lookup(y'.store, k).value.status.Staged? ==> Approved(events + [e], k, Lookup(y'.store, k).value, cfg)
    {
      var it, it' := Lookup(y.store, k).value, Lookup(y'.store, k).value;
      if !it'.status.Staged? { ApprovedStays(events, e, k, it, cfg); }
    }
  }

  lemma ChangedStore(y: System, m: Mutation, events: seq<Event>, cfg: Config)
    requires Inv(y.store, cfg.owner) && StoreApproved(y, events, cfg) && Mutate(y.store, m, cfg).Success?
    requires Inv(Mutate(y.store, m, cfg).value, cfg.owner) && y == Run(INITIAL, events, cfg)
    ensures StoreApproved(y.(store := Mutate(y.store, m, cfg).value), events + [Change(m, true)], cfg)
  {
    hide Mutate;
    var s' := Mutate(y.store, m, cfg).value;
    forall k | Lookup(s', k).Some?
      ensures Lookup(s', k).value.digest == cfg.hash(Lookup(s', k).value.raw)
      ensures !Lookup(s', k).value.status.Staged? ==> Approved(events + [Change(m, true)], k, Lookup(s', k).value, cfg)
    {
      var it' := Lookup(s', k).value;
      MutationTraces(y.store, m, cfg, k);
      if !it'.status.Staged? {
        if Lookup(y.store, k).value.status.Staged? {
          var es := events + [Change(m, true)];
          assert es[|events|] == Change(m, true) && es[..|events|] == events;
          assert Succeeded(es, |events|, cfg);
        } else {
          ApprovedStays(events, Change(m, true), k, Lookup(y.store, k).value, cfg);
        }
      }
    }
  }

  /** A selection picks an armed record of the marked snapshot. */
  lemma ChosenAligned(s: Snapshot, endpoint: string, height: UInt64, now: Date, attemptId: string, verify: bool,
                      owner: Owner)
    requires Inv(s, owner) && Choose(s, endpoint, height, now, attemptId, verify).Success?
    ensures var (s', selected) := Choose(s, endpoint, height, now, attemptId, verify).value;
            && Aligned(s, s')
            && (selected.Some? ==> exists m :: Aligned(s, m) && Inv(m, owner) && selected.value.item.status.Armed?
                                               && Lookup(m, SelectedKey(selected.value)) == Some(selected.value.item))
  {
    hide SelectDue, Inv, Lookup, BeginSubmission, ValidateRescheduling, Due;
    var m := Marked(s, endpoint, height, now, verify);
    MarkedAligned(s, endpoint, height, now, verify);
    var (picked, selected) := SelectDue(m, Some(endpoint), height, now);
    assert Aligned(m, picked);
    AlignedTransitive(s, m, picked);
    if selected.Some? {
      var i := PickedIsSound(s, endpoint, height, now, verify, owner);
      assert selected.value.item.status.Armed? by { DueIsArmed(selected.value.item, height, now); }
      BeginAligned(picked, selected.value.item.itemId, attemptId, now);
      AlignedTransitive(s, picked, BeginSubmission(picked, selected.value.item.itemId, attemptId, now).value);
    }
  }

  lemma DueIsArmed(it: Item, height: UInt64, now: Date)
    requires Due(it, height, now)
    ensures it.status.Armed?
  {
  }

  lemma SelectApproved(y: System, height: UInt64, attemptId: string, verify: bool, events: seq<Event>, e: Event, cfg: Config)
    requires Inv(y.store, cfg.owner) && AllApproved(y, events, cfg) && y.phase.Inspected?
    ensures AllApproved(SelectedTo(y, height, Choose(y.store, y.phase.endpoint, height, y.phase.now, attemptId, verify)),
                        events + [e], cfg)
  {
    hide Choose, Inv, Lookup, Approved;
    var r := Choose(y.store, y.phase.endpoint, height, y.phase.now, attemptId, verify);
    WireStays(y, events, e, cfg);
    if r.Failure? {
      AlignedIsTraced(y.store, y.store, cfg.owner);
      TracedStore(y, y, events, e, cfg);
    } else {
      ChosenAligned(y.store, y.phase.endpoint, height, y.phase.now, attemptId, verify, cfg.owner);
      AlignedIsTraced(y.store, r.value.0, cfg.owner);
      TracedStore(y, y.(store := r.value.0), events, e, cfg);
      if r.value.1.Some? { SelectionApproved(y, r.value.1.value, events, e, cfg); }
    }
  }

  lemma SelectionApproved(y: System, sel: Selection, events: seq<Event>, e: Event, cfg: Config)
    requires Inv(y.store, cfg.owner) && StoreApproved(y, events, cfg)
    requires exists m :: Aligned(y.store, m) && Inv(m, cfg.owner) && sel.item.status.Armed?
                         && Lookup(m, SelectedKey(sel)) == Some(sel.item)
    ensures sel.item.digest == cfg.hash(sel.item.raw) && Approved(events + [e], SelectedKey(sel), sel.item, cfg)
  {
    hide Inv, Lookup, Approved;
    var m :| Aligned(y.store, m) && Inv(m, cfg.owner) && sel.item.status.Armed?
             && Lookup(m, SelectedKey(sel)) == Some(sel.item);
    AlignedIsTraced(y.store, m, cfg.owner);
    TracedStore(y, y.(store := m), events, e, cfg);
  }

  lemma WireStays(y: System, events: seq<Event>, e: Event, cfg: Config)
    requires AllApproved(y, events, cfg)
    ensures forall i :: 0 <= i < |y.wire| ==> AttemptApproved(y.wire[i].attempt, events + [e], cfg)
    ensures y.phase.Chosen? || y.phase.Sending? ==> AttemptApproved(y.phase.attempt, events + [e], cfg)
  {
    hide AttemptApproved;
    forall i | 0 <= i < |y.wire| ensures AttemptApproved(y.wire[i].attempt, events + [e], cfg) {
      AttemptStays(y.wire[i].attempt, events, e, cfg);
    }
    if y.phase.Chosen? || y.phase.Sending? { AttemptStays(y.phase.attempt, events, e, cfg); }
  }

  /** A runner's step that leaves the phase's selection alone or drops it. */
  lemma AlignedStep(y: System, y': System, events: seq<Event>, e: Event, cfg: Config)
    requires Inv(y.store, cfg.owner) && AllApproved(y, events, cfg) && Aligned(y.store, y'.store)
    requires y'.phase.Chosen? || y'.phase.Sending? ==>
               (y.phase.Chosen? || y.phase.Sending?) && y'.phase.attempt.sel == y.phase.attempt.sel
    requires forall i :: 0 <= i < |y'.wire| ==>
               if i < |y.wire| then y'.wire[i] == y.wire[i]
               else (y.phase.Chosen? || y.phase.Sending?) && y'.wire[i].attempt.sel == y.phase.attempt.sel
    ensures AllApproved(y', events + [e], cfg)
  {
    hide Inv, Lookup, Approved, Aligned;
    WireStays(y, events, e, cfg);
    AlignedIsTraced(y.store, y'.store, cfg.owner);
    TracedStore(y, y', events, e, cfg);
  }

  lemma ChangeApproved(y: System, m: Mutation, events: seq<Event>, cfg: Config)
    requires SystemInv(y, cfg) && AllApproved(y, events, cfg) && Mutate(y.store, m, cfg).Success?
    requires Admissible(Change(m, true), cfg) && y == Run(INITIAL, events, cfg)
    ensures AllApproved(Changed(y, m, Mutate(y.store, m, cfg).value), events + [Change(m, true)], cfg)
  {
    hide Mutate, Inv, Lookup, Approved, PhaseInv, WireInv;
    ChangeKeepsStore(y, m, cfg);
    ChangedStore(y, m, events, cfg);
    WireStays(y, events, Change(m, true), cfg);
  }

  lemma SameAligned(s: Snapshot)
    ensures Aligned(s, s)
  {
  }

  lemma BegunRunAligned(s: Snapshot, now: Date)
    ensures Aligned(s, NextEndpoint(RecoverInterrupted(s, now)).0)
  {
    InterruptedAligned(s, now);
  }

  lemma EventApproved(y: System, e: Event, events: seq<Event>, cfg: Config)
    requires SystemInv(y, cfg) && AllApproved(y, events, cfg) && Admissible(e, cfg)
    requires y == Run(INITIAL, events, cfg)
    ensures AllApproved(Apply(y, e, cfg), events + [e], cfg)
  {
    hide Aligned, AllApproved, Choose, Mutate, Record, RecordCancelled, PhaseInv, WireInv, Inv, RecoverInterrupted,
         NextEndpoint;
    SameAligned(y.store);
    match e
    case Change(m, persisted) =>
      if persisted && Mutate(y.store, m, cfg).Success? {
        ChangeApproved(y, m, events, cfg);
      } else {
        AlignedStep(y, y, events, e, cfg);
      }
    case Begin(now, persisted) =>
      BegunRunAligned(y.store, now);
      AlignedStep(y, Apply(y, e, cfg), events, e, cfg);
    case Select(height, attemptId, verify, persisted) =>
      if y.phase.Inspected? && persisted {
        SelectApproved(y, height, attemptId, verify, events, e, cfg);
      } else {
        AlignedStep(y, Apply(y, e, cfg), events, e, cfg);
      }
    case CancelBeforeSubmission(error, persisted) =>
      if y.phase.Chosen? {
        var id := y.phase.attempt.sel.item.itemId;
        if RecordCancelled(y.store, id, error).Success? { CancelAligned(y.store, id, error); }
      }
      AlignedStep(y, Apply(y, e, cfg), events, e, cfg);
    case Send => AlignedStep(y, Apply(y, e, cfg), events, e, cfg);
    case Finish(reply, rank, draws, persisted) =>
      if y.phase.Sending? {
        var a := y.phase.attempt;
        if Record(y.store, a.sel, a.height, a.now, reply, rank, draws).Success? {
          RecordAligned(y.store, a.sel, a.height, a.now, reply, rank, draws);
        }
      }
      AlignedStep(y, Apply(y, e, cfg), events, e, cfg);
    case Stop => AlignedStep(y, Apply(y, e, cfg), events, e, cfg);
  }

  lemma {:induction false} EveryRunIsApproved(events: seq<Event>, cfg: Config)
    requires AllAdmissible(events, cfg)
    ensures AllApproved(Run(INITIAL, events, cfg), events, cfg)
    decreases |events|
  {
    hide Apply;
    if events != [] {
      var before, e := events[..|events| - 1], events[|events| - 1];
      EveryRunIsApproved(before, cfg);
      EveryRunIsSafe(before, cfg);
      EventApproved(Run(INITIAL, before, cfg), e, before, cfg);
      assert before + [e] == events;
    }
  }

  /** Every payload ever handed to the transport was approved: some arm of its
      batch that was carried out named its item with the digest of its very
      bytes, or some recovery of its batch expected its txid. */
  lemma EverySentPayloadWasApproved(events: seq<Event>, cfg: Config, i: nat)
    requires AllAdmissible(events, cfg) && i < |Run(INITIAL, events, cfg).wire|
    ensures var sel := Run(INITIAL, events, cfg).wire[i].attempt.sel;
            exists n :: 0 <= n < |events| && events[n].Change? && events[n].persisted
              && Mutate(Run(INITIAL, events[..n], cfg).store, events[n].mutation, cfg).Success?
              && match events[n].mutation
                 case Arm(batchId, digests, _) =>
                   batchId == sel.batchId && sel.item.itemId in digests
                   && digests[sel.item.itemId] == cfg.hash(sel.item.raw)
                 case Recover(batchId, _, _, _, expected, _, _) =>
                   batchId == sel.batchId && exists t :: t in expected && Lowercased(t) == sel.item.txid
                 case other => false
  {
    EveryRunIsApproved(events, cfg);
    var sel := Run(INITIAL, events, cfg).wire[i].attempt.sel;
    assert AttemptApproved(Run(INITIAL, events, cfg).wire[i].attempt, events, cfg);
    hide Run, Mutate;
    var n :| 0 <= n < |events| && Approves(events[n], SelectedKey(sel), sel.item.txid, sel.item.digest)
             && Succeeded(events, n, cfg);
  }
}
