/** What each update does, said of the stored records themselves: their fields,
    heights and digests, without the names the transitions are built from. */
module OutboxMeaning {
  import opened Base
  import opened OutboxTypes
  import opened OutboxTransitions
  import opened OutboxInvariant
  import opened OutboxOperations

  // ------------------------------------------------------------ expiry heights

  /** The canonical expiry is the one multiple of 34,560 that lies more than one
      and at most two buckets ahead; there is none only on overflow. */
  lemma CanonicalExpiryIs(height: UInt64)
    ensures match CanonicalExpiry(height)
            case Some(e) => e % 34_560 == 0 && height + 34_560 < e <= height + 69_120
            case None => height + 69_120 >= 0x1_0000_0000_0000_0000
    ensures forall e: UInt64 :: e % 34_560 == 0 && height + 34_560 < e <= height + 69_120
                                ==> CanonicalExpiry(height) == Some(e)
  {
    var f := (height / 34_560 + 2) * 34_560;
    assert f == height - height % 34_560 + 69_120 && f % 34_560 == 0 by { Buckets(height); }
    forall e: UInt64 | e % 34_560 == 0 && height + 34_560 < e <= height + 69_120 ensures e == f {
      OneMultiple(e, f, height);
    }
  }

  lemma Buckets(height: nat)
    ensures (height / 34_560 + 2) * 34_560 == height - height % 34_560 + 69_120
    ensures (height / 34_560 + 2) * 34_560 % 34_560 == 0
  {
  }

  lemma OneMultiple(e: int, f: int, height: int)
    requires e % 34_560 == 0 && f % 34_560 == 0
    requires height + 34_560 < e <= height + 69_120 && height + 34_560 < f <= height + 69_120
    ensures e == f
  {
    assert e == e / 34_560 * 34_560 && f == f / 34_560 * 34_560;
  }

  // ------------------------------------------------------------------- staging

  /** What a batch must be to be staged. */
  lemma StageableIs(b: Batch, hash: Bytes -> string)
    ensures Stageable(b, hash) <==>
              && 0 !in [|b.batchId|, |b.network|, |b.account|, |b.runId|, |b.url|]
              && b.mean > 0 && b.max > 0 && b.mean <= b.max
              && (|b.items| > 0 || b.nextProof != None)
              && b.proofPending == b.proofNotified == b.noticePending == b.noticed == None
              && b.sentPending == None && b.sentNotified == None
              && (forall i, j :: 0 <= i < j < |b.items| ==>
                    b.items[i].itemId != b.items[j].itemId && b.items[i].txid != b.items[j].txid)
              && (forall i :: 0 <= i < |b.items| ==>
                    && b.items[i].itemId != "" && b.items[i].txid != "" && b.items[i].raw != []
                    && b.items[i].digest == hash(b.items[i].raw) && b.items[i].scheduled < b.items[i].expiry
                    && b.items[i].status == Staged)
  {
    if Stageable(b, hash) {
      assert forall i :: 0 <= i < |b.items| ==> b.items[i] in b.items;
    }
  }

  /** A batch under a new id is appended as it is. */
  lemma StageAppends(s: Snapshot, b: Batch, hash: Bytes -> string)
    requires forall i :: 0 <= i < |s.batches| ==> s.batches[i].batchId != b.batchId
    ensures Stage(s, b, hash)
            == if Stageable(b, hash) then Success(s.(batches := s.batches + [b])) else Failure(InvalidBatch)
  {
  }

  predicate Holds(b: Batch, itemId: string) { exists it :: it in b.items && it.itemId == itemId }

  /** An incoming item may restate a stored one; a new one shares neither its
      txid nor its part with any stored. */
  predicate Fits(e: Batch, incoming: Item) {
    forall it :: it in e.items ==>
      if it.itemId == incoming.itemId then
        it.partIndex == incoming.partIndex && it.txid == incoming.txid && it.digest == incoming.digest
        && it.anchor == incoming.anchor && it.expiry == incoming.expiry
      else Holds(e, incoming.itemId) || (it.txid != incoming.txid && it.partIndex != incoming.partIndex)
  }

  lemma AbsentIsNotHeld(e: Batch, itemId: string)
    ensures ItemIndex(e.items, itemId).None? == !Holds(e, itemId)
  {
    var at := ItemIndex(e.items, itemId);
    if at.Some? {
      assert e.items[at.value] in e.items;
    } else {
      forall it | it in e.items ensures it.itemId != itemId {
        var j :| 0 <= j < |e.items| && e.items[j] == it;
      }
    }
  }

  lemma CompatibleIsFits(e: Batch, incoming: Item)
    requires DistinctItemIds(e.items)
    ensures Compatible(e.items, incoming) <==> Fits(e, incoming)
  {
    var at := ItemIndex(e.items, incoming.itemId);
    if at.Some? {
      assert e.items[at.value] in e.items;
      forall it | it in e.items && it.itemId == incoming.itemId ensures it == e.items[at.value] {
        var j :| 0 <= j < |e.items| && e.items[j] == it;
      }
      assert Holds(e, incoming.itemId);
    } else {
      AbsentIsNotHeld(e, incoming.itemId);
    }
  }

  /** A batch staged again under a stored id is merged exactly if it belongs to
      the same run, moves endpoint and timing only while nothing is being
      submitted, and every item of it fits. */
  lemma RestageSucceedsIff(s: Snapshot, b: Batch, hash: Bytes -> string, i: nat)
    requires DistinctBatchIds(s.batches) && i < |s.batches| && s.batches[i].batchId == b.batchId
    requires DistinctItemIds(s.batches[i].items) && Stageable(b, hash)
    ensures var e := s.batches[i];
            Stage(s, b, hash).Success? <==>
              && e.network == b.network && e.account == b.account && e.runId == b.runId
              && ((e.url == b.url && e.mean == b.mean && e.max == b.max)
                  || forall it :: it in e.items ==> it.status != Submitting)
              && forall it :: it in b.items ==> Fits(e, it)
    ensures Stage(s, b, hash).Failure? ==> Stage(s, b, hash).error == ConflictingBatch
  {
    FoundBatch(s.batches, i);
    forall it | it in b.items ensures Compatible(s.batches[i].items, it) <==> Fits(s.batches[i], it) {
      CompatibleIsFits(s.batches[i], it);
    }
  }

  /** The merge keeps every stored item where it is, appends the new ones in
      order, adopts endpoint, timing and proof height, and forgets what it
      announced only if there is something new to announce. */
  lemma RestageMerges(s: Snapshot, b: Batch, hash: Bytes -> string, i: nat)
    requires DistinctBatchIds(s.batches) && i < |s.batches| && s.batches[i].batchId == b.batchId
    requires Stage(s, b, hash).Success?
    ensures var e, s' := s.batches[i], Stage(s, b, hash).value;
            var added := Filter(b.items, (it: Item) => !Holds(e, it.itemId));
            && s' == s.(batches := s.batches[i := s'.batches[i]])
            && var e' := s'.batches[i];
               && e'.items == e.items + added
               && e'.url == b.url && e'.mean == b.mean && e'.max == b.max && e'.nextProof == b.nextProof
               && (e.nextProof == b.nextProof ==>
                     e'.proofPending == e.proofPending && e'.proofNotified == e.proofNotified
                     && e'.noticePending == e.noticePending && e'.noticed == e.noticed)
               && (e.nextProof != b.nextProof ==>
                     e'.proofPending == e'.proofNotified == e'.noticePending == e'.noticed == None)
               && (if added != [] || e.nextProof != b.nextProof then e'.sentPending == e'.sentNotified == None
                   else e'.sentPending == e.sentPending && e'.sentNotified == e.sentNotified)
               && e'.batchId == e.batchId && e'.network == e.network && e'.account == e.account
               && e'.runId == e.runId && e'.createdAt == e.createdAt && e'.armedAt == e.armedAt
  {
    FoundBatch(s.batches, i);
    var e := s.batches[i];
    forall it | it in b.items ensures ItemIndex(e.items, it.itemId).None? == !Holds(e, it.itemId) {
      AbsentIsNotHeld(e, it.itemId);
    }
    FilterAgrees(b.items, (it: Item) => ItemIndex(e.items, it.itemId).None?, (it: Item) => !Holds(e, it.itemId));
  }

  // -------------------------------------------------------- arming, recovering

  /** Arming succeeds exactly when the batch exists, something is named or a
      proof is watched, and every digest named is that of a stored item. */
  lemma ArmSucceedsIff(s: Snapshot, batchId: string, digests: map<string, string>, at: Date)
    requires DistinctBatchIds(s.batches)
    ensures ArmBatch(s, batchId, digests, at).Success? <==>
              exists b :: b in s.batches && b.batchId == batchId
                          && (digests != map[] || b.nextProof != None)
                          && forall id :: id in digests ==>
                               exists it :: it in b.items && it.itemId == id && it.digest == digests[id]
  {
    var bi := BatchIndex(s.batches, batchId);
    if bi.Some? {
      var b := s.batches[bi.value];
      assert b in s.batches && b.batchId == batchId;
      forall c | c in s.batches && c.batchId == batchId ensures c == b {
        var i :| 0 <= i < |s.batches| && s.batches[i] == c;
      }
    }
  }

  /** Arming arms exactly the staged items named and changes no other item. */
  lemma ArmArmsNamed(s: Snapshot, batchId: string, digests: map<string, string>, at: Date, i: nat)
    requires DistinctBatchIds(s.batches) && i < |s.batches| && ArmBatch(s, batchId, digests, at).Success?
    ensures var s' := ArmBatch(s, batchId, digests, at).value;
            && s' == s.(batches := s'.batches) && |s'.batches| == |s.batches|
            && (s.batches[i].batchId != batchId ==> s'.batches[i] == s.batches[i])
            && var b, b' := s.batches[i], s'.batches[i];
               b.batchId == batchId ==>
                 && |b'.items| == |b.items|
                 && b' == b.(items := b'.items, armedAt := if b.armedAt == None then Some(at) else b.armedAt)
                 && forall j :: 0 <= j < |b.items| ==>
                      if b.items[j].status == Staged && b.items[j].itemId in digests
                      then b'.items[j] == b.items[j].(status := Armed) else b'.items[j] == b.items[j]
  {
    FoundBatch(s.batches, i);
  }

  /** A submission of unknown outcome: armed again, counted, and held back one
      minute, five, fifteen, then an hour. */
  lemma UncertainIs(it: Item, error: string, at: Date)
    ensures var wait := if it.attemptCount == 0 then 60.0 else if it.attemptCount == 1 then 300.0
                        else if it.attemptCount == 2 then 900.0 else 3600.0;
            Uncertain(it, error, at)
            == it.(status := Armed, attemptCount := it.attemptCount + 1, nextAttemptAt := Some(at + wait),
                   lastError := Some(error), attemptId := None, attemptStartedAt := None)
  {
  }

  /** Only submitting items are touched when a run starts. */
  lemma InterruptedAre(s: Snapshot, at: Date, i: nat, j: nat)
    requires i < |s.batches| && j < |s.batches[i].items|
    ensures var s' := RecoverInterrupted(s, at);
            && s' == s.(batches := s'.batches) && |s'.batches| == |s.batches|
            && |s'.batches[i].items| == |s.batches[i].items|
            && s'.batches[i] == s.batches[i].(items := s'.batches[i].items)
            && var it, it' := s.batches[i].items[j], s'.batches[i].items[j];
               if it.status == Submitting
               then it' == Uncertain(it, "The previous submission outcome is unknown.", at) else it' == it
  {
  }

  /** Letters are folded, everything else stays. */
  lemma LowercasedIs(s: string, i: nat)
    requires i < |s|
    ensures |Lowercased(s)| == |s|
    ensures if 65 <= s[i] as int <= 90 then Lowercased(s)[i] as int == s[i] as int + 32 else Lowercased(s)[i] == s[i]
  {
  }

  /** A recovery needs an endpoint and txids, and the batch it finds must be of
      the run, not empty, and hold no transaction the caller does not expect. */
  lemma RecoverSucceedsIff(s: Snapshot, batchId: string, network: string, account: string, runId: string,
                           expected: set<string>, url: string, at: Date)
    requires DistinctBatchIds(s.batches)
    ensures RecoverBatch(s, batchId, network, account, runId, expected, url, at).Success? <==>
              && expected != {} && url != ""
              && forall b :: b in s.batches && b.batchId == batchId ==>
                   && b.network == network && b.account == account && b.runId == runId && b.items != []
                   && forall it :: it in b.items ==> exists t :: t in expected && Lowercased(t) == it.txid
  {
    var bi := BatchIndex(s.batches, batchId);
    var known := set t | t in expected :: Lowercased(t);
    if bi.Some? {
      assert s.batches[bi.value] in s.batches;
    }
    forall b | b in s.batches && b.batchId == batchId ensures bi.Some? && b == s.batches[bi.value] {
      var i :| 0 <= i < |s.batches| && s.batches[i] == b;
    }
  }

  /** A recovery arms what was staged, returns what was being submitted, and
      moves the endpoint; without the batch it changes nothing. */
  lemma RecoverRearms(s: Snapshot, batchId: string, network: string, account: string, runId: string,
                      expected: set<string>, url: string, at: Date, i: nat)
    requires DistinctBatchIds(s.batches) && i < |s.batches|
    requires RecoverBatch(s, batchId, network, account, runId, expected, url, at).Success?
    ensures var (s', found) := RecoverBatch(s, batchId, network, account, runId, expected, url, at).value;
            && s' == s.(batches := s'.batches) && |s'.batches| == |s.batches|
            && (s.batches[i].batchId == batchId ==> found)
            && (s.batches[i].batchId != batchId ==> s'.batches[i] == s.batches[i])
            && var b, b' := s.batches[i], s'.batches[i];
               b.batchId == batchId ==>
                 && |b'.items| == |b.items| && b'.url == url
                 && b' == b.(items := b'.items, url := url, armedAt := b'.armedAt)
                 && b'.armedAt == (if b.armedAt == None && (exists it :: it in b'.items && it.status == Armed)
                                   then Some(at) else b.armedAt)
                 && forall j :: 0 <= j < |b.items| ==>
                      match b.items[j].status
                      case Staged => b'.items[j] == b.items[j].(status := Armed)
                      case Submitting =>
                        b'.items[j] == Uncertain(b.items[j], "The previous submission outcome is unknown.", at)
                      case other => b'.items[j] == b.items[j]
  {
    FoundBatch(s.batches, i);
  }

  // ---------------------------------------------------- what may be worked on

  /** The endpoints worth inspecting, and the scopes with something to send. */
  lemma WatchedIs(b: Batch)
    ensures NeedsInspection(b) <==>
              && b.armedAt != None
              && ((exists it :: it in b.items && it.status == Armed)
                  || (b.nextProof != None && b.proofNotified == None
                      && (b.proofPending != None || b.noticed == None || b.noticePending != None)))
  {
  }

  lemma CandidateIs(b: Batch, endpoint: string, height: UInt64, at: Date)
    ensures Candidate(b, Some(endpoint), height, at) <==>
              && b.url == endpoint && b.armedAt != None
              && exists it :: it in b.items && it.status == Armed && it.scheduled <= height < it.expiry
                              && (it.nextAttemptAt == None || it.nextAttemptAt.value <= at)
    ensures ScopeKey(b) == b.network + ":" + b.account
  {
    assert forall it :: it in b.items ==>
        (Due(it, height, at) <==> it.status == Armed && it.scheduled <= height < it.expiry
                                  && (it.nextAttemptAt == None || it.nextAttemptAt.value <= at));
  }

  lemma ProofCandidateIs(b: Batch, height: UInt64, endpoint: string)
    ensures ProofCandidate(b, height, endpoint) <==>
              && b.url == endpoint && b.armedAt != None && b.nextProof != None && b.nextProof.value <= height
              && b.proofNotified == None && (b.proofPending != None || b.noticed == None || b.noticePending != None)
  {
  }

  /** What is selected was stored in an armed batch of the endpoint and due, and
      no due item of that batch comes before it; nothing else moves. */
  lemma SelectedIs(s: Snapshot, endpoint: string, height: UInt64, at: Date)
    ensures var (s', sel) := SelectDue(s, Some(endpoint), height, at);
            && s' == s.(lastScope := s'.lastScope)
            && (sel.None? ==> s' == s && forall b :: b in s.batches ==> !Candidate(b, Some(endpoint), height, at))
            && (sel.Some? ==>
                  && s'.lastScope == Some(sel.value.scope) && sel.value.url == endpoint
                  && exists b :: b in s.batches && Selects(b, sel.value, endpoint, height, at))
  {
    var (s', sel) := SelectDue(s, Some(endpoint), height, at);
    var cs := Candidates(s, Some(endpoint), height, at);
    if sel.Some? {
      var scope := NextInRing(ScopeRing(s, Some(endpoint), height, at), s.lastScope);
      var bi := FirstIndex(cs, (b: Batch) => ScopeKey(b) == scope);
      assert cs[bi.value] in cs;
      var i := FirstDueIsLeast(cs[bi.value].items, height, at);
      forall it | it in cs[bi.value].items && Due(it, height, at)
        ensures sel.value.item.scheduled < it.scheduled
                || (sel.value.item.scheduled == it.scheduled && !Less(it.txid, sel.value.item.txid))
      {
        LeastComesFirst(cs[bi.value].items, i, height, at, it);
      }
      assert Selects(cs[bi.value], sel.value, endpoint, height, at);
    } else {
      if cs != [] { SomeSelected(s, endpoint, height, at); }
      assert forall b :: b in s.batches && Candidate(b, Some(endpoint), height, at) ==> b in cs;
    }
  }

  predicate Selects(b: Batch, sel: Selection, endpoint: string, height: UInt64, at: Date) {
    && b.batchId == sel.batchId && b.account == sel.account && b.url == endpoint && b.armedAt != None
    && sel.scope == b.network + ":" + b.account
    && sel.item in b.items && sel.item.status == Armed && sel.item.scheduled <= height < sel.item.expiry
    && (sel.item.nextAttemptAt == None || sel.item.nextAttemptAt.value <= at)
    && forall it :: it in b.items && it.status == Armed && it.scheduled <= height < it.expiry
                    && (it.nextAttemptAt == None || it.nextAttemptAt.value <= at)
                    ==> sel.item.scheduled < it.scheduled
                        || (sel.item.scheduled == it.scheduled && !Less(it.txid, sel.item.txid))
  }

  lemma LeastComesFirst(items: seq<Item>, i: nat, height: UInt64, at: Date, it: Item)
    requires LeastDue(items, i, height, at) && it in items && Due(it, height, at)
    ensures items[i].scheduled < it.scheduled || (items[i].scheduled == it.scheduled && !Less(it.txid, items[i].txid))
  {
    var j :| 0 <= j < |items| && items[j] == it;
    if Less(items[i].txid, it.txid) { NoCycle(items[i].txid, it.txid); }
    LessIrreflexive(it.txid);
  }

  lemma SomeSelected(s: Snapshot, endpoint: string, height: UInt64, at: Date)
    requires Candidates(s, Some(endpoint), height, at) != []
    ensures SelectDue(s, Some(endpoint), height, at).1.Some?
  {
    var cs := Candidates(s, Some(endpoint), height, at);
    SortedSetIsSorted(Scopes(cs));
    assert Scopes(cs)[0] in Scopes(cs);
    var ring := ScopeRing(s, Some(endpoint), height, at);
    var scope := NextInRing(ring, s.lastScope);
    var k :| 0 <= k < |cs| && Scopes(cs)[k] == scope;
    var bi := FirstIndex(cs, (b: Batch) => ScopeKey(b) == scope);
    assert bi.Some? && cs[bi.value] in cs;
  }

  // --------------------------------------------------------------------- sweeps

  /** One item of a sweep by `settles`: settled under `status` if it is armed and
      meets the condition, else untouched; its batch is unarmed if any settled. */
  ghost predicate SweepsBatch(b: Batch, b': Batch, endpoint: string, settles: Item -> bool, status: Status) {
    if b.url != endpoint || !(exists it :: it in b.items && it.status == Armed && settles(it)) then b' == b
    else
      && |b'.items| == |b.items| && b' == b.(items := b'.items, armedAt := None, nextProof := None)
      && forall j :: 0 <= j < |b.items| ==>
           b'.items[j] == if b.items[j].status == Armed && settles(b.items[j]) then b.items[j].(status := status)
                          else b.items[j]
  }

  /** What the sweeps settle, of armed items: those past their expiry, and those
      due whose expiry is not the canonical one. */
  function Ended(height: UInt64): Item -> bool { (it: Item) => it.expiry <= height }

  function Misdated(height: UInt64, canonical: UInt64): Item -> bool {
    (it: Item) => it.scheduled <= height && it.expiry != canonical
  }

  lemma SweepIs(s: Snapshot, k: Sweep, height: UInt64, endpoint: string, at: Date, i: nat, settles: Item -> bool,
                status: Status)
    requires i < |s.batches| && StatusOf(SweepOutcome(k)) == status
    requires forall it :: Swept(k, height, it) <==> it.status == Armed && settles(it)
    ensures var s' := SweepAll(s, k, height, endpoint, at);
            && s' == s.(batches := s'.batches, receipts := s'.receipts) && |s'.batches| == |s.batches|
            && SweepsBatch(s.batches[i], s'.batches[i], endpoint, settles, status)
  {
    var b := s.batches[i];
    assert forall j :: 0 <= j < |b.items| ==> b.items[j] in b.items;
    assert (exists it :: it in b.items && Swept(k, height, it))
           <==> (exists it :: it in b.items && it.status == Armed && settles(it));
    hide Swept;
  }

  lemma ExpireSweeps(s: Snapshot, height: UInt64, endpoint: string, at: Date, i: nat)
    requires i < |s.batches|
    ensures var s' := ExpireItems(s, height, endpoint, at);
            && s' == s.(batches := s'.batches, receipts := s'.receipts) && |s'.batches| == |s.batches|
            && SweepsBatch(s.batches[i], s'.batches[i], endpoint, Ended(height), ExpiredAwaiting)
  {
    SweepIs(s, Expiring, height, endpoint, at, i, Ended(height), ExpiredAwaiting);
  }

  /** The resign sweep settles exactly the due items whose expiry is not the
      canonical one, and spares those whose expiry it is. */
  lemma ResignSweeps(s: Snapshot, height: UInt64, endpoint: string, at: Date, canonical: UInt64, i: nat)
    requires i < |s.batches|
    requires canonical % 34_560 == 0 && height + 34_560 < canonical <= height + 69_120
    ensures var s' := MarkNeedingResign(s, height, endpoint, at);
            && s' == s.(batches := s'.batches, receipts := s'.receipts) && |s'.batches| == |s.batches|
            && SweepsBatch(s.batches[i], s'.batches[i], endpoint,
                           Misdated(height, canonical), NeedsResignAwaiting)
  {
    CanonicalExpiryIs(height);
    hide SweepsBatch, SweepAll;
    SweepIs(s, Resigning(canonical), height, endpoint, at, i,
            Misdated(height, canonical), NeedsResignAwaiting);
  }

  /** On overflow of the canonical expiry the resign sweep does nothing. */
  lemma ResignOverflows(s: Snapshot, height: UInt64, endpoint: string, at: Date)
    requires forall e: UInt64 :: !(e % 34_560 == 0 && height + 34_560 < e <= height + 69_120)
    ensures MarkNeedingResign(s, height, endpoint, at) == s
  {
    CanonicalExpiryIs(height);
  }

  /** The receipt of item `it` of batch `b`. */
  predicate ReceiptIs(r: Receipt, b: Batch, it: Item, outcome: Outcome, name: string, height: UInt64,
                      code: Option<int>, message: Option<string>, at: Date)
  {
    && r.receiptId == b.batchId + ":" + it.itemId + ":" + name
    && r.batchId == b.batchId && r.itemId == it.itemId && r.network == b.network && r.account == b.account
    && r.runId == b.runId && r.txid == it.txid && r.outcome == outcome && r.remoteHeight == height
    && r.responseCode == code && r.responseMessage == message && r.recordedAt == at
  }

  ghost predicate ExpiryReceipt(s: Snapshot, height: UInt64, endpoint: string, at: Date, r: Receipt) {
    exists b, it :: b in s.batches && it in b.items && b.url == endpoint && it.status == Armed && it.expiry <= height
                    && ReceiptIs(r, b, it, Expired, "expired", height, None, None, at) && r.updates == []
  }

  /** The sweeps append receipts, one for each item they settle. */
  lemma ExpireAppends(s: Snapshot, height: UInt64, endpoint: string, at: Date)
    ensures var s' := ExpireItems(s, height, endpoint, at);
            && s.receipts <= s'.receipts
            && forall r :: r in s'.receipts[|s.receipts|..] <==> ExpiryReceipt(s, height, endpoint, at, r)
  {
    var news := SweepReceipts(Expiring, height, endpoint, s.batches, at);
    assert ExpireItems(s, height, endpoint, at).receipts[|s.receipts|..] == news;
    forall r ensures r in news <==> ExpiryReceipt(s, height, endpoint, at, r) {
      SweepReceiptsIff(Expiring, height, endpoint, s.batches, at, r);
      if SweptReceipt(Expiring, height, endpoint, s.batches, at, r) {
        var b, it :| b in s.batches && it in b.items && b.url == endpoint && Swept(Expiring, height, it)
                     && r == MakeReceipt(b, it, Expired, height, None, None, [], at);
        assert ReceiptIs(r, b, it, Expired, "expired", height, None, None, at);
      }
    }
  }

  ghost predicate ResignReceipt(s: Snapshot, height: UInt64, endpoint: string, at: Date, canonical: UInt64, r: Receipt) {
    exists b, it :: b in s.batches && it in b.items && b.url == endpoint
                    && it.status == Armed && it.scheduled <= height && it.expiry != canonical
                    && ReceiptIs(r, b, it, NeedsResign, "needsResign", height, None,
                                 Some("Broadcast height crossed a ZIP 318 expiry boundary."), at) && r.updates == []
  }

  lemma ResignAppends(s: Snapshot, height: UInt64, endpoint: string, at: Date, canonical: UInt64)
    requires canonical % 34_560 == 0 && height + 34_560 < canonical <= height + 69_120
    ensures var s' := MarkNeedingResign(s, height, endpoint, at);
            && s.receipts <= s'.receipts
            && forall r :: r in s'.receipts[|s.receipts|..] <==> ResignReceipt(s, height, endpoint, at, canonical, r)
  {
    CanonicalExpiryIs(height);
    var k := Resigning(canonical);
    var news := SweepReceipts(k, height, endpoint, s.batches, at);
    assert MarkNeedingResign(s, height, endpoint, at).receipts[|s.receipts|..] == news;
    forall r ensures r in news <==> ResignReceipt(s, height, endpoint, at, canonical, r) {
      SweepReceiptsIff(k, height, endpoint, s.batches, at, r);
      if SweptReceipt(k, height, endpoint, s.batches, at, r) {
        var b, it :| b in s.batches && it in b.items && b.url == endpoint && Swept(k, height, it)
                     && r == MakeReceipt(b, it, SweepOutcome(k), height, None, SweepMessage(k), [], at);
        assert ReceiptIs(r, b, it, NeedsResign, "needsResign", height, None,
                         Some("Broadcast height crossed a ZIP 318 expiry boundary."), at);
      }
    }
  }

  ghost predicate SweptReceipt(k: Sweep, height: UInt64, endpoint: string, batches: seq<Batch>, at: Date, r: Receipt) {
    exists b, it :: b in batches && it in b.items && b.url == endpoint && Swept(k, height, it)
                    && r == MakeReceipt(b, it, SweepOutcome(k), height, None, SweepMessage(k), [], at)
  }

  lemma {:induction false} SweepReceiptsIff(k: Sweep, height: UInt64, endpoint: string, batches: seq<Batch>, at: Date,
                                            r: Receipt)
    ensures r in SweepReceipts(k, height, endpoint, batches, at) <==> SweptReceipt(k, height, endpoint, batches, at, r)
  {
    if batches != [] {
      var init, last := batches[..|batches| - 1], batches[|batches| - 1];
      SweepReceiptsIff(k, height, endpoint, init, at, r);
      ItemReceiptsIff(k, height, last, last.items, at, r);
      assert forall b :: b in batches <==> b in init || b == last;
    }
  }

  lemma {:induction false} ItemReceiptsIff(k: Sweep, height: UInt64, b: Batch, items: seq<Item>, at: Date, r: Receipt)
    ensures r in ItemReceipts(k, height, b, items, at)
            <==> exists it :: it in items && Swept(k, height, it)
                              && r == MakeReceipt(b, it, SweepOutcome(k), height, None, SweepMessage(k), [], at)
  {
    if items != [] {
      var init, last := items[..|items| - 1], items[|items| - 1];
      ItemReceiptsIff(k, height, b, init, at, r);
      assert forall it :: it in items <==> it in init || it == last;
    }
  }

  // --------------------------------------------------------- submission results

  /** The result of finding an item by its id alone: `it` at `(i, j)`. */
  predicate FoundAt(s: Snapshot, itemId: string, i: nat, j: nat) {
    && i < |s.batches| && j < |s.batches[i].items| && s.batches[i].items[j].itemId == itemId
    && (forall a, c :: 0 <= a < i && 0 <= c < |s.batches[a].items| ==> s.batches[a].items[c].itemId != itemId)
    && (forall c :: 0 <= c < j ==> s.batches[i].items[c].itemId != itemId)
  }

  predicate Nowhere(s: Snapshot, itemId: string) {
    forall a, c :: 0 <= a < |s.batches| && 0 <= c < |s.batches[a].items| ==> s.batches[a].items[c].itemId != itemId
  }

  lemma LocationIs(s: Snapshot, itemId: string)
    ensures match Location(s.batches, itemId)
            case Some((i, j)) => FoundAt(s, itemId, i, j)
            case None => Nowhere(s, itemId)
  {
    if Location(s.batches, itemId).None? {
      forall a, c | 0 <= a < |s.batches| && 0 <= c < |s.batches[a].items|
        ensures s.batches[a].items[c].itemId != itemId
      {
        assert ItemIndex(s.batches[a].items, itemId).None?;
      }
    } else {
      var (i, j) := Location(s.batches, itemId).value;
      forall a, c | 0 <= a < i && 0 <= c < |s.batches[a].items| ensures s.batches[a].items[c].itemId != itemId {
        assert ItemIndex(s.batches[a].items, itemId).None?;
      }
    }
  }

  /** `s'` is `s` with one item replaced. */
  predicate Replaced(s: Snapshot, s': Snapshot, i: nat, j: nat, it': Item) {
    i < |s.batches| && j < |s.batches[i].items|
    && s' == s.(batches := s.batches[i := s.batches[i].(items := s.batches[i].items[j := it'])])
  }

  lemma FoundOnce(s: Snapshot, itemId: string, i: nat, j: nat)
    requires FoundAt(s, itemId, i, j)
    ensures Location(s.batches, itemId) == Some((i, j))
  {
    LocationIs(s, itemId);
  }

  /** Nothing begins or ends for an item that is not stored. */
  lemma NowhereIsNotFound(s: Snapshot, itemId: string, attemptId: string, error: string, equivalent: bool,
                          height: UInt64, code: int, message: string, at: Date, rank: nat -> int, draws: nat -> int)
    requires Nowhere(s, itemId)
    ensures BeginSubmission(s, itemId, attemptId, at) == Failure(ItemNotFound)
    ensures ValidateRescheduling(s, itemId, height) == Failure(ItemNotFound)
    ensures RecordUncertain(s, itemId, error, at) == Failure(ItemNotFound)
    ensures RecordCancelled(s, itemId, error) == Failure(ItemNotFound)
    ensures RecordRejected(s, itemId, height, code, message, at) == Failure(ItemNotFound)
    ensures RecordAccepted(s, itemId, equivalent, height, code, message, at, rank, draws) == Failure(ItemNotFound)
  {
    LocationIs(s, itemId);
  }

  /** Only an armed item begins, with its attempt. */
  lemma BeginIs(s: Snapshot, itemId: string, attemptId: string, at: Date, i: nat, j: nat)
    requires FoundAt(s, itemId, i, j)
    ensures var it, r := s.batches[i].items[j], BeginSubmission(s, itemId, attemptId, at);
            if it.status != Armed then r == Failure(InvalidTransition)
            else r.Success? && Replaced(s, r.value, i, j, it.(status := Submitting, attemptId := Some(attemptId),
                                                              attemptStartedAt := Some(at)))
  {
    FoundOnce(s, itemId, i, j);
  }

  lemma RecordUncertainIs(s: Snapshot, itemId: string, error: string, at: Date, i: nat, j: nat)
    requires FoundAt(s, itemId, i, j)
    ensures var it, r := s.batches[i].items[j], RecordUncertain(s, itemId, error, at);
            if it.status != Submitting then r == Failure(InvalidTransition)
            else r.Success? && Replaced(s, r.value, i, j, Uncertain(it, error, at))
  {
    FoundOnce(s, itemId, i, j);
  }

  /** A cancellation before the send is neither counted nor held back. */
  lemma RecordCancelledIs(s: Snapshot, itemId: string, error: string, i: nat, j: nat)
    requires FoundAt(s, itemId, i, j)
    ensures var it, r := s.batches[i].items[j], RecordCancelled(s, itemId, error);
            if it.status != Submitting then r == Failure(InvalidTransition)
            else r.Success? && Replaced(s, r.value, i, j, it.(status := Armed, nextAttemptAt := None,
                                                              lastError := Some(error), attemptId := None,
                                                              attemptStartedAt := None))
  {
    FoundOnce(s, itemId, i, j);
  }

  /** A rejection settles the item, unarms its batch, drops its proof height and
      appends one receipt. */
  lemma RecordRejectedIs(s: Snapshot, itemId: string, height: UInt64, code: int, message: string, at: Date, i: nat, j: nat)
    requires FoundAt(s, itemId, i, j)
    ensures var it, r := s.batches[i].items[j], RecordRejected(s, itemId, height, code, message, at);
            if it.status != Submitting then r == Failure(InvalidTransition)
            else r.Success? && RejectedTo(s, r.value, i, j, height, code, message, at)
  {
    FoundOnce(s, itemId, i, j);
    var r := RecordRejected(s, itemId, height, code, message, at);
    if r.Success? { assert r.value.receipts[..|s.receipts|] == s.receipts; }
  }

  predicate RejectedTo(s: Snapshot, s': Snapshot, i: nat, j: nat, height: UInt64, code: int, message: string, at: Date) {
    && i < |s.batches| && j < |s.batches[i].items|
    && var b, it := s.batches[i], s.batches[i].items[j];
       && s'.batches == s.batches[i := b.(armedAt := None, nextProof := None,
                                          items := b.items[j := it.(status := RejectedAwaiting, attemptId := None,
                                                                    attemptStartedAt := None, nextAttemptAt := None)])]
       && |s'.receipts| == |s.receipts| + 1 && s'.receipts[..|s.receipts|] == s.receipts
       && s'.lastScope == s.lastScope && s'.lastEndpoint == s.lastEndpoint && s'.announced == s.announced
       && var r := s'.receipts[|s.receipts|];
          ReceiptIs(r, b, it, Rejected, "rejected", height, Some(code), Some(message), at) && r.updates == []
  }

  /** An acceptance settles the item, leaves every item alone that is not an
      overdue peer, and appends one receipt with the schedules of those. */
  lemma RecordAcceptedIs(s: Snapshot, itemId: string, equivalent: bool, height: UInt64, code: int, message: string,
                         at: Date, rank: nat -> int, draws: nat -> int, i: nat, j: nat)
    requires FoundAt(s, itemId, i, j)
    requires RecordAccepted(s, itemId, equivalent, height, code, message, at, rank, draws).Success?
    ensures s.batches[i].items[j].status == Submitting
    ensures var s' := RecordAccepted(s, itemId, equivalent, height, code, message, at, rank, draws).value;
            && AcceptedTo(s, s', i, j, itemId, height)
            && |s'.receipts| == |s.receipts| + 1 && s'.receipts[..|s.receipts|] == s.receipts
            && ReceiptIs(s'.receipts[|s.receipts|], s.batches[i], s.batches[i].items[j],
                         if equivalent then AcceptedEquivalent else Accepted,
                         if equivalent then "acceptedEquivalent" else "accepted", height, Some(code), Some(message), at)
  {
    hide Reschedule;
    FoundOnce(s, itemId, i, j);
    var b := s.batches[i];
    var b1 := WithItem(b, j, Settled(b.items[j], AcceptedAwaiting));
    var (items', updates) := Reschedule(b1, itemId, height, rank, draws).value;
    RespacedItems(b1, itemId, height, rank, draws, items', updates);
    var s' := RecordAccepted(s, itemId, equivalent, height, code, message, at, rank, draws).value;
    assert s'.receipts[..|s.receipts|] == s.receipts;
    assert s'.batches == s.batches[i := b.(items := items')];
  }

  predicate AcceptedTo(s: Snapshot, s': Snapshot, i: nat, j: nat, itemId: string, height: UInt64) {
    && i < |s.batches| && j < |s.batches[i].items| && |s'.batches| == |s.batches|
    && (forall a :: 0 <= a < |s.batches| && a != i ==> s'.batches[a] == s.batches[a])
    && s'.lastScope == s.lastScope && s'.lastEndpoint == s.lastEndpoint && s'.announced == s.announced
    && var b, b' := s.batches[i], s'.batches[i];
       && b' == b.(items := b'.items) && |b'.items| == |b.items|
       && b'.items[j] == b.items[j].(status := AcceptedAwaiting, attemptId := None, attemptStartedAt := None,
                                     nextAttemptAt := None)
       && forall c :: 0 <= c < |b.items| && c != j ==>
            b'.items[c] == b.items[c]
            || (b.items[c].itemId != itemId && b.items[c].status == Armed && b.items[c].scheduled <= height
                && b'.items[c] == b.items[c].(scheduled := b'.items[c].scheduled, scheduleStart := height,
                                              attemptId := None, attemptStartedAt := None))
  }

  lemma RespacedItems(b: Batch, itemId: string, height: UInt64, rank: nat -> int, draws: nat -> int, items': seq<Item>,
                      updates: seq<ScheduleUpdate>)
    requires Reschedule(b, itemId, height, rank, draws) == Success((items', updates))
    ensures |items'| == |b.items|
    ensures forall j :: 0 <= j < |b.items| ==>
              items'[j] == b.items[j]
              || (b.items[j].itemId != itemId && b.items[j].status == Armed && b.items[j].scheduled <= height
                  && items'[j] == b.items[j].(scheduled := items'[j].scheduled, scheduleStart := height,
                                              attemptId := None, attemptStartedAt := None))
  {
    hide Reschedule;
    RespacingKeepsItems(b, itemId, height, rank, draws, items', updates);
  }

  /** The peers respaced after an acceptance, and the room each of them needs. */
  lemma PeersAre(items: seq<Item>, itemId: string, height: UInt64, i: nat)
    ensures i in Overdue(items, itemId, height) <==>
              i < |items| && items[i].itemId != itemId && items[i].status == Armed && items[i].scheduled <= height
  {
  }

  /** The expiries of the overdue peers, each once, in ascending order. */
  lemma PeerExpiriesAscend(items: seq<Item>, itemId: string, height: UInt64) returns (order: seq<nat>)
    ensures var es := PeerExpiries(items, itemId, height);
            && |es| == |order| && (forall a, c :: 0 <= a < c < |es| ==> es[a] <= es[c])
            && (forall a, c :: 0 <= a < c < |order| ==> order[a] != order[c])
            && (forall i: nat :: i in order <==>
                  i < |items| && items[i].itemId != itemId && items[i].status == Armed && items[i].scheduled <= height)
            && forall a :: 0 <= a < |order| ==> order[a] < |items| && es[a] == items[order[a]].expiry
  {
    order := SortByKey(Overdue(items, itemId, height), ExpiryKey(items));
    OverdueIsDistinct(items, itemId, height);
    SortByKeySorted(Overdue(items, itemId, height), ExpiryKey(items));
    assert forall a :: 0 <= a < |order| ==> order[a] in order;
  }

  lemma OverdueIsDistinct(items: seq<Item>, itemId: string, height: UInt64)
    ensures NoDuplicates(Overdue(items, itemId, height))
  {
    var all := Indices(|items|);
    assert forall a :: 0 <= a < |all| ==> all[a] == a;
    FilterNoDuplicates(Indices(|items|), (i: nat) => i < |items| && OverduePeer(items[i], itemId, height));
  }

  /** The validation asks the first of these to lie more than one block ahead,
      the second more than two, and so on. */
  lemma ValidateIs(s: Snapshot, itemId: string, height: UInt64, i: nat, j: nat)
    requires FoundAt(s, itemId, i, j)
    ensures var es := PeerExpiries(s.batches[i].items, itemId, height);
            ValidateRescheduling(s, itemId, height)
            == if forall n :: 0 <= n < |es| ==> es[n] > height + n + 1 then Success(()) else Failure(InvalidSchedule)
  {
    FoundOnce(s, itemId, i, j);
  }

  // -------------------------------------------------- acknowledging and removing

  /** A batch goes with an acknowledgement if that names a terminal receipt of it
      and leaves it none, or if it ends up empty with nothing left to announce. */
  predicate GoesWith(s: Snapshot, ids: set<string>, batchId: string) {
    && (exists r :: r in s.receipts && r.receiptId in ids && r.batchId == batchId
                    && (r.outcome == Rejected || r.outcome == Expired || r.outcome == NeedsResign))
    && forall r :: r in s.receipts && r.batchId == batchId ==> r.receiptId in ids
  }

  /** What is left of a batch: its items that no acknowledged receipt names. */
  ghost predicate LeftBy(s: Snapshot, ids: set<string>, b: Batch, b': Batch) {
    && b' == b.(items := b'.items)
    && b'.items == Filter(b.items, (it: Item) => forall r :: r in s.receipts && r.receiptId in ids ==> r.itemId != it.itemId)
  }

  lemma WithoutIsLeft(s: Snapshot, ids: set<string>, b: Batch)
    ensures LeftBy(s, ids, b, WithoutItems(b, AcknowledgedItemIds(s, ids)))
  {
    FilterAgrees(b.items, (it: Item) => it.itemId !in AcknowledgedItemIds(s, ids),
                 (it: Item) => forall r :: r in s.receipts && r.receiptId in ids ==> r.itemId != it.itemId);
  }

  lemma AcknowledgeIs(s: Snapshot, ids: set<string>, b': Batch)
    ensures b' in Acknowledge(s, ids).batches ==>
              && (exists b :: b in s.batches && LeftBy(s, ids, b, b') && !GoesWith(s, ids, b.batchId))
              && (b'.items != [] || b'.nextProof != None || b'.sentPending != None)
  {
    if b' in Acknowledge(s, ids).batches {
      var b := AcknowledgeLeft(s, ids, b');
      WithoutIsLeft(s, ids, b);
    }
  }

  lemma AcknowledgeLeft(s: Snapshot, ids: set<string>, b': Batch) returns (b: Batch)
    requires b' in Acknowledge(s, ids).batches
    ensures b in s.batches && b' == WithoutItems(b, AcknowledgedItemIds(s, ids)) && !Emptied(b')
            && !ClosedByAcknowledgement(s, ids, b.batchId)
  {
    var open := Filter(s.batches, (b: Batch) => !ClosedByAcknowledgement(s, ids, b.batchId));
    var gone := AcknowledgedItemIds(s, ids);
    var trimmed := MapBatches(open, (b: Batch) => WithoutItems(b, gone));
    var a :| 0 <= a < |trimmed| && trimmed[a] == b';
    assert open[a] in open;
    b := open[a];
  }

  lemma AcknowledgeLeaves(s: Snapshot, ids: set<string>, b: Batch)
    requires b in s.batches && !GoesWith(s, ids, b.batchId)
    requires b.nextProof != None || b.sentPending != None
             || exists it :: it in b.items && forall r :: r in s.receipts && r.receiptId in ids ==> r.itemId != it.itemId
    ensures exists b' :: b' in Acknowledge(s, ids).batches && LeftBy(s, ids, b, b')
  {
    var b' := WithoutItems(b, AcknowledgedItemIds(s, ids));
    WithoutIsLeft(s, ids, b);
    AcknowledgeMembers(s, ids, b);
  }

  lemma AcknowledgeRest(s: Snapshot, ids: set<string>)
    ensures var s' := Acknowledge(s, ids);
            && s' == s.(batches := s'.batches, receipts := s'.receipts)
            && s'.receipts == Filter(s.receipts, (r: Receipt) => r.receiptId !in ids)
  {
  }

  /** A batch is discarded only if it was never tried and owes no receipt. */
  lemma DiscardIs(s: Snapshot, batchId: string)
    requires DistinctBatchIds(s.batches)
    ensures match Discard(s, batchId)
            case Success((s', true)) =>
              && (exists b :: b in s.batches && b.batchId == batchId)
              && (forall b :: b in s'.batches <==> b in s.batches && b.batchId != batchId)
              && s' == s.(batches := s'.batches)
            case Success((s', false)) => s' == s && forall b :: b in s.batches ==> b.batchId != batchId
            case Failure(e) => e == ConflictingBatch && exists b :: b in s.batches && b.batchId == batchId
    ensures Discard(s, batchId).Failure? <==>
              exists b :: b in s.batches && b.batchId == batchId
                          && ((exists it :: it in b.items && (it.status == Submitting || it.attemptCount > 0))
                              || (exists r :: r in s.receipts && r.batchId == batchId))
  {
    var bi := BatchIndex(s.batches, batchId);
    forall b | b in s.batches && b.batchId == batchId ensures bi.Some? && b == s.batches[bi.value] {
      var i :| 0 <= i < |s.batches| && s.batches[i] == b;
    }
    if bi.Some? {
      assert s.batches[bi.value] in s.batches;
      RemovedIs(s.batches, bi.value);
    }
  }

  lemma RemovedIs(batches: seq<Batch>, bi: nat)
    requires DistinctBatchIds(batches) && bi < |batches|
    ensures forall b :: b in RemoveAt(batches, bi) <==> b in batches && b.batchId != batches[bi].batchId
  {
    forall b | b in batches && b.batchId != batches[bi].batchId ensures b in RemoveAt(batches, bi) {
      var i :| 0 <= i < |batches| && batches[i] == b;
      assert RemoveAt(batches, bi)[if i < bi then i else i - 1] == b;
    }
    forall b | b in RemoveAt(batches, bi) ensures b in batches && b.batchId != batches[bi].batchId {
      var k :| 0 <= k < |RemoveAt(batches, bi)| && RemoveAt(batches, bi)[k] == b;
      assert b == batches[if k < bi then k else k + 1];
    }
  }

  /** Revoking an account removes its batches and their receipts, keeps all
      others in order, drops its announcements and clears its cursor. */
  lemma RevokeIs(s: Snapshot, network: string, account: string)
    requires DistinctBatchIds(s.batches)
    ensures var s' := Revoke(s, network, account);
            && s'.batches == Filter(s.batches, (b: Batch) => b.network != network || b.account != account)
            && s'.receipts == Filter(s.receipts, (r: Receipt) => !OfAccount(s, r.batchId, network, account))
            && s'.announced == Filter(s.announced, (id: string) => !HasPrefix(id, network + ":" + account + ":"))
            && s'.lastScope == (if s.lastScope == Some(network + ":" + account) then None else s.lastScope)
            && s'.lastEndpoint == s.lastEndpoint
    ensures forall b :: b in Revoke(s, network, account).batches <==>
                        b in s.batches && (b.network != network || b.account != account)
    ensures forall r :: r in Revoke(s, network, account).receipts <==>
                        r in s.receipts && !OfAccount(s, r.batchId, network, account)
  {
    var ids := ScopeBatchIds(s, network, account);
    forall b | b in s.batches ensures (b.batchId !in ids) == (b.network != network || b.account != account) {
      forall c | c in s.batches && c.batchId == b.batchId ensures c == b {
        var i, j :| 0 <= i < |s.batches| && 0 <= j < |s.batches| && s.batches[i] == b && s.batches[j] == c;
      }
    }
    FilterAgrees(s.batches, (b: Batch) => b.batchId !in ids, (b: Batch) => b.network != network || b.account != account);
    FilterAgrees(s.receipts, (r: Receipt) => r.batchId !in ids,
                 (r: Receipt) => !OfAccount(s, r.batchId, network, account));
    FilterAgrees(s.announced, (id: string) => !(ScopePrefix(network, account) <= id),
                 (id: string) => !HasPrefix(id, network + ":" + account + ":"));
  }

  /** Some stored batch of this id belongs to the account. */
  predicate OfAccount(s: Snapshot, batchId: string, network: string, account: string) {
    exists b :: b in s.batches && b.batchId == batchId && b.network == network && b.account == account
  }

  // ------------------------------------------------------- announcing, reporting

  /** A batch becomes due for its announcement once it is fully accepted, with
      no proof to come, and was announced neither before nor under its id. */
  lemma MarkSentIs(s: Snapshot, batchId: string, at: Date, i: nat)
    requires DistinctBatchIds(s.batches) && i < |s.batches|
    ensures var (s', due) := MarkSent(s, batchId, at);
            && s' == s.(batches := s'.batches) && |s'.batches| == |s.batches|
            && var b := s.batches[i];
               if b.batchId != batchId then s'.batches[i] == b
               else
                 && (due <==> b.nextProof == None && b.sentNotified == None && batchId !in s.announced
                              && |b.items| > 0 && forall j :: 0 <= j < |b.items| ==> b.items[j].status == AcceptedAwaiting)
                 && s'.batches[i] == if due && b.sentPending == None then b.(sentPending := Some(at)) else b
  {
    FoundBatch(s.batches, i);
    assert forall j :: 0 <= j < |s.batches[i].items| ==> s.batches[i].items[j] in s.batches[i].items;
  }

  lemma MarkSentNotFound(s: Snapshot, batchId: string, at: Date)
    requires forall i :: 0 <= i < |s.batches| ==> s.batches[i].batchId != batchId
    ensures MarkSent(s, batchId, at) == (s, false)
  {
  }

  /** An announcement made is remembered by id, and a batch with nothing left
      goes; only a pending one can be acknowledged. */
  lemma AcknowledgeSentIs(s: Snapshot, batchId: string, at: Date, i: nat)
    requires DistinctBatchIds(s.batches) && i < |s.batches| && s.batches[i].batchId == batchId
    ensures var b := s.batches[i];
            match AcknowledgeSent(s, batchId, at)
            case Failure(e) => e == InvalidTransition && b.sentPending == None
            case Success(s') =>
              && b.sentPending != None
              && s' == s.(batches := s'.batches, announced := s'.announced)
              && s'.announced == (if batchId in s.announced then s.announced else s.announced + [batchId])
              && if b.items == [] && b.nextProof == None then s'.batches == s.batches[..i] + s.batches[i + 1..]
                 else s'.batches == s.batches[i := b.(sentPending := None, sentNotified := Some(at))]
  {
    FoundBatch(s.batches, i);
  }

  lemma AcknowledgeSentNotFound(s: Snapshot, batchId: string, at: Date)
    ensures AcknowledgeSent(s, batchId, at) == Failure(BatchNotFound)
            <==> forall i :: 0 <= i < |s.batches| ==> s.batches[i].batchId != batchId
  {
  }

  /** The txids listed as attempted are those of the run's items that were
      counted, are being submitted, or were accepted or rejected. */
  lemma ListAttemptedIs(s: Snapshot, network: string, account: string, runId: string, txid: string)
    ensures txid in ListAttempted(s.batches, network, account, runId) <==>
              exists b, it :: b in s.batches && b.network == network && b.account == account && b.runId == runId
                              && it in b.items && it.txid == txid
                              && (it.attemptCount > 0 || it.status == Submitting || it.status == AcceptedAwaiting
                                  || it.status == RejectedAwaiting)
  {
    if txid in ListAttempted(s.batches, network, account, runId) {
      var b, it :| b in s.batches && OfRun(b, network, account, runId) && it in b.items && Evidence(it) && it.txid == txid;
    }
    forall b, it | b in s.batches && b.network == network && b.account == account && b.runId == runId
                   && it in b.items && it.txid == txid
                   && (it.attemptCount > 0 || it.status == Submitting || it.status == AcceptedAwaiting
                       || it.status == RejectedAwaiting)
      ensures txid in ListAttempted(s.batches, network, account, runId)
    {
      assert OfRun(b, network, account, runId) && Evidence(it);
    }
  }

  /** A height at which something is to be done at the endpoint. */
  ghost predicate ActsAt(s: Snapshot, endpoint: string, height: UInt64) {
    exists b :: b in s.batches && b.url == endpoint
                && ((exists it :: it in b.items && it.status == Armed && it.scheduled == height)
                    || (b.armedAt != None && b.nextProof == Some(height) && b.proofPending == None
                        && b.proofNotified == None && (b.noticed == None || b.noticePending != None)))
  }

  /** The next height to wake up for is the least of these, if there is one. */
  lemma NextActionIsLeast(s: Snapshot, endpoint: string)
    ensures match NextActionHeight(s, endpoint)
            case None => forall h :: !ActsAt(s, endpoint, h)
            case Some(h) => ActsAt(s, endpoint, h) && forall g :: ActsAt(s, endpoint, g) ==> h <= g
  {
    var heights := ActionHeights(s.batches, endpoint);
    MinIsLeast(heights);
    forall h ensures h in heights <==> ActsAt(s, endpoint, h) {
      ActionHeightsAre(s.batches, endpoint, h);
    }
  }

  lemma {:induction false} MinIsLeast(heights: seq<UInt64>)
    ensures match MinOf(heights)
            case None => heights == []
            case Some(h) => h in heights && forall g :: g in heights ==> h <= g
  {
    if heights != [] {
      MinIsLeast(heights[1..]);
      assert forall g :: g in heights <==> g == heights[0] || g in heights[1..];
    }
  }

  ghost predicate BatchActsAt(b: Batch, endpoint: string, h: UInt64) {
    b.url == endpoint
    && ((exists it :: it in b.items && it.status == Armed && it.scheduled == h)
        || (b.armedAt != None && b.nextProof == Some(h) && b.proofPending == None
            && b.proofNotified == None && (b.noticed == None || b.noticePending != None)))
  }

  lemma {:induction false} ArmedHeightsAre(items: seq<Item>, h: UInt64)
    ensures h in ArmedHeights(items) <==> exists it :: it in items && it.status == Armed && it.scheduled == h
  {
    if items != [] {
      ArmedHeightsAre(items[1..], h);
      assert forall it :: it in items <==> it == items[0] || it in items[1..];
    }
  }

  lemma FirstActionHeights(batches: seq<Batch>, endpoint: string, h: UInt64)
    requires batches != []
    ensures h in ActionHeights(batches, endpoint)
            <==> BatchActsAt(batches[0], endpoint, h) || h in ActionHeights(batches[1..], endpoint)
  {
    ArmedHeightsAre(batches[0].items, h);
  }

  lemma {:induction false} ActionHeightsAre(batches: seq<Batch>, endpoint: string, h: UInt64)
    ensures h in ActionHeights(batches, endpoint) <==> exists b :: b in batches && BatchActsAt(b, endpoint, h)
  {
    if batches != [] {
      ActionHeightsAre(batches[1..], endpoint, h);
      FirstActionHeights(batches, endpoint, h);
      assert forall b :: b in batches <==> b == batches[0] || b in batches[1..];
    }
  }
}
