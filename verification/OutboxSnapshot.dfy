/** The mutable snapshot: its methods change the fields in place, step by step,
    and are verified against the transition functions. A method that throws in
    the source returns the error here; what it leaves in the fields is then
    unspecified, because the store discards it. */
module OutboxSnapshot {
  import opened Base
  import opened OutboxTypes
  import opened OutboxTransitions

  /** What is announced once a proof is ready. */
  datatype ProofReady = ProofReady(batchId: string, observedHeight: UInt64)

  predicate LeastProof(batches: seq<Batch>, b: Batch, height: UInt64, endpoint: string) {
    && b in batches && ProofCandidate(b, height, endpoint)
    && forall c :: c in batches && ProofCandidate(c, height, endpoint) ==> !EarlierProof(c, b)
  }

  class SnapshotObject {
    var batches: seq<Batch>
    var receipts: seq<Receipt>
    var lastScope: Option<string>
    var lastEndpoint: Option<string>
    var announced: seq<string>

    function Value(): Snapshot
      reads this
    {
      Snapshot(batches, receipts, lastScope, lastEndpoint, announced)
    }

    constructor (s: Snapshot)
      ensures Value() == s
    {
      batches, receipts, lastScope, lastEndpoint, announced :=
        s.batches, s.receipts, s.lastScope, s.lastEndpoint, s.announced;
    }

    /** The method did what the transition function says, or failed with its error. */
    ghost predicate Performed(spec: Result<Snapshot, Error>, r: Result<(), Error>)
      reads this
    {
      match spec
      case Success(s') => r.Success? && Value() == s'
      case Failure(e) => r == Failure(e)
    }

    method StageBatch(b: Batch, hash: Bytes -> string) returns (r: Result<(), Error>)
      modifies this
      ensures Performed(Stage(old(Value()), b, hash), r)
    {
      if !Stageable(b, hash) { return Failure(InvalidBatch); }
      var at := BatchIndex(batches, b.batchId);
      if at.None? {
        batches := batches + [b];
        return Success(());
      }
      r := RestageBatch(at.value, b);
    }

    /** Merges a batch staged again into the stored one. */
    method RestageBatch(bi: nat, b: Batch) returns (r: Result<(), Error>)
      requires bi < |batches|
      modifies this`batches
      ensures match Restaged(old(batches)[bi], b)
              case Success(merged) => r.Success? && batches == old(batches)[bi := merged]
              case Failure(e) => r == Failure(e)
    {
      hide NewItems;
      var e := batches[bi];
      if e.network != b.network || e.account != b.account || e.runId != b.runId { return Failure(ConflictingBatch); }
      if e.url != b.url {
        if HasSubmitting(e.items) { return Failure(ConflictingBatch); }
        batches := batches[bi := batches[bi].(url := b.url)];
      }
      if e.mean != b.mean || e.max != b.max {
        if HasSubmitting(e.items) { return Failure(ConflictingBatch); }
        batches := batches[bi := batches[bi].(mean := b.mean, max := b.max)];
      }
      ghost var moved := e.(url := b.url, mean := b.mean, max := b.max);
      assert batches == old(batches)[bi := moved];
      var added := MergeItems(bi, b.items);
      if added.Failure? { return Failure(added.error); }
      ghost var grown := WithNewItems(moved, b.items);
      assert batches == old(batches)[bi := grown] by { UpdatedTwice(old(batches), bi, moved, grown); }
      ResetMarkers(bi, b.nextProof, added.value);
      UpdatedTwice(old(batches), bi, grown, Rewatched(grown, b.nextProof, added.value));
      return Success(());
    }

    /** Adopts the proof height of a staged batch and forgets the announcements
        that no longer describe batch `bi`. */
    method ResetMarkers(bi: nat, nextProof: Option<UInt64>, addedItem: bool)
      requires bi < |batches|
      modifies this`batches
      ensures batches == old(batches)[bi := Rewatched(old(batches)[bi], nextProof, addedItem)]
    {
      var b := batches[bi];
      var proofMoved := b.nextProof != nextProof;
      if proofMoved {
        b := b.(nextProof := nextProof, proofPending := None, proofNotified := None, noticePending := None, noticed := None);
      }
      if addedItem || proofMoved {
        b := b.(sentPending := None, sentNotified := None);
      }
      batches := batches[bi := b];
    }

    /** Appends the incoming items that batch `bi` does not hold yet, unless one
        contradicts an item it held before. */
    method MergeItems(bi: nat, incoming: seq<Item>) returns (r: Result<bool, Error>)
      requires bi < |batches|
      modifies this`batches
      ensures r == (if exists it :: it in incoming && !Compatible(old(batches)[bi].items, it) then Failure(ConflictingBatch)
                    else Success(NewItems(old(batches)[bi].items, incoming) != []))
      ensures r.Success? ==> batches == old(batches)[bi := WithNewItems(old(batches)[bi], incoming)]
    {
      hide ItemIndex;
      ghost var e := batches[bi];
      var existing := batches[bi].items;
      assert e.items + [] == e.items;
      var addedItem := false;
      for n := 0 to |incoming|
        invariant |batches| == |old(batches)|
        invariant batches == old(batches)[bi := WithNewItems(e, incoming[..n])]
        invariant addedItem <==> NewItems(existing, incoming[..n]) != []
        invariant forall j :: 0 <= j < n ==> Compatible(existing, incoming[j])
      {
        var item := incoming[n];
        assert item in incoming;
        ghost var now := WithNewItems(e, incoming[..n]);
        var added := MergeItem(bi, existing, item);
        if added.Failure? { return Failure(added.error); }
        NewItemsSnoc(e, incoming, n);
        UpdatedTwice(old(batches), bi, now, WithNewItems(e, incoming[..n + 1]));
        addedItem := addedItem || added.value;
      }
      assert incoming[..|incoming|] == incoming;
      return Success(addedItem);
    }

    method MergeItem(bi: nat, existing: seq<Item>, item: Item) returns (r: Result<bool, Error>)
      requires bi < |batches|
      modifies this`batches
      ensures r == (if !Compatible(existing, item) then Failure(ConflictingBatch)
                    else Success(ItemIndex(existing, item.itemId).None?))
      ensures r.Success? ==> batches == old(batches)[bi := old(batches)[bi].(items :=
                               old(batches)[bi].items + if r.value then [item] else [])]
    {
      var at := ItemIndex(existing, item.itemId);
      if at.Some? {
        if !SameTransaction(existing[at.value], item) { return Failure(ConflictingBatch); }
        assert batches[bi].items + [] == batches[bi].items;
        return Success(false);
      }
      if exists it :: it in existing && (it.txid == item.txid || it.partIndex == item.partIndex) {
        return Failure(ConflictingBatch);
      }
      batches := batches[bi := batches[bi].(items := batches[bi].items + [item])];
      return Success(true);
    }

    method ArmBatch(batchId: string, digests: map<string, string>, date: Date) returns (r: Result<(), Error>)
      modifies this
      ensures Performed(OutboxTransitions.ArmBatch(old(Value()), batchId, digests, date), r)
    {
      hide DigestsMatch, FirstIndex;
      var at := BatchIndex(batches, batchId);
      if at.None? { return Failure(BatchNotFound); }
      var bi, b := at.value, batches[at.value];
      if !((digests != map[] || b.nextProof.Some?) && DigestsMatch(b.items, digests)) { return Failure(InvalidArmRequest); }
      var armed := if b.armedAt.None? then Some(date) else b.armedAt;
      batches := batches[bi := b.(armedAt := armed)];
      for ii := 0 to |b.items|
        invariant |batches| == |old(batches)|
        invariant batches == old(batches)[bi := b.(armedAt := armed, items := batches[bi].items)]
        invariant |batches[bi].items| == |b.items|
        invariant forall j :: 0 <= j < |b.items| ==>
                    batches[bi].items[j] == if j < ii then ArmItem(b.items[j], digests) else b.items[j]
        invariant receipts == old(receipts) && lastScope == old(lastScope) && lastEndpoint == old(lastEndpoint)
                  && announced == old(announced)
      {
        if batches[bi].items[ii].itemId in digests && batches[bi].items[ii].status.Staged? {
          batches := batches[bi := WithItem(batches[bi], ii, batches[bi].items[ii].(status := Armed))];
        }
      }
      assert batches[bi].items == MapItems(b.items, (it: Item) => ArmItem(it, digests));
      return Success(());
    }

    method RecoverBatch(batchId: string, network: string, account: string, runId: string, expected: set<string>,
                        url: string, date: Date) returns (r: Result<bool, Error>)
      modifies this
      ensures match OutboxTransitions.RecoverBatch(old(Value()), batchId, network, account, runId, expected, url, date)
              case Success((s', found)) => r == Success(found) && Value() == s'
              case Failure(e) => r == Failure(e)
    {
      hide FirstIndex, RecoverItem, Lowercased;
      if expected == {} || url == "" { return Failure(InvalidArmRequest); }
      var at := BatchIndex(batches, batchId);
      if at.None? { return Success(false); }
      var known := set t | t in expected :: Lowercased(t);
      var bi, b := at.value, batches[at.value];
      if b.network != network || b.account != account || b.runId != runId || b.items == []
         || exists it :: it in b.items && it.txid !in known
      {
        return Failure(ConflictingBatch);
      }
      RecoverItems(bi, date);
      batches := batches[bi := batches[bi].(url := url)];
      if exists it :: it in batches[bi].items && it.status.Armed? {
        var armedAt := if batches[bi].armedAt.Some? then batches[bi].armedAt else Some(date);
        batches := batches[bi := batches[bi].(armedAt := armedAt)];
      }
      return Success(true);
    }

    method RecoverItems(bi: nat, date: Date)
      requires bi < |batches|
      modifies this`batches
      ensures batches == old(batches)[bi := old(batches)[bi].(items :=
                           MapItems(old(batches)[bi].items, (it: Item) => RecoverItem(it, date)))]
    {
      ghost var items := batches[bi].items;
      ghost var f := (it: Item) => RecoverItem(it, date);
      MappedEnds(items, f);
      for ii := 0 to |batches[bi].items|
        invariant |batches| == |old(batches)|
        invariant batches == old(batches)[bi := old(batches)[bi].(items := MappedUpTo(items, f, ii))]
      {
        MappedStep(items, f, ii);
        var item := batches[bi].items[ii];
        if item.status.Submitting? {
          item := item.(status := Armed, attemptCount := item.attemptCount + 1);
          item := item.(nextAttemptAt := Some(date + RetryDelay(item.attemptCount)), lastError := Some(UNKNOWN_OUTCOME),
                        attemptId := None, attemptStartedAt := None);
        } else if item.status.Staged? {
          item := item.(status := Armed);
        }
        batches := batches[bi := WithItem(batches[bi], ii, item)];
      }
    }

    method RecoverInterruptedSubmissions(date: Date)
      modifies this
      ensures Value() == RecoverInterrupted(old(Value()), date)
    {
      var f := (b: Batch) => b.(items := MapItems(b.items, (it: Item) => Interrupted(it, date)));
      for bi := 0 to |batches|
        invariant |batches| == |old(batches)|
        invariant forall a :: 0 <= a < |batches| ==> batches[a] == if a < bi then f(old(batches)[a]) else old(batches)[a]
        invariant receipts == old(receipts) && lastScope == old(lastScope) && lastEndpoint == old(lastEndpoint)
                  && announced == old(announced)
      {
        var b := batches[bi];
        for ii := 0 to |b.items|
          invariant |batches| == |old(batches)|
          invariant forall a :: 0 <= a < |batches| && a != bi ==>
                      batches[a] == if a < bi then f(old(batches)[a]) else old(batches)[a]
          invariant batches[bi] == b.(items := batches[bi].items) && |batches[bi].items| == |b.items|
          invariant forall j :: 0 <= j < |b.items| ==>
                      batches[bi].items[j] == if j < ii then Interrupted(b.items[j], date) else b.items[j]
          invariant receipts == old(receipts) && lastScope == old(lastScope) && lastEndpoint == old(lastEndpoint)
                    && announced == old(announced)
        {
          if batches[bi].items[ii].status.Submitting? {
            var item := batches[bi].items[ii];
            item := item.(status := Armed, attemptCount := item.attemptCount + 1);
            item := item.(nextAttemptAt := Some(date + RetryDelay(item.attemptCount)),
                          lastError := Some(UNKNOWN_OUTCOME), attemptId := None, attemptStartedAt := None);
            batches := batches[bi := WithItem(batches[bi], ii, item)];
          }
        }
        assert batches[bi].items == MapItems(b.items, (it: Item) => Interrupted(it, date));
      }
      assert batches == MapBatches(old(batches), f);
    }

    method NextEndpointForInspection() returns (endpoint: Option<string>)
      modifies this
      ensures (Value(), endpoint) == NextEndpoint(old(Value()))
    {
      var watched := Filter(batches, (b: Batch) => NeedsInspection(b));
      var endpoints := SortedSet(Urls(watched));
      if endpoints == [] { return None; }
      var selected := NextInRing(endpoints, lastEndpoint);
      lastEndpoint := Some(selected);
      return Some(selected);
    }

    /** The shared loop of `expireItems` and `markDueItemsNeedingResign`. */
    method Sweep(k: OutboxTransitions.Sweep, height: UInt64, endpoint: string, date: Date)
      modifies this`batches, this`receipts
      ensures Value() == SweepAll(old(Value()), k, height, endpoint, date)
    {
      hide ItemReceipts;
      ghost var before := batches;
      ghost var log: seq<Receipt> := [];
      for bi := 0 to |batches|
        invariant SweptBefore(k, height, endpoint, before, batches, bi)
        invariant log == SweepReceipts(k, height, endpoint, before[..bi], date) && receipts == old(receipts) + log
      {
        SweepReceiptsSnoc(k, height, endpoint, before, bi, date);
        ghost var more, now := [], batches;
        if batches[bi].url == endpoint {
          more := ItemReceipts(k, height, before[bi], before[bi].items, date);
          SweepOne(k, height, endpoint, date, bi);
        }
        SweptFurther(k, height, endpoint, before, now, batches, bi);
        Appended(old(receipts), log, more);
        log := log + more;
      }
      assert before[..|before|] == before;
      SweptThroughout(k, height, endpoint, before, batches);
    }

    method SweepOne(k: OutboxTransitions.Sweep, height: UInt64, endpoint: string, date: Date, bi: nat)
      requires bi < |batches| && batches[bi].url == endpoint
      modifies this`batches, this`receipts
      ensures batches == old(batches)[bi := SweptBatch(k, height, endpoint, old(batches)[bi])]
      ensures receipts == old(receipts) + ItemReceipts(k, height, old(batches)[bi], old(batches)[bi].items, date)
    {
      ghost var b := batches[bi];
      var settledAny := SweepItems(k, height, date, bi);
      ghost var done := SweptItems(k, height, b);
      NoReceiptsIffNoneSwept(k, height, b, b.items, date);
      SweptBatchCases(k, height, endpoint, b);
      if settledAny {
        batches := batches[bi := batches[bi].(armedAt := None, nextProof := None)];
        UpdatedTwice(old(batches), bi, done, batches[bi]);
      }
    }

    method SweepItems(k: OutboxTransitions.Sweep, height: UInt64, date: Date, bi: nat) returns (settledAny: bool)
      requires bi < |batches|
      modifies this`batches, this`receipts
      ensures batches == old(batches)[bi := SweptItems(k, height, old(batches)[bi])]
      ensures receipts == old(receipts) + ItemReceipts(k, height, old(batches)[bi], old(batches)[bi].items, date)
      ensures settledAny <==> ItemReceipts(k, height, old(batches)[bi], old(batches)[bi].items, date) != []
    {
      ghost var b := batches[bi];
      ghost var items, log := b.items, [];
      settledAny := false;
      SweptFromNothing(k, height, b, date);
      for ii := 0 to |batches[bi].items|
        invariant |items| == |b.items| && SweptSoFar(k, height, b, date, ii, items, log)
        invariant batches == old(batches)[bi := b.(items := items)] && receipts == old(receipts) + log
        invariant settledAny <==> log != []
      {
        SweptOneMore(k, height, b, date, ii, items, log);
        var swept := SweepItem(k, height, date, bi, ii);
        ghost var items' := items[ii := SweptItem(k, height, b.items[ii])];
        ghost var more := if swept then [SweepReceipt(k, height, b, b.items[ii], date)] else [];
        UpdatedTwice(old(batches), bi, b.(items := items), b.(items := items'));
        Appended(old(receipts), log, more);
        items, log := items', log + more;
        settledAny := settledAny || swept;
      }
      SweptToTheEnd(k, height, b, date, items, log);
    }

    method SweepItem(k: OutboxTransitions.Sweep, height: UInt64, date: Date, bi: nat, ii: nat) returns (swept: bool)
      requires bi < |batches| && ii < |batches[bi].items|
      modifies this`batches, this`receipts
      ensures swept <==> Swept(k, height, old(batches)[bi].items[ii])
      ensures batches == old(batches)[bi := WithItem(old(batches)[bi], ii, SweptItem(k, height, old(batches)[bi].items[ii]))]
      ensures receipts == old(receipts) + if swept then [SweepReceipt(k, height, old(batches)[bi],
                                                                      old(batches)[bi].items[ii], date)] else []
    {
      if !Swept(k, height, batches[bi].items[ii]) {
        assert batches[bi].items[ii := batches[bi].items[ii]] == batches[bi].items;
        return false;
      }
      batches := batches[bi := WithItem(batches[bi], ii, batches[bi].items[ii].(status := StatusOf(SweepOutcome(k))))];
      receipts := receipts + [MakeReceipt(batches[bi], batches[bi].items[ii], SweepOutcome(k), height, None,
                                          SweepMessage(k), [], date)];
      return true;
    }

    method ExpireItems(height: UInt64, endpoint: string, date: Date)
      modifies this
      ensures Value() == OutboxTransitions.ExpireItems(old(Value()), height, endpoint, date)
    {
      Sweep(Expiring, height, endpoint, date);
    }

    method MarkDueItemsNeedingResign(height: UInt64, endpoint: string, date: Date)
      modifies this
      ensures Value() == MarkNeedingResign(old(Value()), height, endpoint, date)
    {
      var canonical := CanonicalExpiry(height);
      if canonical.Some? { Sweep(Resigning(canonical.value), height, endpoint, date); }
    }

    /** Marks the candidate that comes first by proof height and batch id, and
        returns what the caller announces. */
    method MarkProofReadyIfNeeded(height: UInt64, endpoint: string, date: Date) returns (ready: Option<ProofReady>)
      modifies this
      ensures Value() == MarkProofReady(old(Value()), height, endpoint, date)
      ensures ready.None? <==> forall b :: b in old(batches) ==> !ProofCandidate(b, height, endpoint)
      ensures ready.Some? ==> ready.value.observedHeight == height
                              && exists b: Batch :: b.batchId == ready.value.batchId
                                                    && LeastProof(old(batches), b, height, endpoint)
    {
      var c := FirstProofCandidate(batches, height, endpoint);
      if c.None? { return None; }
      forall b | b in batches && ProofCandidate(b, height, endpoint) ensures !EarlierProof(b, c.value) {
        FirstProofIsLeast(batches, height, endpoint, b);
      }
      assert LeastProof(batches, c.value, height, endpoint);
      var bi := BatchIndex(batches, c.value.batchId);
      if bi.None? { return None; }
      if batches[bi.value].proofPending.None? {
        batches := batches[bi.value := batches[bi.value].(proofPending := Some(date))];
      }
      return Some(ProofReady(c.value.batchId, height));
    }

    method SelectDueItem(endpoint: Option<string>, height: UInt64, date: Date) returns (sel: Option<Selection>)
      modifies this
      ensures (Value(), sel) == SelectDue(old(Value()), endpoint, height, date)
    {
      var candidates := Filter(batches, (b: Batch) => Candidate(b, endpoint, height, date));
      var scopes := SortedSet(Scopes(candidates));
      if scopes == [] { return None; }
      var scope := NextInRing(scopes, lastScope);
      var bi := FirstIndex(candidates, (b: Batch) => ScopeKey(b) == scope);
      if bi.None? { return None; }
      var b := candidates[bi.value];
      var item := FirstDue(b.items, height, date);
      if item.None? { return None; }
      lastScope := Some(scope);
      return Some(Selection(b.batchId, b.account, ScopeKey(b), b.url, item.value));
    }

    /** Scans the batches in order for the first that holds the item. */
    method ItemLocation(itemId: string) returns (r: Option<(nat, nat)>)
      ensures r == Location(batches, itemId)
    {
      hide ItemIndex;
      for bi := 0 to |batches|
        invariant forall a :: 0 <= a < bi ==> ItemIndex(batches[a].items, itemId).None?
      {
        var ii := ItemIndex(batches[bi].items, itemId);
        if ii.Some? {
          assert FirstIndex(batches, (b: Batch) => ItemIndex(b.items, itemId).Some?) == Some(bi);
          return Some((bi, ii.value));
        }
      }
      return None;
    }

    method BeginItem(itemId: string, attemptId: string, date: Date) returns (r: Result<(), Error>)
      modifies this
      ensures Performed(BeginSubmission(old(Value()), itemId, attemptId, date), r)
    {
      var at := ItemLocation(itemId);
      if at.None? { return Failure(ItemNotFound); }
      var bi, ii := at.value.0, at.value.1;
      var item := batches[bi].items[ii];
      if !item.status.Armed? { return Failure(InvalidTransition); }
      item := item.(status := Submitting);
      item := item.(attemptId := Some(attemptId), attemptStartedAt := Some(date));
      batches := batches[bi := WithItem(batches[bi], ii, item)];
      return Success(());
    }

    method ValidateReschedulingAfterAcceptance(itemId: string, height: UInt64) returns (r: Result<(), Error>)
      ensures r == ValidateRescheduling(Value(), itemId, height)
    {
      var at := ItemLocation(itemId);
      if at.None? { return Failure(ItemNotFound); }
      var expiries := PeerExpiries(batches[at.value.0].items, itemId, height);
      V.PeerExpiriesOfPeers(batches[at.value.0].items, itemId, height);
      var fits := OneBlockEach(expiries, height);
      if !fits { return Failure(InvalidSchedule); }
      return Success(());
    }

    /** Walks the expiries one block at a time, stopping when a block reaches
        its expiry or the height overflows. */
    method OneBlockEach(expiries: seq<int>, height: UInt64) returns (fits: bool)
      requires forall j :: 0 <= j < |expiries| ==> expiries[j] < UINT64_LIMIT
      ensures fits <==> SpacingFits(expiries, height)
    {
      var nextHeight := height;
      for n := 0 to |expiries|
        invariant nextHeight == height + n
        invariant forall j :: 0 <= j < n ==> height + j + 1 < expiries[j]
      {
        var candidate := nextHeight + 1;
        if candidate >= UINT64_LIMIT || candidate >= expiries[n] {
          assert !(height + n + 1 < expiries[n]);
          return false;
        }
        nextHeight := candidate;
      }
      return true;
    }

    method RecordUncertainItem(itemId: string, error: string, date: Date) returns (r: Result<(), Error>)
      modifies this
      ensures Performed(RecordUncertain(old(Value()), itemId, error, date), r)
    {
      var at := ItemLocation(itemId);
      if at.None? { return Failure(ItemNotFound); }
      var bi, ii := at.value.0, at.value.1;
      var item := batches[bi].items[ii];
      if !item.status.Submitting? { return Failure(InvalidTransition); }
      item := item.(status := Armed, attemptCount := item.attemptCount + 1);
      item := item.(nextAttemptAt := Some(date + RetryDelay(item.attemptCount)), lastError := Some(error),
                    attemptId := None, attemptStartedAt := None);
      batches := batches[bi := WithItem(batches[bi], ii, item)];
      return Success(());
    }

    method RecordCancelledBeforeSubmission(itemId: string, error: string) returns (r: Result<(), Error>)
      modifies this
      ensures Performed(RecordCancelled(old(Value()), itemId, error), r)
    {
      var at := ItemLocation(itemId);
      if at.None? { return Failure(ItemNotFound); }
      var bi, ii := at.value.0, at.value.1;
      var item := batches[bi].items[ii];
      if !item.status.Submitting? { return Failure(InvalidTransition); }
      item := item.(status := Armed, nextAttemptAt := None, lastError := Some(error), attemptId := None,
                    attemptStartedAt := None);
      batches := batches[bi := WithItem(batches[bi], ii, item)];
      return Success(());
    }

    /** Respaces the overdue peers of batch `bi` in place. */
    method RescheduleOverdueItems(bi: nat, itemId: string, height: UInt64, rank: nat -> int, draws: nat -> int)
      returns (r: Result<seq<ScheduleUpdate>, Error>)
      requires bi < |batches|
      modifies this`batches
      ensures match Reschedule(old(batches)[bi], itemId, height, rank, draws)
              case Success((items', updates)) =>
                r == Success(updates) && batches == old(batches)[bi := old(batches)[bi].(items := items')]
              case Failure(e) => r == Failure(e)
    {
      var b := batches[bi];
      var mean, max := b.mean, b.max;
      if !(mean > 0 && max > 0 && mean <= max) { return Failure(InvalidSchedule); }
      var overdue := Overdue(b.items, itemId, height);
      overdue := SortByKey(overdue, rank);
      overdue := SortByKey(overdue, ExpiryKey(b.items));
      assert overdue == RespacingOrder(b.items, itemId, height, rank);
      assert forall j :: 0 <= j < |overdue| ==> overdue[j] in overdue;
      r := SpaceOut(bi, overdue, height, max, draws);
    }

    method SpaceOut(bi: nat, overdue: seq<nat>, height: UInt64, max: UInt64, draws: nat -> int)
      returns (r: Result<seq<ScheduleUpdate>, Error>)
      requires bi < |batches| && max > 0
      requires forall j :: 0 <= j < |overdue| ==> overdue[j] < |batches[bi].items|
      modifies this`batches
      ensures match Respace(old(batches)[bi].items, overdue, height, max, 0, 0, draws)
              case Success((items', updates)) =>
                r == Success(updates) && batches == old(batches)[bi := old(batches)[bi].(items := items')]
              case Failure(e) => r == Failure(e)
    {
      hide SaturatingAdd;
      ghost var b := batches[bi];
      ghost var items := b.items;
      var elapsed: UInt64 := 0;
      var updates := [];
      assert overdue[0..] == overdue;
      PrefixedNothing(Respace(b.items, overdue, height, max, 0, 0, draws));
      for offset := 0 to |overdue|
        invariant |items| == |b.items|
        invariant batches == old(batches)[bi := b.(items := items)]
        invariant Respace(b.items, overdue, height, max, 0, 0, draws)
                  == Prefixed(updates, Respace(items, overdue[offset..], height, max, elapsed, offset, draws))
      {
        assert overdue[offset..][0] == overdue[offset] && overdue[offset..][1..] == overdue[offset + 1..];
        RespaceUnfolds(items, overdue[offset..], height, max, elapsed, offset, draws);
        var ii := overdue[offset];
        var update := PlaceItem(bi, ii, |overdue| - offset - 1, height, max, elapsed, draws(offset));
        if update.None? { return Failure(InvalidSchedule); }
        ghost var placed := items[ii := ReplacingSchedule(items[ii], update.value.1.scheduled, height)];
        UpdatedTwice(old(batches), bi, b.(items := items), b.(items := placed));
        items := placed;
        PrefixedTwice(updates, [update.value.1],
                      Respace(items, overdue[offset + 1..], height, max, update.value.0, offset + 1, draws));
        elapsed := update.value.0;
        updates := updates + [update.value.1];
      }
      assert overdue[|overdue|..] == [];
      assert updates + [] == updates;
      return Success(updates);
    }

    /** Moves one overdue item past `elapsed`, leaving a block for each of the
        `remaining` later ones. */
    method PlaceItem(bi: nat, ii: nat, remaining: nat, height: UInt64, max: UInt64, elapsed: UInt64, draw: int)
      returns (r: Option<(UInt64, ScheduleUpdate)>)
      requires bi < |batches| && ii < |batches[bi].items| && max > 0
      modifies this`batches
      ensures r == Placed(old(batches)[bi].items[ii], remaining, height, max, elapsed, draw)
      ensures r.Some? ==> batches == old(batches)[bi := WithItem(old(batches)[bi], ii,
                            ReplacingSchedule(old(batches)[bi].items[ii], r.value.1.scheduled, height))]
    {
      var item := batches[bi].items[ii];
      if !(item.expiry > remaining + 1) { return None; }
      var latest := item.expiry - remaining - 1;
      var current := SaturatingAdd(height, elapsed);
      if !(latest > current) { return None; }
      var boundedMax := Min(max, latest - current);
      var elapsed' := SaturatingAdd(elapsed, SampleDelay(draw, boundedMax));
      var scheduled := SaturatingAdd(height, elapsed');
      batches := batches[bi := WithItem(batches[bi], ii, ReplacingSchedule(item, scheduled, height))];
      return Some((elapsed', ScheduleUpdate(item.itemId, scheduled, height)));
    }

    method RecordAcceptedItem(itemId: string, equivalent: bool, height: UInt64, code: int, message: string, date: Date,
                              rank: nat -> int, draws: nat -> int) returns (r: Result<(), Error>)
      modifies this
      ensures Performed(RecordAccepted(old(Value()), itemId, equivalent, height, code, message, date, rank, draws), r)
    {
      hide Location;
      var at := ItemLocation(itemId);
      if at.None? { return Failure(ItemNotFound); }
      var bi, ii := at.value.0, at.value.1;
      var item := batches[bi].items[ii];
      if !item.status.Submitting? { return Failure(InvalidTransition); }
      ghost var was := item;
      item := item.(status := AcceptedAwaiting);
      item := item.(attemptId := None, attemptStartedAt := None, nextAttemptAt := None);
      batches := batches[bi := WithItem(batches[bi], ii, item)];
      ghost var settled := WithItem(old(batches)[bi], ii, Settled(was, AcceptedAwaiting));
      assert batches == old(batches)[bi := settled];
      var updates := RescheduleOverdueItems(bi, itemId, height, rank, draws);
      if updates.Failure? { return Failure(updates.error); }
      var b := batches[bi];
      R.RespacingKeepsItems(settled, itemId, height, rank, draws, b.items, updates.value);
      item := b.items[ii];
      assert item.itemId == was.itemId && item.txid == was.txid;
      UpdatedTwice(old(batches), bi, settled, b);
      receipts := receipts + [MakeReceipt(b, item, if equivalent then AcceptedEquivalent else Accepted, height, Some(code),
                                          Some(message), updates.value, date)];
      return Success(());
    }

    method RecordRejectedItem(itemId: string, height: UInt64, code: int, message: string, date: Date)
      returns (r: Result<(), Error>)
      modifies this
      ensures Performed(RecordRejected(old(Value()), itemId, height, code, message, date), r)
    {
      var at := ItemLocation(itemId);
      if at.None? { return Failure(ItemNotFound); }
      var bi, ii := at.value.0, at.value.1;
      var item := batches[bi].items[ii];
      if !item.status.Submitting? { return Failure(InvalidTransition); }
      item := item.(status := RejectedAwaiting);
      item := item.(attemptId := None, attemptStartedAt := None, nextAttemptAt := None);
      var b := WithItem(batches[bi], ii, item);
      b := b.(armedAt := None, nextProof := None);
      batches := batches[bi := b];
      receipts := receipts + [MakeReceipt(b, b.items[ii], Rejected, height, Some(code), Some(message), [], date)];
      return Success(());
    }

    method AcknowledgeReceipts(ids: set<string>)
      modifies this
      ensures Value() == Acknowledge(old(Value()), ids)
    {
      hide Filter;
      ghost var s := Value();
      var gone := AcknowledgedItemIds(Value(), ids);
      var closed := set r | r in receipts && r.receiptId in ids && Terminal(r.outcome)
                            && (forall q :: q in receipts && q.receiptId !in ids ==> q.batchId != r.batchId) :: r.batchId;
      batches := Filter(batches, (b: Batch) => b.batchId !in closed);
      receipts := Filter(receipts, (r: Receipt) => r.receiptId !in ids);
      FilterAgrees(s.batches, (b: Batch) => b.batchId !in closed,
                   (b: Batch) => !ClosedByAcknowledgement(s, ids, b.batchId));
      ghost var open := batches;
      for bi := 0 to |batches|
        invariant |batches| == |open|
        invariant forall a :: 0 <= a < |batches| ==> batches[a] == if a < bi then WithoutItems(open[a], gone) else open[a]
        invariant receipts == Filter(s.receipts, (r: Receipt) => r.receiptId !in ids)
        invariant lastScope == old(lastScope) && lastEndpoint == old(lastEndpoint) && announced == old(announced)
      {
        batches := batches[bi := batches[bi].(items := Filter(batches[bi].items, (it: Item) => it.itemId !in gone))];
      }
      assert batches == MapBatches(open, (b: Batch) => WithoutItems(b, gone));
      batches := Filter(batches, (b: Batch) => !Emptied(b));
    }

    method DiscardBatch(batchId: string) returns (r: Result<bool, Error>)
      modifies this
      ensures match Discard(old(Value()), batchId)
              case Success((s', found)) => r == Success(found) && Value() == s'
              case Failure(e) => r == Failure(e)
    {
      var bi := BatchIndex(batches, batchId);
      if bi.None? { return Success(false); }
      if exists it :: it in batches[bi.value].items && (it.status.Submitting? || it.attemptCount > 0) {
        return Failure(ConflictingBatch);
      }
      if exists q :: q in receipts && q.batchId == batchId { return Failure(ConflictingBatch); }
      batches := RemoveAt(batches, bi.value);
      return Success(true);
    }

    method RevokeScope(network: string, account: string)
      modifies this
      ensures Value() == Revoke(old(Value()), network, account)
    {
      var ids := ScopeBatchIds(Value(), network, account);
      batches := Filter(batches, (b: Batch) => b.batchId !in ids);
      receipts := Filter(receipts, (r: Receipt) => r.batchId !in ids);
      announced := Filter(announced, (id: string) => !(ScopePrefix(network, account) <= id));
      if lastScope == Some(network + ":" + account) { lastScope := None; }
    }

    method MarkBroadcastCompleteIfNeeded(batchId: string, date: Date) returns (marked: bool)
      modifies this
      ensures (Value(), marked) == MarkSent(old(Value()), batchId, date)
    {
      var bi := BatchIndex(batches, batchId);
      if bi.None? { return false; }
      var b := batches[bi.value];
      if !FullySent(b) || b.sentNotified.Some? || batchId in announced { return false; }
      if b.sentPending.None? { batches := batches[bi.value := b.(sentPending := Some(date))]; }
      assert batches == old(batches)[bi.value := batches[bi.value]];
      return true;
    }

    method AcknowledgeBroadcastComplete(batchId: string, date: Date) returns (r: Result<(), Error>)
      modifies this
      ensures Performed(AcknowledgeSent(old(Value()), batchId, date), r)
    {
      var at := BatchIndex(batches, batchId);
      if at.None? { return Failure(BatchNotFound); }
      var bi := at.value;
      if batches[bi].sentPending.None? { return Failure(InvalidTransition); }
      batches := batches[bi := batches[bi].(sentPending := None, sentNotified := Some(date))];
      if batchId !in announced { announced := announced + [batchId]; }
      if batches[bi].items == [] && batches[bi].nextProof.None? {
        batches := RemoveAt(batches, bi);
        assert batches == RemoveAt(old(batches), bi);
      }
      return Success(());
    }
  }

  import R = OutboxOperations
  import V = OutboxRescheduling

  function WithNewItems(b: Batch, incoming: seq<Item>): Batch {
    b.(items := b.items + NewItems(b.items, incoming))
  }

  function Restaged(e: Batch, b: Batch): Result<Batch, Error> {
    if e.network != b.network || e.account != b.account || e.runId != b.runId then Failure(ConflictingBatch)
    else if (e.url != b.url || e.mean != b.mean || e.max != b.max) && HasSubmitting(e.items) then
      Failure(ConflictingBatch)
    else if exists it :: it in b.items && !Compatible(e.items, it) then Failure(ConflictingBatch)
    else Success(Merged(e, b))
  }

  ghost function SweptItems(k: Sweep, height: UInt64, b: Batch): Batch {
    b.(items := MapItems(b.items, (it: Item) => SweptItem(k, height, it)))
  }

  lemma SweptBatchCases(k: Sweep, height: UInt64, endpoint: string, b: Batch)
    requires b.url == endpoint
    ensures SweptBatch(k, height, endpoint, b)
            == if exists it :: it in b.items && Swept(k, height, it)
               then SweptItems(k, height, b).(armedAt := None, nextProof := None) else SweptItems(k, height, b)
  {
    if !(exists it :: it in b.items && Swept(k, height, it)) {
      assert SweptItems(k, height, b).items == b.items;
    }
  }

  ghost function SweepReceipt(k: Sweep, height: UInt64, b: Batch, it: Item, date: Date): Receipt {
    MakeReceipt(b, it, SweepOutcome(k), height, None, SweepMessage(k), [], date)
  }

  /** The first `n` items of `b` are swept in `items`, with their receipts in `log`. */
  ghost predicate SweptSoFar(k: Sweep, height: UInt64, b: Batch, date: Date, n: nat, items: seq<Item>, log: seq<Receipt>) {
    && n <= |b.items| == |items|
    && (forall j :: 0 <= j < |items| ==> items[j] == if j < n then SweptItem(k, height, b.items[j]) else b.items[j])
    && log == ItemReceipts(k, height, b, b.items[..n], date)
  }

  lemma SweptFromNothing(k: Sweep, height: UInt64, b: Batch, date: Date)
    ensures SweptSoFar(k, height, b, date, 0, b.items, [])
  {
  }

  lemma SweptOneMore(k: Sweep, height: UInt64, b: Batch, date: Date, n: nat, items: seq<Item>, log: seq<Receipt>)
    requires n < |b.items| && SweptSoFar(k, height, b, date, n, items, log)
    ensures items[n] == b.items[n]
    ensures SweptSoFar(k, height, b, date, n + 1, items[n := SweptItem(k, height, b.items[n])],
                       log + if Swept(k, height, b.items[n]) then [SweepReceipt(k, height, b, b.items[n], date)] else [])
  {
    assert b.items[..n + 1][..n] == b.items[..n];
  }

  lemma SweptToTheEnd(k: Sweep, height: UInt64, b: Batch, date: Date, items: seq<Item>, log: seq<Receipt>)
    requires SweptSoFar(k, height, b, date, |b.items|, items, log)
    ensures b.(items := items) == SweptItems(k, height, b)
    ensures log == ItemReceipts(k, height, b, b.items, date)
  {
    assert b.items[..|b.items|] == b.items;
    assert items == SweptItems(k, height, b).items;
  }

  /** The batches before `bi` are swept, those from `bi` on as they were. */
  ghost predicate SweptBefore(k: OutboxTransitions.Sweep, height: UInt64, endpoint: string, before: seq<Batch>,
                              now: seq<Batch>, bi: nat)
  {
    && |now| == |before|
    && (forall a :: 0 <= a < bi < |now| + 1 ==> now[a] == SweptBatch(k, height, endpoint, before[a]))
    && (forall a :: bi <= a < |now| ==> now[a] == before[a])
  }

  lemma SweptFurther(k: OutboxTransitions.Sweep, height: UInt64, endpoint: string, before: seq<Batch>, now: seq<Batch>,
                     now': seq<Batch>, bi: nat)
    requires SweptBefore(k, height, endpoint, before, now, bi) && bi < |now|
    requires now' == now[bi := SweptBatch(k, height, endpoint, before[bi])]
    ensures SweptBefore(k, height, endpoint, before, now', bi + 1)
  {
    hide SweptBatch;
  }

  lemma SweptThroughout(k: OutboxTransitions.Sweep, height: UInt64, endpoint: string, before: seq<Batch>, now: seq<Batch>)
    requires SweptBefore(k, height, endpoint, before, now, |now|)
    ensures now == MapBatches(before, (b: Batch) => SweptBatch(k, height, endpoint, b))
  {
    hide SweptBatch;
  }

  lemma SweepReceiptsSnoc(k: Sweep, height: UInt64, endpoint: string, batches: seq<Batch>, n: nat, date: Date)
    requires n < |batches|
    ensures SweepReceipts(k, height, endpoint, batches[..n + 1], date)
            == SweepReceipts(k, height, endpoint, batches[..n], date)
               + (if batches[n].url == endpoint then ItemReceipts(k, height, batches[n], batches[n].items, date) else [])
  {
    assert batches[..n + 1][..n] == batches[..n];
  }

  lemma NewItemsSnoc(e: Batch, incoming: seq<Item>, n: nat)
    requires n < |incoming|
    ensures var fresh_ := if ItemIndex(e.items, incoming[n].itemId).None? then [incoming[n]] else [];
            WithNewItems(e, incoming[..n + 1]) == e.(items := WithNewItems(e, incoming[..n]).items + fresh_)
            && NewItems(e.items, incoming[..n + 1]) == NewItems(e.items, incoming[..n]) + fresh_
  {
    hide Filter;
    FilterSnoc(incoming[..n], incoming[n], (it: Item) => ItemIndex(e.items, it.itemId).None?);
    assert incoming[..n + 1] == incoming[..n] + [incoming[n]];
    var fresh_ := if ItemIndex(e.items, incoming[n].itemId).None? then [incoming[n]] else [];
    assert e.items + (NewItems(e.items, incoming[..n]) + fresh_) == e.items + NewItems(e.items, incoming[..n]) + fresh_;
  }

  /** The markers of a batch whose stored items or proof height a stage changed. */
  function Rewatched(b: Batch, nextProof: Option<UInt64>, addedItem: bool): Batch {
    var moved := if b.nextProof == nextProof then b
                 else b.(nextProof := nextProof, proofPending := None, proofNotified := None, noticePending := None,
                         noticed := None);
    if addedItem || b.nextProof != nextProof then moved.(sentPending := None, sentNotified := None) else moved
  }

  /** `items` with `f` applied to the first `n`. */
  ghost function MappedUpTo(items: seq<Item>, f: Item -> Item, n: nat): (r: seq<Item>)
    requires n <= |items|
    ensures |r| == |items|
  {
    MapItems(items[..n], f) + items[n..]
  }

  lemma MappedStep(items: seq<Item>, f: Item -> Item, n: nat)
    requires n < |items|
    ensures MappedUpTo(items, f, n)[n] == items[n]
    ensures MappedUpTo(items, f, n + 1) == MappedUpTo(items, f, n)[n := f(items[n])]
    ensures f(items[n]) == items[n] ==> MappedUpTo(items, f, n + 1) == MappedUpTo(items, f, n)
  {
    assert MappedUpTo(items, f, n + 1) == MappedUpTo(items, f, n)[n := f(items[n])];
    assert MappedUpTo(items, f, n)[n := items[n]] == MappedUpTo(items, f, n);
  }

  lemma MappedEnds(items: seq<Item>, f: Item -> Item)
    ensures MappedUpTo(items, f, 0) == items
    ensures MappedUpTo(items, f, |items|) == MapItems(items, f)
  {
  }

  lemma {:induction false} NoReceiptsIffNoneSwept(k: Sweep, height: UInt64, b: Batch, items: seq<Item>, date: Date)
    ensures ItemReceipts(k, height, b, items, date) != [] <==> exists it :: it in items && Swept(k, height, it)
  {
    if items != [] {
      var last := |items| - 1;
      NoReceiptsIffNoneSwept(k, height, b, items[..last], date);
      assert items == items[..last] + [items[last]];
    }
  }

  /** Where one respacing step puts an item, and the elapsed delay after it. */
  function Placed(it: Item, remaining: nat, height: UInt64, max: UInt64, elapsed: UInt64, draw: int)
    : Option<(UInt64, ScheduleUpdate)>
    requires max > 0
  {
    var current := SaturatingAdd(height, elapsed);
    var latest := it.expiry - remaining - 1;
    if it.expiry <= remaining + 1 || latest <= current then None
    else
      var elapsed' := SaturatingAdd(elapsed, SampleDelay(draw, Min(max, latest - current)));
      Some((elapsed', ScheduleUpdate(it.itemId, SaturatingAdd(height, elapsed'), height)))
  }

  lemma RespaceUnfolds(items: seq<Item>, order: seq<nat>, height: UInt64, max: UInt64, elapsed: UInt64, k: nat,
                       draws: nat -> int)
    requires max > 0 && order != []
    requires forall j :: 0 <= j < |order| ==> order[j] < |items|
    ensures var p := Placed(items[order[0]], |order| - 1, height, max, elapsed, draws(k));
            Respace(items, order, height, max, elapsed, k, draws)
            == if p.None? then Failure(InvalidSchedule)
               else Prefixed([p.value.1],
                             Respace(items[order[0] := ReplacingSchedule(items[order[0]], p.value.1.scheduled, height)],
                                     order[1..], height, max, p.value.0, k + 1, draws))
  {
  }

  lemma PrefixedNothing(r: Result<(seq<Item>, seq<ScheduleUpdate>), Error>)
    ensures Prefixed([], r) == r
  {
    if r.Success? {
      assert [] + r.value.1 == r.value.1;
    }
  }

  lemma Appended<T>(a: seq<T>, b: seq<T>, c: seq<T>)
    ensures a + b + c == a + (b + c) && a + [] == a
  {
  }

  lemma UpdatedTwice<T>(xs: seq<T>, i: nat, x: T, y: T)
    requires i < |xs|
    ensures xs[i := x][i] == x && xs[i := x][i := y] == xs[i := y]
  {
  }

  lemma PrefixedTwice(first: seq<ScheduleUpdate>, second: seq<ScheduleUpdate>,
                      r: Result<(seq<Item>, seq<ScheduleUpdate>), Error>)
    ensures Prefixed(first, Prefixed(second, r)) == Prefixed(first + second, r)
  {
    if r.Success? {
      assert first + (second + r.value.1) == first + second + r.value.1;
    }
  }

  /** A respacing result with `updates` already recorded in front. */
  function Prefixed(updates: seq<ScheduleUpdate>, r: Result<(seq<Item>, seq<ScheduleUpdate>), Error>)
    : Result<(seq<Item>, seq<ScheduleUpdate>), Error>
  {
    if r.Failure? then r else Success((r.value.0, updates + r.value.1))
  }
}
