/** What the select step establishes: the item it picks, the peers it leaves,
    and that the pre-flight validation makes the acceptance recordable. */
module OutboxSelection {
  import opened Base
  import opened OutboxTypes
  import opened OutboxTransitions
  import opened OutboxRescheduling
  import opened OutboxInvariant
  import opened OutboxOperations
  import opened OutboxSafety
  import opened OutboxProtocol

  function SweptAll(s: Snapshot, endpoint: string, height: UInt64, now: Date): Snapshot {
    MarkNeedingResign(ExpireItems(s, height, endpoint, now), height, endpoint, now)
  }

  function Marked(s: Snapshot, endpoint: string, height: UInt64, now: Date, verify: bool): Snapshot {
    var swept := SweptAll(s, endpoint, height, now);
    if verify then swept else MarkProofReady(swept, height, endpoint, now)
  }

  /** All overdue armed items of a batch share the canonical expiry. */
  ghost predicate DueAreCanonical(items: seq<Item>, height: UInt64) {
    CanonicalExpiry(height).Some? ==>
      forall j :: 0 <= j < |items| && items[j].status.Armed? && items[j].scheduled <= height
        ==> items[j].expiry == CanonicalExpiry(height).value
  }

  lemma SweptKeepsInv(s: Snapshot, endpoint: string, height: UInt64, now: Date, owner: Owner)
    requires Inv(s, owner)
    ensures Inv(SweptAll(s, endpoint, height, now), owner)
    ensures KeepsRecords(s, SweptAll(s, endpoint, height, now)) && PausesKept(s, SweptAll(s, endpoint, height, now))
  {
    var s1 := ExpireItems(s, height, endpoint, now);
    SweepKeepsInv(s, Expiring, height, endpoint, now, owner);
    SweepPauses(s, Expiring, height, endpoint, now, owner);
    if CanonicalExpiry(height).Some? {
      var k := Resigning(CanonicalExpiry(height).value);
      SweepKeepsInv(s1, k, height, endpoint, now, owner);
      SweepPauses(s1, k, height, endpoint, now, owner);
      KeepsRecordsTransitive(s, s1, SweepAll(s1, k, height, endpoint, now));
      PausesKeptTransitive(s, s1, SweepAll(s1, k, height, endpoint, now));
    }
  }

  lemma SweptAreCanonical(s: Snapshot, endpoint: string, height: UInt64, now: Date)
    ensures forall i :: 0 <= i < |SweptAll(s, endpoint, height, now).batches|
              && SweptAll(s, endpoint, height, now).batches[i].url == endpoint
              ==> DueAreCanonical(SweptAll(s, endpoint, height, now).batches[i].items, height)
  {
    var s1 := ExpireItems(s, height, endpoint, now);
    if CanonicalExpiry(height).Some? {
      var k := Resigning(CanonicalExpiry(height).value);
      var s2 := SweepAll(s1, k, height, endpoint, now);
      forall i | 0 <= i < |s2.batches| && s2.batches[i].url == endpoint ensures DueAreCanonical(s2.batches[i].items, height) {
        var b := s1.batches[i];
        assert s2.batches[i] == SweptBatch(k, height, endpoint, b);
        assert forall j :: 0 <= j < |b.items| ==> b.items[j] in b.items;
      }
    }
  }

  lemma MarkedKeeps(s: Snapshot, endpoint: string, height: UInt64, now: Date, verify: bool, owner: Owner)
    requires Inv(s, owner)
    ensures var m := Marked(s, endpoint, height, now, verify);
            && Inv(m, owner) && KeepsRecords(s, m) && PausesKept(s, m)
            && forall i :: 0 <= i < |m.batches| && m.batches[i].url == endpoint
                           ==> DueAreCanonical(m.batches[i].items, height)
  {
    var swept := SweptAll(s, endpoint, height, now);
    SweptKeepsInv(s, endpoint, height, now, owner);
    SweptAreCanonical(s, endpoint, height, now);
    if !verify {
      MarkProofReadyKeepsInv(swept, height, endpoint, now, owner);
      var m := MarkProofReady(swept, height, endpoint, now);
      MarkKeepsItems(swept, height, endpoint, now);
      SameArming(swept, m);
      PausesKeptTransitive(s, swept, m);
    }
  }

  lemma MarkKeepsItems(s: Snapshot, height: UInt64, endpoint: string, at: Date)
    ensures var m := MarkProofReady(s, height, endpoint, at);
            && |m.batches| == |s.batches| && m.receipts == s.receipts
            && forall i :: 0 <= i < |m.batches| ==>
                 && m.batches[i].items == s.batches[i].items && m.batches[i].url == s.batches[i].url
                 && m.batches[i].batchId == s.batches[i].batchId && m.batches[i].armedAt == s.batches[i].armedAt
  {
  }

  /** The selected item is a due item of an armed batch at the endpoint. */
  lemma SelectedIsDue(s: Snapshot, endpoint: string, height: UInt64, at: Date) returns (i: nat, j: nat)
    requires SelectDue(s, Some(endpoint), height, at).1.Some?
    ensures var sel := SelectDue(s, Some(endpoint), height, at).1.value;
            && i < |s.batches| && j < |s.batches[i].items| && s.batches[i].items[j] == sel.item
            && s.batches[i].batchId == sel.batchId && s.batches[i].url == sel.url == endpoint
            && s.batches[i].armedAt.Some? && Due(sel.item, height, at)
  {
    var cs := Candidates(s, Some(endpoint), height, at);
    var ring := ScopeRing(s, Some(endpoint), height, at);
    var scope := NextInRing(ring, s.lastScope);
    var bi := FirstIndex(cs, (b: Batch) => ScopeKey(b) == scope).value;
    var b := cs[bi];
    assert b in cs;
    i :| 0 <= i < |s.batches| && s.batches[i] == b;
    var it := FirstDue(b.items, height, at).value;
    j :| 0 <= j < |b.items| && b.items[j] == it;
  }

  /** The selection is sound: due, canonical, and of an armed batch of `s`. */
  ghost predicate SoundSelection(s: Snapshot, sel: Selection, height: UInt64, now: Date, owner: Owner) {
    && owner(sel.item.itemId) == sel.batchId
    && Due(sel.item, height, now)
    && (CanonicalExpiry(height).Some? ==> sel.item.expiry == CanonicalExpiry(height).value)
    && ArmedIn(s, sel.batchId)
  }

  /** `s'` is `s` with the selected record submitting and the others evolved. */
  ghost predicate BegunRecords(s: Snapshot, s': Snapshot, sel: Selection) {
    var k := SelectedKey(sel);
    && Lookup(s, k).Some? && ItemStep(Lookup(s, k).value, sel.item)
    && Lookup(s', k).Some? && Lookup(s', k).value.status.Submitting?
    && Lookup(s', k).value.raw == sel.item.raw && Lookup(s', k).value.attemptCount == sel.item.attemptCount
    && forall k' :: (Lookup(s', k').Some? <==> Lookup(s, k').Some?)
                    && (k' != k && Lookup(s, k').Some? ==> ItemStep(Lookup(s, k').value, Lookup(s', k').value))
  }

  ghost predicate HasRoom(s: Snapshot, sel: Selection, height: UInt64) {
    CanonicalExpiry(height).Some? ==>
      BatchOf(s, sel.batchId).Some? && RoomForPeers(BatchOf(s, sel.batchId).value.items, sel.item.itemId, height)
  }

  lemma PickedIsSound(s: Snapshot, endpoint: string, height: UInt64, now: Date, verify: bool, owner: Owner)
    returns (i: nat)
    requires Inv(s, owner) && SelectDue(Marked(s, endpoint, height, now, verify), Some(endpoint), height, now).1.Some?
    ensures var (picked, selected) := SelectDue(Marked(s, endpoint, height, now, verify), Some(endpoint), height, now);
            var sel := selected.value;
            && Inv(picked, owner) && KeepsRecords(s, picked) && PausesKept(s, picked)
            && SoundSelection(picked, sel, height, now, owner)
            && Lookup(picked, SelectedKey(sel)) == Some(sel.item)
            && i < |picked.batches| && picked.batches[i].batchId == sel.batchId
            && DueAreCanonical(picked.batches[i].items, height)
  {
    var m := Marked(s, endpoint, height, now, verify);
    var (picked, selected) := SelectDue(m, Some(endpoint), height, now);
    MarkedKeeps(s, endpoint, height, now, verify, owner);
    var j;
    i, j := SelectedIsDue(m, endpoint, height, now);
    assert picked.batches[i].armedAt.Some?;
    AmendFields(m, picked, owner);
    SameLookups(m, picked, owner);
    SameArming(m, picked);
    PausesKeptTransitive(s, m, picked);
    assert BatchOk(picked.batches[i], owner);
    FoundByKey(picked, owner, i, j);
  }

  lemma BegunKeepsRecords(picked: Snapshot, sel: Selection, attemptId: string, now: Date, owner: Owner)
    requires Inv(picked, owner) && owner(sel.item.itemId) == sel.batchId
    requires Lookup(picked, SelectedKey(sel)) == Some(sel.item)
    requires BeginSubmission(picked, sel.item.itemId, attemptId, now).Success?
    ensures Inv(BeginSubmission(picked, sel.item.itemId, attemptId, now).value, owner)
    ensures BegunRecords(picked, BeginSubmission(picked, sel.item.itemId, attemptId, now).value, sel)
  {
    hide Lookup;
    SubmissionKeepsInv(picked, sel.item.itemId, attemptId, now, owner);
  }

  lemma BegunAfter(s: Snapshot, picked: Snapshot, s': Snapshot, sel: Selection)
    requires KeepsRecords(s, picked) && BegunRecords(picked, s', sel) && Lookup(picked, SelectedKey(sel)) == Some(sel.item)
    ensures BegunRecords(s, s', sel)
  {
  }

  /** The outcome of a select step that found an item to submit. */
  lemma ChooseBegins(s: Snapshot, endpoint: string, height: UInt64, now: Date, attemptId: string, verify: bool,
                     owner: Owner)
    requires Inv(s, owner) && Choose(s, endpoint, height, now, attemptId, verify).Success?
    requires Choose(s, endpoint, height, now, attemptId, verify).value.1.Some?
    ensures var (s', selected) := Choose(s, endpoint, height, now, attemptId, verify).value;
            && Inv(s', owner) && PausesKept(s, s') && SoundSelection(s', selected.value, height, now, owner)
            && BegunRecords(s, s', selected.value) && HasRoom(s', selected.value, height)
  {
    hide Inv, ItemIndex, Lookup, BeginSubmission;
    var (picked, selected) := SelectDue(Marked(s, endpoint, height, now, verify), Some(endpoint), height, now);
    var sel := selected.value;
    var i := PickedIsSound(s, endpoint, height, now, verify, owner);
    var s' := BeginSubmission(picked, sel.item.itemId, attemptId, now).value;
    assert SoundSelection(s', sel, height, now, owner) && PausesKept(s, s') by {
      BeginKeepsArming(picked, sel.item.itemId, attemptId, now);
      PausesKeptTransitive(s, picked, s');
    }
    BegunKeepsRecords(picked, sel, attemptId, now, owner);
    BegunAfter(s, picked, s', sel);
    if CanonicalExpiry(height).Some? { BegunBatchHasRoom(picked, sel.item.itemId, attemptId, height, now, owner, i); }
  }

  lemma BeginKeepsArming(s: Snapshot, itemId: string, attemptId: string, at: Date)
    requires BeginSubmission(s, itemId, attemptId, at).Success?
    ensures PausesKept(s, BeginSubmission(s, itemId, attemptId, at).value)
    ensures forall id :: ArmedIn(s, id) ==> ArmedIn(BeginSubmission(s, itemId, attemptId, at).value, id)
    ensures var s' := BeginSubmission(s, itemId, attemptId, at).value;
            |s'.batches| == |s.batches|
            && forall i :: 0 <= i < |s.batches| ==>
                 s'.batches[i].batchId == s.batches[i].batchId && s'.batches[i].armedAt == s.batches[i].armedAt
  {
    var s' := BeginSubmission(s, itemId, attemptId, at).value;
    SameArming(s, s');
    forall id | ArmedIn(s, id) ensures ArmedIn(s', id) {
      var i :| 0 <= i < |s.batches| && s.batches[i].batchId == id && s.batches[i].armedAt.Some?;
      assert s'.batches[i].batchId == id && s'.batches[i].armedAt.Some?;
    }
  }

  /** Validation before the submission leaves room for the peers after it. */
  lemma BegunBatchHasRoom(s: Snapshot, itemId: string, attemptId: string, height: UInt64, at: Date, owner: Owner, i: nat)
    requires Inv(s, owner) && i < |s.batches| && s.batches[i].batchId == owner(itemId)
    requires CanonicalExpiry(height).Some? && DueAreCanonical(s.batches[i].items, height)
    requires ValidateRescheduling(s, itemId, height).Success? && BeginSubmission(s, itemId, attemptId, at).Success?
    ensures var s' := BeginSubmission(s, itemId, attemptId, at).value;
            BatchOf(s', owner(itemId)).Some? && RoomForPeers(BatchOf(s', owner(itemId)).value.items, itemId, height)
  {
    LocationIsOwned(s, owner, itemId);
    var (bi, ii) := Location(s.batches, itemId).value;
    FoundBatch(s.batches, i);
    FoundBatch(s.batches, bi);
    var items := s.batches[bi].items;
    ValidationExactForOneExpiry(items, itemId, height, CanonicalExpiry(height).value);
    var it' := items[ii].(status := Submitting, attemptId := Some(attemptId), attemptStartedAt := Some(at));
    OverdueIgnoresSelf(items, ii, it', height);
    var s' := BeginSubmission(s, itemId, attemptId, at).value;
    BeginKeepsArming(s, itemId, attemptId, at);
    assert DistinctBatchIds(s'.batches);
    FoundBatch(s'.batches, bi);
    assert BatchOf(s', owner(itemId)).value.items == items[ii := it'];
  }

  /** A select step that finds nothing to submit still settles what expired. */
  lemma ChooseNothing(s: Snapshot, endpoint: string, height: UInt64, now: Date, attemptId: string, verify: bool,
                      owner: Owner)
    requires Inv(s, owner) && Choose(s, endpoint, height, now, attemptId, verify).Success?
    requires Choose(s, endpoint, height, now, attemptId, verify).value.1.None?
    ensures var s' := Choose(s, endpoint, height, now, attemptId, verify).value.0;
            Inv(s', owner) && KeepsRecords(s, s') && PausesKept(s, s')
  {
    hide SelectDue, Inv, ValidateRescheduling;
    var m := Marked(s, endpoint, height, now, verify);
    var (picked, selected) := SelectDue(m, Some(endpoint), height, now);
    MarkedKeeps(s, endpoint, height, now, verify, owner);
    AmendFields(m, picked, owner);
    SameLookups(m, picked, owner);
    SameArming(m, picked);
    PausesKeptTransitive(s, m, picked);
  }

  /** With room for its peers, an acceptance is always recorded. */
  lemma RoomMakesAcceptanceRecordable(s: Snapshot, itemId: string, equivalent: bool, height: UInt64, code: int,
                                      message: string, at: Date, rank: nat -> int, draws: nat -> int, owner: Owner)
    requires Inv(s, owner)
    requires Lookup(s, (owner(itemId), itemId)).Some? && Lookup(s, (owner(itemId), itemId)).value.status.Submitting?
    requires RoomForPeers(BatchOf(s, owner(itemId)).value.items, itemId, height)
    ensures RecordAccepted(s, itemId, equivalent, height, code, message, at, rank, draws).Success?
  {
    LocationIsOwned(s, owner, itemId);
    var (bi, ii) := Location(s.batches, itemId).value;
    var b := s.batches[bi];
    FoundBatch(s.batches, bi);
    var it' := Settled(b.items[ii], AcceptedAwaiting);
    OverdueIgnoresSelf(b.items, ii, it', height);
    assert BatchOk(b, owner);
    RescheduleSucceedsIff(WithItem(b, ii, it'), itemId, height, rank, draws);
  }

  /** Whatever the network answers, the error is never `InvalidSchedule` unless
      the item is there, submitting, and without room for its peers. */
  lemma InvalidScheduleOnlyWithoutRoom(s: Snapshot, itemId: string, equivalent: bool, height: UInt64, code: int,
                                       message: string, at: Date, rank: nat -> int, draws: nat -> int, owner: Owner)
    requires Inv(s, owner)
    ensures RecordAccepted(s, itemId, equivalent, height, code, message, at, rank, draws) == Failure(InvalidSchedule)
            <==> Lookup(s, (owner(itemId), itemId)).Some? && Lookup(s, (owner(itemId), itemId)).value.status.Submitting?
                 && !RoomForPeers(BatchOf(s, owner(itemId)).value.items, itemId, height)
  {
    hide Overdue, Location;
    LocationIsOwned(s, owner, itemId);
    if Location(s.batches, itemId).Some? {
      var (bi, ii) := Location(s.batches, itemId).value;
      var b := s.batches[bi];
      FoundBatch(s.batches, bi);
      var it' := Settled(b.items[ii], AcceptedAwaiting);
      OverdueIgnoresSelf(b.items, ii, it', height);
      assert BatchOk(b, owner);
      RescheduleSucceedsIff(WithItem(b, ii, it'), itemId, height, rank, draws);
    }
  }

  lemma OverdueAreItems(items: seq<Item>, itemId: string, height: UInt64)
    ensures |Overdue(items, itemId, height)| <= |items|
  {
  }

  lemma MarkedCounts(s: Snapshot, endpoint: string, height: UInt64, now: Date, verify: bool)
    ensures var m := Marked(s, endpoint, height, now, verify);
            |m.batches| == |s.batches| && forall i :: 0 <= i < |m.batches| ==> |m.batches[i].items| == |s.batches[i].items|
  {
    var s1 := ExpireItems(s, height, endpoint, now);
    assert forall i :: 0 <= i < |s.batches| ==> |s1.batches[i].items| == |s.batches[i].items|;
    var s2 := MarkNeedingResign(s1, height, endpoint, now);
    assert forall i :: 0 <= i < |s.batches| ==> |s2.batches[i].items| == |s1.batches[i].items|;
    MarkKeepsItems(s2, height, endpoint, now);
  }

  lemma PickedIsValid(picked: Snapshot, sel: Selection, attemptId: string, height: UInt64, now: Date, owner: Owner, i: nat)
    requires Inv(picked, owner) && owner(sel.item.itemId) == sel.batchId && sel.item.status.Armed?
    requires CanonicalExpiry(height).Some? && Lookup(picked, SelectedKey(sel)) == Some(sel.item)
    requires i < |picked.batches| && picked.batches[i].batchId == sel.batchId
    requires DueAreCanonical(picked.batches[i].items, height) && |picked.batches[i].items| <= EXPIRY_BUCKET
    ensures ValidateRescheduling(picked, sel.item.itemId, height).Success?
    ensures BeginSubmission(picked, sel.item.itemId, attemptId, now).Success?
  {
    var id := sel.item.itemId;
    LocationIsOwned(picked, owner, id);
    var (bi, ii) := Location(picked.batches, id).value;
    FoundBatch(picked.batches, i);
    FoundBatch(picked.batches, bi);
    OverdueAreItems(picked.batches[bi].items, id, height);
    BucketHoldsItsPeers(picked.batches[bi].items, id, height);
  }

  lemma PickedHasFewItems(s: Snapshot, endpoint: string, height: UInt64, now: Date, verify: bool, i: nat)
    requires forall i :: 0 <= i < |s.batches| ==> |s.batches[i].items| <= EXPIRY_BUCKET
    requires i < |SelectDue(Marked(s, endpoint, height, now, verify), Some(endpoint), height, now).0.batches|
    ensures var picked := SelectDue(Marked(s, endpoint, height, now, verify), Some(endpoint), height, now).0;
            |picked.batches[i].items| <= EXPIRY_BUCKET
  {
    MarkedCounts(s, endpoint, height, now, verify);
  }

  /** With batches of up to 34,560 items the pre-flight validation never
      refuses a selection. */
  lemma SelectionIsNeverRefused(s: Snapshot, endpoint: string, height: UInt64, now: Date, attemptId: string, verify: bool,
                                owner: Owner)
    requires Inv(s, owner) && CanonicalExpiry(height).Some?
    requires forall i :: 0 <= i < |s.batches| ==> |s.batches[i].items| <= EXPIRY_BUCKET
    ensures Choose(s, endpoint, height, now, attemptId, verify).Success?
  {
    var m := Marked(s, endpoint, height, now, verify);
    var p := SelectDue(m, Some(endpoint), height, now);
    if p.1.Some? {
      var i := PickedIsSound(s, endpoint, height, now, verify, owner);
      PickedHasFewItems(s, endpoint, height, now, verify, i);
      PickedIsValid(p.0, p.1.value, attemptId, height, now, owner, i);
      ChooseIsPicked(s, endpoint, height, now, attemptId, verify);
    }
  }

  lemma ChooseIsPicked(s: Snapshot, endpoint: string, height: UInt64, now: Date, attemptId: string, verify: bool)
    requires var p := SelectDue(Marked(s, endpoint, height, now, verify), Some(endpoint), height, now);
             p.1.Some? ==>
               && ValidateRescheduling(p.0, p.1.value.item.itemId, height).Success?
               && BeginSubmission(p.0, p.1.value.item.itemId, attemptId, now).Success?
    ensures Choose(s, endpoint, height, now, attemptId, verify).Success?
  {
  }
}
