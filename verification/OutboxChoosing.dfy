/** The selection update as a whole: what it does to every stored record, which
    endpoint and which scope come next, and which proof is announced. */
module OutboxChoosing {
  import opened Base
  import opened OutboxTypes
  import opened OutboxTransitions
  import opened OutboxInvariant
  import opened OutboxOperations
  import opened OutboxSelection
  import opened OutboxFairness
  import opened OutboxProtocol
  import opened OutboxMeaning

  // --------------------------------------------------------------------- rings

  /** The next of some strings: the least after the last one, or, when that is
      gone or was the greatest, the least of all. */
  ghost predicate NextOf(members: set<string>, last: Option<string>, next: string) {
    && next in members
    && if last != None && last.value in members && exists x :: x in members && Less(last.value, x) then
         Less(last.value, next) && forall x :: x in members && Less(last.value, x) ==> x == next || Less(next, x)
       else forall x :: x in members ==> x == next || Less(next, x)
  }

  lemma NextInRingIs(ring: seq<string>, members: set<string>, last: Option<string>)
    requires ring != [] && StrictlySorted(ring) && forall x :: x in ring <==> x in members
    ensures NextOf(members, last, NextInRing(ring, last))
  {
    hide StrictlySorted, FirstIndex;
    hide Less;
    FirstIsLeast(ring);
    if last.Some? && last.value in ring {
      var i := FirstIndex(ring, (x: string) => x == last.value).value;
      if i + 1 < |ring| {
        assert NextInRing(ring, last) == ring[i + 1] by { SmallModulo(i + 1, |ring|); }
        AfterIndex(ring, i);
      } else {
        assert NextInRing(ring, last) == ring[0];
        LastIsGreatest(ring);
      }
    } else if last.Some? {
      assert forall j :: 0 <= j < |ring| ==> ring[j] in ring;
    }
  }

  lemma SmallModulo(m: nat, n: nat)
    requires m < n
    ensures m % n == m
  {
  }

  lemma AfterIndex(ring: seq<string>, i: nat)
    requires StrictlySorted(ring) && i + 1 < |ring|
    ensures Less(ring[i], ring[i + 1])
    ensures forall x :: x in ring && Less(ring[i], x) ==> x == ring[i + 1] || Less(ring[i + 1], x)
  {
    forall x | x in ring && Less(ring[i], x) ensures x == ring[i + 1] || Less(ring[i + 1], x) {
      var j :| 0 <= j < |ring| && ring[j] == x;
      if j <= i { OutOfOrder(ring, j, i); }
    }
  }

  lemma LastIsGreatest(ring: seq<string>)
    requires StrictlySorted(ring) && ring != []
    ensures forall x :: x in ring ==> !Less(ring[|ring| - 1], x)
  {
    forall x | x in ring ensures !Less(ring[|ring| - 1], x) {
      var j :| 0 <= j < |ring| && ring[j] == x;
      OutOfOrder(ring, j, |ring| - 1);
    }
  }

  lemma OutOfOrder(ring: seq<string>, j: nat, i: nat)
    requires StrictlySorted(ring) && j <= i < |ring|
    ensures !Less(ring[i], ring[j])
  {
    LessIrreflexive(ring[i]);
    if j < i { NoCycle(ring[j], ring[i]); }
  }

  lemma FirstIsLeast(ring: seq<string>)
    requires ring != [] && StrictlySorted(ring)
    ensures forall x :: x in ring ==> x == ring[0] || Less(ring[0], x)
  {
  }

  /** A run inspects the watched endpoint that comes after the last one, and
      remembers it; with nothing watched it has nothing to do. */
  lemma NextEndpointIs(s: Snapshot)
    ensures var (s', next) := NextEndpoint(s);
            && (next == None <==> WatchedEndpoints(s) == {})
            && (next == None ==> s' == s)
            && (next != None ==>
                  s' == s.(lastEndpoint := next)
                  && NextOf(WatchedEndpoints(s), s.lastEndpoint, next.value))
  {
    InspectionRingMembers(s);
    var ring := InspectionRing(s);
    if ring != [] {
      assert ring[0] in ring;
      NextInRingIs(ring, WatchedEndpoints(s), s.lastEndpoint);
    }
  }

  /** The selection goes to the scope that comes after the last one served. */
  lemma SelectedScopeIs(s: Snapshot, endpoint: string, height: UInt64, at: Date)
    requires SelectDue(s, Some(endpoint), height, at).1.Some?
    ensures var sel := SelectDue(s, Some(endpoint), height, at).1.value;
            NextOf(CandidateScopes(s, Some(endpoint), height, at), s.lastScope, sel.scope)
  {
    ScopeRingMembers(s, Some(endpoint), height, at);
    NextInRingIs(ScopeRing(s, Some(endpoint), height, at), CandidateScopes(s, Some(endpoint), height, at), s.lastScope);
    SelectedIs(s, endpoint, height, at);
    var cs := Candidates(s, Some(endpoint), height, at);
    var scope := NextInRing(ScopeRing(s, Some(endpoint), height, at), s.lastScope);
    var bi := FirstIndex(cs, (b: Batch) => ScopeKey(b) == scope).value;
    assert ScopeKey(cs[bi]) == scope;
  }

  // --------------------------------------------------------------------- proofs

  /** No other ready batch has a lower proof height, nor the same one and an
      earlier id. */
  ghost predicate FirstReady(s: Snapshot, b: Batch, height: UInt64, endpoint: string) {
    && b in s.batches && ProofCandidate(b, height, endpoint)
    && forall c :: c in s.batches && ProofCandidate(c, height, endpoint) ==>
         b.nextProof.value < c.nextProof.value
         || (b.nextProof.value == c.nextProof.value && !Less(c.batchId, b.batchId))
  }

  /** The proof that comes first is marked for announcement, unless it is
      already; nothing else changes. */
  lemma MarkProofReadyIs(s: Snapshot, height: UInt64, endpoint: string, at: Date, i: nat)
    requires DistinctBatchIds(s.batches) && i < |s.batches|
    ensures var s' := MarkProofReady(s, height, endpoint, at);
            && s' == s.(batches := s'.batches) && |s'.batches| == |s.batches|
            && ((exists b :: b in s.batches && ProofCandidate(b, height, endpoint)) ==>
                  exists b :: FirstReady(s, b, height, endpoint)
                    && (s.batches[i].batchId == b.batchId && b.proofPending == None
                        ==> s'.batches[i] == s.batches[i].(proofPending := Some(at)))
                    && (!(s.batches[i].batchId == b.batchId && b.proofPending == None) ==> s'.batches[i] == s.batches[i]))
            && ((forall b :: b in s.batches ==> !ProofCandidate(b, height, endpoint)) ==> s' == s)
  {
    var c := FirstProofCandidate(s.batches, height, endpoint);
    if c.Some? {
      forall d | d in s.batches && ProofCandidate(d, height, endpoint)
        ensures c.value.nextProof.value < d.nextProof.value
                || (c.value.nextProof.value == d.nextProof.value && !Less(d.batchId, c.value.batchId))
      {
        FirstProofIsLeast(s.batches, height, endpoint, d);
      }
      assert FirstReady(s, c.value, height, endpoint);
      var k :| 0 <= k < |s.batches| && s.batches[k] == c.value;
      FoundBatch(s.batches, k);
      FoundBatch(s.batches, i);
    }
  }

  // --------------------------------------------------------- the update as a whole

  /** Whether an item is due at a height other than that of its canonical expiry. */
  ghost predicate NotCanonical(it: Item, height: UInt64) {
    exists e: UInt64 :: e % 34_560 == 0 && height + 34_560 < e <= height + 69_120 && it.expiry != e
  }

  /** What both sweeps make of an item of a batch. */
  ghost function SweptTo(b: Batch, it: Item, endpoint: string, height: UInt64): Item {
    if b.url != endpoint || it.status != Armed then it
    else if it.expiry <= height then it.(status := ExpiredAwaiting)
    else if it.scheduled <= height && NotCanonical(it, height) then it.(status := NeedsResignAwaiting)
    else it
  }

  lemma SweptItems(s: Snapshot, endpoint: string, height: UInt64, now: Date, i: nat, j: nat)
    requires i < |s.batches| && j < |s.batches[i].items|
    ensures var s' := SweptAll(s, endpoint, height, now);
            && i < |s'.batches| && j < |s'.batches[i].items|
            && s'.batches[i].batchId == s.batches[i].batchId && s'.batches[i].url == s.batches[i].url
            && s'.batches[i].items[j] == SweptTo(s.batches[i], s.batches[i].items[j], endpoint, height)
  {
    hide NotCanonical;
    hide ExpireItems, MarkNeedingResign;
    ExpireSweeps(s, height, endpoint, now, i);
    var s1 := ExpireItems(s, height, endpoint, now);
    var b, b1 := s.batches[i], s1.batches[i];
    assert b.items[j] in b.items;
    assert |b1.items| == |b.items| && b1.url == b.url && b1.batchId == b.batchId;
    assert b1.items[j] in b1.items;
    CanonicalExpiryIs(height);
    if CanonicalExpiry(height).Some? {
      ResignSweeps(s1, height, endpoint, now, CanonicalExpiry(height).value, i);
      NotCanonicalIs(b1.items[j], height);
    } else {
      ResignOverflows(s1, height, endpoint, now);
      NotCanonicalIs(b1.items[j], height);
    }
  }

  lemma NotCanonicalIs(it: Item, height: UInt64)
    ensures NotCanonical(it, height) <==> CanonicalExpiry(height).Some? && it.expiry != CanonicalExpiry(height).value
  {
    CanonicalExpiryIs(height);
  }

  /** The selection update settles what expired or is misdated, begins the item
      it picks, and leaves every other record as it is. */
  lemma ChooseDoes(s: Snapshot, endpoint: string, height: UInt64, now: Date, attemptId: string, verify: bool,
                   owner: Owner, i: nat, j: nat)
    requires Inv(s, owner) && i < |s.batches| && j < |s.batches[i].items|
    requires Choose(s, endpoint, height, now, attemptId, verify).Success?
    ensures var (s', selected) := Choose(s, endpoint, height, now, attemptId, verify).value;
            var swept := SweptTo(s.batches[i], s.batches[i].items[j], endpoint, height);
            && i < |s'.batches| && j < |s'.batches[i].items| && s'.batches[i].batchId == s.batches[i].batchId
            && if selected != None && selected.value.batchId == s.batches[i].batchId
                  && selected.value.item.itemId == swept.itemId
               then selected.value.item == swept
                    && s'.batches[i].items[j] == swept.(status := Submitting, attemptId := Some(attemptId),
                                                        attemptStartedAt := Some(now))
               else s'.batches[i].items[j] == swept
  {
    hide SelectDue, Inv, ValidateRescheduling, Due, BeginSubmission, ExpireItems, MarkNeedingResign, MarkProofReady;
    hide NotCanonical;
    SweptItems(s, endpoint, height, now, i, j);
    MarkKeepsItems(SweptAll(s, endpoint, height, now), height, endpoint, now);
    var m := Marked(s, endpoint, height, now, verify);
    assert Choose(s, endpoint, height, now, attemptId, verify).Success?;
    var (picked, selected) := SelectDue(m, Some(endpoint), height, now);
    if selected.Some? {
      var _ := PickedIsSound(s, endpoint, height, now, verify, owner);
      BegunItems(picked, selected.value, attemptId, now, owner, i, j);
    }
  }

  lemma BegunItems(s: Snapshot, sel: Selection, attemptId: string, now: Date, owner: Owner, i: nat, j: nat)
    requires Inv(s, owner) && i < |s.batches| && j < |s.batches[i].items|
    requires owner(sel.item.itemId) == sel.batchId && Lookup(s, SelectedKey(sel)) == Some(sel.item)
    requires BeginSubmission(s, sel.item.itemId, attemptId, now).Success?
    ensures var s' := BeginSubmission(s, sel.item.itemId, attemptId, now).value;
            var it := s.batches[i].items[j];
            && i < |s'.batches| && j < |s'.batches[i].items| && s'.batches[i].batchId == s.batches[i].batchId
            && if sel.batchId == s.batches[i].batchId && sel.item.itemId == it.itemId
               then sel.item == it && s'.batches[i].items[j] == it.(status := Submitting, attemptId := Some(attemptId),
                                                                    attemptStartedAt := Some(now))
               else s'.batches[i].items[j] == it
  {
    FoundByKey(s, owner, i, j);
    LocationIsOwned(s, owner, sel.item.itemId);
    LocationIs(s, sel.item.itemId);
    var (a, c) := Location(s.batches, sel.item.itemId).value;
    BeginIs(s, sel.item.itemId, attemptId, now, a, c);
    FoundBatch(s.batches, i);
    FoundBatch(s.batches, a);
    assert BatchOk(s.batches[i], owner) && BatchOk(s.batches[a], owner);
    FoundItem(s.batches[i].items, j);
  }

  // ------------------------------------------------------------ channel updates

  /** Each channel call is one transition of the snapshot; recovering and
      discarding drop what they found, and the markers of a proof may become
      anything. */
  lemma UpdatesAre(s: Snapshot, m: Mutation, cfg: Config)
    ensures var r := Mutate(s, m, cfg);
            match m
            case StageBatch(batch) => r == Stage(s, batch, cfg.hash)
            case Arm(batchId, digests, at) => r == ArmBatch(s, batchId, digests, at)
            case Recover(batchId, network, account, runId, expected, url, at) =>
              var done := RecoverBatch(s, batchId, network, account, runId, expected, url, at);
              (r.Success? <==> done.Success?) && (r.Success? ==> r.value == done.value.0)
              && (r.Failure? ==> r.error == done.error)
            case DiscardBatch(batchId) =>
              var done := Discard(s, batchId);
              (r.Success? <==> done.Success?) && (r.Success? ==> r.value == done.value.0)
              && (r.Failure? ==> r.error == done.error)
            case AcknowledgeReceipts(ids) => r == Success(Acknowledge(s, ids))
            case AcknowledgeAnnouncement(batchId, at) => r == AcknowledgeSent(s, batchId, at)
            case RevokeScope(network, account) => r == Success(Revoke(s, network, account))
            case MarkProof(batchId, _, _, _, _) =>
              (r == Failure(BatchNotFound) && forall b :: b in s.batches ==> b.batchId != batchId)
              || (exists i :: 0 <= i < |s.batches| && s.batches[i].batchId == batchId
                    && r == Success(s.(batches := s.batches[i := s.batches[i].(
                         proofPending := m.proofPending, proofNotified := m.proofNotified,
                         noticePending := m.noticePending, noticed := m.noticed)])))
            case RemoveAll => r == Success(Snapshot([], [], None, None, []))
  {
    hide Stage, ArmBatch, RecoverBatch, Discard, Acknowledge, AcknowledgeSent, Revoke;
    if m.MarkProof? {
      var bi := BatchIndex(s.batches, m.batchId);
      if bi.None? {
        forall b | b in s.batches ensures b.batchId != m.batchId {
          var i :| 0 <= i < |s.batches| && s.batches[i] == b;
        }
      }
    }
  }
}
