/** What the server's reply to a payload means and what recording it stores. */
module OutboxReplies {
  import opened Base
  import opened OutboxTypes
  import opened OutboxTransitions
  import opened OutboxRescheduling
  import opened OutboxInvariant
  import opened OutboxPeers
  import opened OutboxSelection
  import opened OutboxReachable
  import opened OutboxProtocol
  import opened OutboxMeaning

  datatype SendReply = Responded(code: int, message: string) | SendFailed(cancelled: bool, description: string)

  predicate Contains(text: string, part: string) {
    part <= text || (text != [] && Contains(text[1..], part))
  }

  const ACCEPTED_EQUIVALENTS := [
    "transaction was committed to the best chain", "already in mempool", "already have transaction",
    "transaction already in block chain", "transaction is already in state", "transaction already exists",
    "txn-already-known", "txn-already-in-mempool", "already known"]

  predicate IsAcceptedEquivalent(message: string) {
    exists i :: 0 <= i < |ACCEPTED_EQUIVALENTS| && Contains(Lowercased(message), ACCEPTED_EQUIVALENTS[i])
  }

  function ReplyOf(r: SendReply): Reply {
    match r
    case SendFailed(_, description) => Failed(description)
    case Responded(code, message) => Replied(code, message, IsAcceptedEquivalent(message))
  }

  // --------------------------------------------------------- what a reply says

  ghost predicate HasPhrase(text: string, phrase: string) { exists p, q :: text == p + phrase + q }

  /** The lowered message tells of a transaction the network already has. */
  ghost predicate SaysKnown(message: string) {
    var text := Lowercased(message);
    || HasPhrase(text, "transaction was committed to the best chain")
    || HasPhrase(text, "already in mempool")
    || HasPhrase(text, "already have transaction")
    || HasPhrase(text, "transaction already in block chain")
    || HasPhrase(text, "transaction is already in state")
    || HasPhrase(text, "transaction already exists")
    || HasPhrase(text, "txn-already-known")
    || HasPhrase(text, "txn-already-in-mempool")
    || HasPhrase(text, "already known")
  }

  lemma {:induction false} ContainedIsPhrase(text: string, part: string)
    requires Contains(text, part)
    ensures HasPhrase(text, part)
  {
    if part <= text {
      assert text == [] + part + text[|part|..];
    } else {
      ContainedIsPhrase(text[1..], part);
      var p, q :| text[1..] == p + part + q;
      assert text == ([text[0]] + p) + part + q;
    }
  }

  lemma {:induction false} PhraseIsContained(p: string, part: string, q: string)
    ensures Contains(p + part + q, part)
  {
    var text := p + part + q;
    if p == [] {
      assert text == part + q;
    } else {
      PhraseIsContained(p[1..], part, q);
      assert text[1..] == p[1..] + part + q;
    }
  }

  /** The search finds a phrase exactly where there is one. */
  lemma ContainsIff(text: string, part: string)
    ensures Contains(text, part) <==> exists p, q :: text == p + part + q
  {
    if Contains(text, part) { ContainedIsPhrase(text, part); }
    forall p, q | text == p + part + q ensures Contains(text, part) { PhraseIsContained(p, part, q); }
  }

  lemma KnownIff(message: string)
    ensures IsAcceptedEquivalent(message) <==> SaysKnown(message)
  {
    hide Contains;
    var text, all := Lowercased(message), ACCEPTED_EQUIVALENTS;
    forall i | 0 <= i < |all| ensures Contains(text, all[i]) <==> HasPhrase(text, all[i]) {
      ContainsIff(text, all[i]);
    }
    hide HasPhrase;
    if SaysKnown(message) {
      assert HasPhrase(text, all[0]) || HasPhrase(text, all[1]) || HasPhrase(text, all[2]) || HasPhrase(text, all[3])
             || HasPhrase(text, all[4]) || HasPhrase(text, all[5]) || HasPhrase(text, all[6]) || HasPhrase(text, all[7])
             || HasPhrase(text, all[8]);
    }
    if IsAcceptedEquivalent(message) {
      var i :| 0 <= i < |all| && Contains(text, all[i]);
      assert i in [0, 1, 2, 3, 4, 5, 6, 7, 8];
    }
  }

  // ------------------------------------------------------ what recording stores

  /** The batch of this id that was stored first is marked as sent if it is fully
      accepted, awaits no proof and was not announced; nothing else changes. */
  ghost predicate MarksSent(s: Snapshot, s': Snapshot, batchId: string, now: Date) {
    && s' == s.(batches := s'.batches) && |s'.batches| == |s.batches|
    && forall a :: 0 <= a < |s.batches| ==>
         var b := s.batches[a];
         s'.batches[a] == if b.batchId == batchId && (forall c :: 0 <= c < a ==> s.batches[c].batchId != batchId)
                             && b.nextProof == None && b.sentPending == None && b.sentNotified == None
                             && batchId !in s.announced && |b.items| > 0
                             && (forall j :: 0 <= j < |b.items| ==> b.items[j].status == AcceptedAwaiting)
                          then b.(sentPending := Some(now)) else b
  }

  lemma MarkSentMarks(s: Snapshot, batchId: string, now: Date)
    ensures MarksSent(s, MarkSent(s, batchId, now).0, batchId, now)
  {
    var s' := MarkSent(s, batchId, now).0;
    forall a | 0 <= a < |s.batches|
      ensures FullySent(s.batches[a])
              <==> (s.batches[a].nextProof == None && |s.batches[a].items| > 0
                    && forall j :: 0 <= j < |s.batches[a].items| ==> s.batches[a].items[j].status == AcceptedAwaiting)
    {
      assert forall j :: 0 <= j < |s.batches[a].items| ==> s.batches[a].items[j] in s.batches[a].items;
    }
  }

  /** The item is accepted, with its receipt last. */
  ghost predicate AcceptanceStored(s: Snapshot, s': Snapshot, i: nat, j: nat, batchId: string, height: UInt64, now: Date,
                                   outcome: Outcome, name: string, code: int, message: string)
    requires i < |s.batches| && j < |s.batches[i].items|
  {
    && (exists s1 :: AcceptedTo(s, s1, i, j, s.batches[i].items[j].itemId, height) && s1.receipts == s'.receipts
                     && MarksSent(s1, s', batchId, now))
    && |s'.receipts| == |s.receipts| + 1 && s'.receipts[..|s.receipts|] == s.receipts
    && ReceiptIs(s'.receipts[|s.receipts|], s.batches[i], s.batches[i].items[j], outcome, name, height, Some(code),
                 Some(message), now)
  }

  /** What a recorded reply leaves of the item at `(i, j)`. A failed call arms it
      again, counted and held back; code 0 accepts it; any other code accepts it
      as equivalent if the network knows it, and else rejects it and unarms its
      batch. */
  ghost predicate ReplyStoredAt(s: Snapshot, s': Snapshot, i: nat, j: nat, batchId: string, height: UInt64, now: Date,
                                response: SendReply)
    requires i < |s.batches| && j < |s.batches[i].items|
  {
    var it := s.batches[i].items[j];
    match response
    case SendFailed(_, description) =>
      var wait := if it.attemptCount == 0 then 60.0 else if it.attemptCount == 1 then 300.0
                  else if it.attemptCount == 2 then 900.0 else 3600.0;
      Replaced(s, s', i, j, it.(status := Armed, attemptCount := it.attemptCount + 1, nextAttemptAt := Some(now + wait),
                                lastError := Some(description), attemptId := None, attemptStartedAt := None))
    case Responded(code, message) =>
      if code == 0 then AcceptanceStored(s, s', i, j, batchId, height, now, Accepted, "accepted", code, message)
      else if SaysKnown(message) then
        AcceptanceStored(s, s', i, j, batchId, height, now, AcceptedEquivalent, "acceptedEquivalent", code, message)
      else RejectedTo(s, s', i, j, height, code, message, now)
  }

  ghost predicate ReplyStored(s: Snapshot, s': Snapshot, sel: Selection, height: UInt64, now: Date, response: SendReply) {
    exists i: nat, j: nat :: FoundAt(s, sel.item.itemId, i, j) && s.batches[i].items[j].status == Submitting
                             && ReplyStoredAt(s, s', i, j, sel.batchId, height, now, response)
  }

  lemma AcceptanceIsStored(s: Snapshot, sel: Selection, height: UInt64, now: Date, response: SendReply,
                           rank: nat -> int, draws: nat -> int, i: nat, j: nat)
    requires FoundAt(s, sel.item.itemId, i, j) && response.Responded?
    requires response.code == 0 || SaysKnown(response.message)
    requires Record(s, sel, height, now, ReplyOf(response), rank, draws).Success?
    ensures s.batches[i].items[j].status == Submitting
    ensures ReplyStoredAt(s, Record(s, sel, height, now, ReplyOf(response), rank, draws).value, i, j, sel.batchId, height,
                          now, response)
  {
    hide RecordAccepted, MarkSent, SaysKnown, IsAcceptedEquivalent, AcceptedTo, MarksSent;
    var code, message := response.code, response.message;
    KnownIff(message);
    RecordAcceptedIs(s, sel.item.itemId, code != 0, height, code, message, now, rank, draws, i, j);
    var s1 := RecordAccepted(s, sel.item.itemId, code != 0, height, code, message, now, rank, draws).value;
    MarkSentMarks(s1, sel.batchId, now);
    assert MarksSent(s1, MarkSent(s1, sel.batchId, now).0, sel.batchId, now);
    assert MarkSent(s1, sel.batchId, now).0.receipts == s1.receipts by { MarkKeepsReceipts(s1, sel.batchId, now); }
  }

  lemma MarkKeepsReceipts(s: Snapshot, batchId: string, now: Date)
    ensures MarkSent(s, batchId, now).0.receipts == s.receipts
  {
  }

  /** Recording stores just that, and whatever it refuses was not being
      submitted or, for an acceptance, cannot be respaced. */
  lemma RecordingIs(s: Snapshot, sel: Selection, height: UInt64, now: Date, response: SendReply, rank: nat -> int,
                    draws: nat -> int)
    ensures var r := Record(s, sel, height, now, ReplyOf(response), rank, draws);
            && (r.Success? ==> ReplyStored(s, r.value, sel, height, now, response))
            && (r.Failure? ==>
                  || (r.error == ItemNotFound && Nowhere(s, sel.item.itemId))
                  || (r.error == InvalidTransition
                      && forall i: nat, j: nat :: FoundAt(s, sel.item.itemId, i, j) ==>
                           s.batches[i].items[j].status != Submitting)
                  || (r.error == InvalidSchedule && response.Responded?
                      && (response.code == 0 || SaysKnown(response.message))))
  {
    var id := sel.item.itemId;
    LocationIs(s, id);
    if Location(s.batches, id).Some? {
      var (i, j) := Location(s.batches, id).value;
      RecordingAt(s, sel, height, now, response, rank, draws, i, j);
      forall a: nat, c: nat | FoundAt(s, id, a, c) ensures (a, c) == (i, j) { FoundOnce(s, id, a, c); }
    } else if response.Responded? {
      KnownIff(response.message);
      NowhereIsNotFound(s, id, "", "", response.code != 0, height, response.code, response.message, now, rank, draws);
    } else {
      NowhereIsNotFound(s, id, "", response.description, false, height, 0, "", now, rank, draws);
    }
  }

  lemma AcceptanceFails(s: Snapshot, itemId: string, equivalent: bool, height: UInt64, code: int, message: string,
                        at: Date, rank: nat -> int, draws: nat -> int, i: nat, j: nat)
    requires FoundAt(s, itemId, i, j)
    ensures var r := RecordAccepted(s, itemId, equivalent, height, code, message, at, rank, draws);
            r.Failure? ==> if s.batches[i].items[j].status != Submitting then r.error == InvalidTransition
                           else r.error == InvalidSchedule
  {
    hide Reschedule;
    FoundOnce(s, itemId, i, j);
    var b := s.batches[i];
    RescheduleSucceedsIff(WithItem(b, j, Settled(b.items[j], AcceptedAwaiting)), itemId, height, rank, draws);
  }

  lemma RecordingAt(s: Snapshot, sel: Selection, height: UInt64, now: Date, response: SendReply, rank: nat -> int,
                    draws: nat -> int, i: nat, j: nat)
    requires FoundAt(s, sel.item.itemId, i, j)
    ensures var r := Record(s, sel, height, now, ReplyOf(response), rank, draws);
            && (r.Success? ==> s.batches[i].items[j].status == Submitting
                               && ReplyStoredAt(s, r.value, i, j, sel.batchId, height, now, response))
            && (r.Failure? ==>
                  || (r.error == InvalidTransition && s.batches[i].items[j].status != Submitting)
                  || (r.error == InvalidSchedule && response.Responded?
                      && (response.code == 0 || SaysKnown(response.message))))
  {
    hide RecordAccepted, RecordRejected, RecordUncertain, IsAcceptedEquivalent, SaysKnown, Uncertain;
    match response
    case SendFailed(_, description) =>
      RecordUncertainIs(s, sel.item.itemId, description, now, i, j);
      UncertainIs(s.batches[i].items[j], description, now);
    case Responded(code, message) =>
      KnownIff(message);
      if code == 0 || SaysKnown(message) {
        AcceptanceFails(s, sel.item.itemId, code != 0, height, code, message, now, rank, draws, i, j);
        if Record(s, sel, height, now, ReplyOf(response), rank, draws).Success? {
          AcceptanceIsStored(s, sel, height, now, response, rank, draws, i, j);
        }
      } else {
        RecordRejectedIs(s, sel.item.itemId, height, code, message, now, i, j);
      }
  }

  // ---------------------------------------------------- undisturbed deliveries

  /** What the store holds once the reply to a payload was recorded. */
  ghost predicate Reported(s: Snapshot, sel: Selection, height: UInt64, response: SendReply) {
    var k := SelectedKey(sel);
    && Lookup(s, k).Some?
    && var it := Lookup(s, k).value;
       match response
       case SendFailed(_, description) =>
         it.status == Armed && it.attemptCount == sel.item.attemptCount + 1 && it.lastError == Some(description)
       case Responded(code, message) =>
         && s.receipts != []
         && var r := s.receipts[|s.receipts| - 1];
            && r.batchId == sel.batchId && r.itemId == sel.item.itemId && r.txid == it.txid
            && r.remoteHeight == height && r.responseCode == Some(code) && r.responseMessage == Some(message)
            && if code == 0 then r.outcome == Accepted && it.status == AcceptedAwaiting
               else if SaysKnown(message) then r.outcome == AcceptedEquivalent && it.status == AcceptedAwaiting
               else && r.outcome == Rejected && it.status == RejectedAwaiting
                    && forall b :: b in s.batches && b.batchId == sel.batchId ==> b.armedAt == None
  }

  /** The record in flight is stored, submitting, with the count it was selected with. */
  ghost predicate InFlight(s: Snapshot, sel: Selection, owner: Owner) {
    && owner(sel.item.itemId) == sel.batchId && Lookup(s, SelectedKey(sel)).Some?
    && Lookup(s, SelectedKey(sel)).value.status == Submitting
    && Lookup(s, SelectedKey(sel)).value.attemptCount == sel.item.attemptCount
  }

  /** A reply to a record in flight is stored as what it says. */
  lemma RecordedIsReported(s: Snapshot, sel: Selection, height: UInt64, now: Date, response: SendReply, rank: nat -> int,
                           draws: nat -> int, owner: Owner)
    requires Inv(s, owner) && InFlight(s, sel, owner)
    ensures var r := Record(s, sel, height, now, ReplyOf(response), rank, draws);
            && (r.Success? ==> Reported(r.value, sel, height, response))
            && (r.Failure? ==> r.error == InvalidSchedule && response.Responded?
                               && (response.code == 0 || SaysKnown(response.message)))
  {
    hide Record, Inv;
    RecordingIs(s, sel, height, now, response, rank, draws);
    InFlightAt(s, sel, owner);
    var r := Record(s, sel, height, now, ReplyOf(response), rank, draws);
    if r.Success? { StoredIsReported(s, r.value, sel, height, now, response, owner); }
  }

  lemma InFlightAt(s: Snapshot, sel: Selection, owner: Owner)
    requires Inv(s, owner) && InFlight(s, sel, owner)
    ensures exists i: nat, j: nat :: FoundAt(s, sel.item.itemId, i, j) && s.batches[i].items[j].status == Submitting
                                     && s.batches[i].batchId == sel.batchId
                                     && s.batches[i].items[j].attemptCount == sel.item.attemptCount
  {
    LocationIs(s, sel.item.itemId);
    LocationIsOwned(s, owner, sel.item.itemId);
  }

  lemma StoredIsReported(s: Snapshot, s': Snapshot, sel: Selection, height: UInt64, now: Date, response: SendReply,
                         owner: Owner)
    requires Inv(s, owner) && InFlight(s, sel, owner) && ReplyStored(s, s', sel, height, now, response)
    ensures Reported(s', sel, height, response)
  {
    hide ReplyStoredAt, Inv;
    InFlightAt(s, sel, owner);
    var i: nat, j: nat :| FoundAt(s, sel.item.itemId, i, j)
                          && ReplyStoredAt(s, s', i, j, sel.batchId, height, now, response);
    FoundOnce(s, sel.item.itemId, i, j);
    forall a: nat, c: nat | FoundAt(s, sel.item.itemId, a, c) ensures (a, c) == (i, j) {
      FoundOnce(s, sel.item.itemId, a, c);
    }
    StillFound(s, s', sel, height, now, response, owner, i, j);
    StoredReports(s, s', sel, height, now, response, i, j);
  }

  lemma StoredReports(s: Snapshot, s': Snapshot, sel: Selection, height: UInt64, now: Date, response: SendReply,
                      i: nat, j: nat)
    requires i < |s.batches| && j < |s.batches[i].items| && ReplyStoredAt(s, s', i, j, sel.batchId, height, now, response)
    requires s.batches[i].batchId == sel.batchId && s.batches[i].items[j].itemId == sel.item.itemId
    requires s.batches[i].items[j].attemptCount == sel.item.attemptCount
    requires DistinctBatchIds(s'.batches) && |s'.batches| == |s.batches| && |s'.batches[i].items| == |s.batches[i].items|
    requires Lookup(s', SelectedKey(sel)) == Some(s'.batches[i].items[j])
    ensures Reported(s', sel, height, response)
  {
    hide SaysKnown, Lookup;
    if response.Responded? && response.code != 0 && !SaysKnown(response.message) {
      assert s'.batches[i].batchId == sel.batchId && s'.batches[i].armedAt == None;
      forall b | b in s'.batches && b.batchId == sel.batchId ensures b.armedAt == None {
        var a :| 0 <= a < |s'.batches| && s'.batches[a] == b;
      }
    }
  }

  lemma StoredKeepsIds(s: Snapshot, s': Snapshot, i: nat, j: nat, batchId: string, height: UInt64, now: Date,
                       response: SendReply, a: nat, c: nat)
    requires i < |s.batches| && j < |s.batches[i].items| && ReplyStoredAt(s, s', i, j, batchId, height, now, response)
    ensures |s'.batches| == |s.batches|
    ensures a < |s.batches| ==> s'.batches[a].batchId == s.batches[a].batchId
                                && |s'.batches[a].items| == |s.batches[a].items|
    ensures a < |s.batches| && c < |s.batches[a].items| ==> s'.batches[a].items[c].itemId == s.batches[a].items[c].itemId
  {
    hide ReceiptIs;
    hide SaysKnown;
  }

  lemma StillFound(s: Snapshot, s': Snapshot, sel: Selection, height: UInt64, now: Date, response: SendReply,
                   owner: Owner, i: nat, j: nat)
    requires Inv(s, owner) && FoundAt(s, sel.item.itemId, i, j) && s.batches[i].batchId == sel.batchId
    requires ReplyStoredAt(s, s', i, j, sel.batchId, height, now, response)
    ensures DistinctBatchIds(s'.batches) && |s'.batches| == |s.batches| && |s'.batches[i].items| == |s.batches[i].items|
    ensures Lookup(s', SelectedKey(sel)) == Some(s'.batches[i].items[j])
  {
    hide ReplyStoredAt, Reconciled;
    StoredKeepsIds(s, s', i, j, sel.batchId, height, now, response, i, j);
    forall a: nat | a < |s.batches| ensures s'.batches[a].batchId == s.batches[a].batchId {
      StoredKeepsIds(s, s', i, j, sel.batchId, height, now, response, a, 0);
    }
    assert BatchOk(s.batches[i], owner);
    forall c: nat | c < |s.batches[i].items| ensures s'.batches[i].items[c].itemId == s.batches[i].items[c].itemId {
      StoredKeepsIds(s, s', i, j, sel.batchId, height, now, response, i, c);
    }
    FoundBatch(s'.batches, i);
    FoundItem(s'.batches[i].items, j);
  }
}
