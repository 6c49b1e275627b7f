/** Respacing overdue peers after an acceptance: when it succeeds, what it
    yields, and why the pre-flight validation is enough. */
module OutboxRescheduling {
  import opened Base
  import opened OutboxTypes
  import opened OutboxTransitions

  // ------------------------------------------------------ facts about indexes

  /** Changing the item under submission does not change its overdue peers. */
  lemma OverdueIgnoresSelf(items: seq<Item>, ii: nat, it: Item, height: UInt64)
    requires ii < |items| && items[ii].itemId == it.itemId
    ensures Overdue(items[ii := it], it.itemId, height) == Overdue(items, it.itemId, height)
  {
    var items' := items[ii := it];
    FilterAgrees(Indices(|items|), (i: nat) => i < |items'| && OverduePeer(items'[i], it.itemId, height),
                 (i: nat) => i < |items| && OverduePeer(items[i], it.itemId, height));
  }

  // ----------------------------------------------------------- the respacing

  ghost predicate Ordered(items: seq<Item>, order: seq<nat>) {
    NoDuplicates(order) && (forall j :: 0 <= j < |order| ==> order[j] < |items|)
    && forall i, j :: 0 <= i < j < |order| ==> items[order[i]].expiry <= items[order[j]].expiry
  }

  lemma TailOrdered(items: seq<Item>, order: seq<nat>, it: Item)
    requires Ordered(items, order) && order != []
    ensures Ordered(items[order[0] := it], order[1..])
  {
    var tail := order[1..];
    forall j | 0 <= j < |tail| ensures tail[j] < |items| && tail[j] != order[0] {
      assert tail[j] == order[j + 1];
    }
  }

  /** Respacing succeeds exactly when the earliest expiry leaves room for one
      block per peer; the draws play no part. */
  lemma {:induction false} RespaceSucceedsIff(items: seq<Item>, order: seq<nat>, height: UInt64, max: UInt64,
                                              elapsed: UInt64, k: nat, draws: nat -> int)
    requires max > 0 && Ordered(items, order)
    ensures Respace(items, order, height, max, elapsed, k, draws).Success?
            <==> (order == [] || items[order[0]].expiry > height + elapsed + |order|)
    decreases |order|
  {
    if order != [] && items[order[0]].expiry > height + elapsed + |order| {
      var it := items[order[0]];
      var latest := it.expiry - (|order| - 1) - 1;
      var elapsed' := SaturatingAdd(elapsed, SampleDelay(draws(k), Min(max, latest - (height + elapsed))));
      var it' := ReplacingSchedule(it, SaturatingAdd(height, elapsed'), height);
      TailOrdered(items, order, it');
      RespaceSucceedsIff(items[order[0] := it'], order[1..], height, max, elapsed', k + 1, draws);
    }
  }

  /** How far past the previous one a peer is placed that expires `left` blocks
      or more after all peers still to come: as many blocks as drawn, at least
      one, and at most `max` and what its expiry leaves. */
  function Gap(draw: int, max: int, previous: int, expiry: int, left: int): int {
    var room := expiry - left - 1 - previous;
    var limit := if max < room then max else room;
    if draw < 1 then 1 else if draw < limit then draw else limit
  }

  /** Peer `i` keeps everything but its schedule, which lies as drawn within
      `max` blocks after `previous` and leaves each of the `left` peers to come a
      block below its own expiry. */
  predicate Moved(items: seq<Item>, items': seq<Item>, i: nat, u: ScheduleUpdate, previous: int, left: int,
                  height: UInt64, max: UInt64, draw: int)
  {
    i < |items| == |items'|
    && items'[i] == items[i].(scheduled := u.scheduled, scheduleStart := height, attemptId := None, attemptStartedAt := None)
    && u.itemId == items[i].itemId && u.scheduleStart == height
    && u.scheduled == previous + Gap(draw, max, previous, items[i].expiry, left)
    && u.scheduled + left < items[i].expiry && 1 <= u.scheduled - previous <= max
  }

  /** What a successful respacing leaves behind: every peer in turn moved past
      the one before it, starting from `base`, and nothing else touched. */
  ghost predicate Respaced(items: seq<Item>, items': seq<Item>, updates: seq<ScheduleUpdate>, order: seq<nat>,
                           height: UInt64, max: UInt64, base: int, k: nat, draws: nat -> int)
  {
    && Untouched(items, items', order) && |updates| == |order|
    && (forall j :: 0 <= j < |order| ==>
          Moved(items, items', order[j], updates[j], After(updates, base, j), |order| - 1 - j, height, max, draws(k + j)))
  }

  /** The height the j-th update is placed after. */
  function After(updates: seq<ScheduleUpdate>, base: int, j: int): int
    requires 0 <= j <= |updates|
  {
    if j == 0 then base else updates[j - 1].scheduled
  }

  predicate Untouched(items: seq<Item>, items': seq<Item>, order: seq<nat>) {
    |items'| == |items| && forall i: nat :: i < |items| && i !in order ==> items'[i] == items[i]
  }

  lemma UntouchedCons(items: seq<Item>, it': Item, items': seq<Item>, order: seq<nat>)
    requires order != [] && NoDuplicates(order) && order[0] < |items|
    requires Untouched(items[order[0] := it'], items', order[1..])
    ensures Untouched(items, items', order)
    ensures items'[order[0]] == it'
  {
    assert order[0] !in order[1..];
    assert order == [order[0]] + order[1..];
  }

  lemma MovedLater(items: seq<Item>, it': Item, items': seq<Item>, u: ScheduleUpdate, updates: seq<ScheduleUpdate>,
                   order: seq<nat>, height: UInt64, max: UInt64, base: int, j: nat, draw: int)
    requires 0 < j < |order| && |updates| == |order| - 1 && NoDuplicates(order) && order[0] < |items|
    requires Moved(items[order[0] := it'], items', order[1..][j - 1], updates[j - 1],
                   After(updates, u.scheduled, j - 1), |order| - 1 - j, height, max, draw)
    ensures Moved(items, items', order[j], ([u] + updates)[j], After([u] + updates, base, j), |order| - 1 - j, height, max,
                  draw)
  {
    assert order[1..][j - 1] == order[j] && order[j] != order[0];
  }

  lemma RespacedCons(items: seq<Item>, it': Item, items': seq<Item>, u: ScheduleUpdate, updates: seq<ScheduleUpdate>,
                     order: seq<nat>, height: UInt64, max: UInt64, base: int, k: nat, draws: nat -> int)
    requires order != [] && Ordered(items, order) && order[0] < |items|
    requires Respaced(items[order[0] := it'], items', updates, order[1..], height, max, u.scheduled, k + 1, draws)
    requires Moved(items, items[order[0] := it'], order[0], u, base, |order| - 1, height, max, draws(k))
    ensures Respaced(items, items', [u] + updates, order, height, max, base, k, draws)
  {
    UntouchedCons(items, it', items', order);
    forall j | 0 <= j < |order|
      ensures Moved(items, items', order[j], ([u] + updates)[j], After([u] + updates, base, j), |order| - 1 - j, height,
                    max, draws(k + j))
    {
      if j > 0 {
        assert k + 1 + (j - 1) == k + j && |order[1..]| - 1 - (j - 1) == |order| - 1 - j;
        MovedLater(items, it', items', u, updates, order, height, max, base, j, draws(k + j));
      }
    }
  }

  /** A successful respacing places its first peer and respaces the rest. */
  lemma RespaceStep(items: seq<Item>, order: seq<nat>, height: UInt64, max: UInt64, elapsed: UInt64, k: nat,
                    draws: nat -> int) returns (elapsed': UInt64, u: ScheduleUpdate)
    requires max > 0 && order != [] && forall j :: 0 <= j < |order| ==> order[j] < |items|
    requires Respace(items, order, height, max, elapsed, k, draws).Success?
    ensures u.scheduled == height + elapsed'
    ensures var it' := ReplacingSchedule(items[order[0]], u.scheduled, height);
            Moved(items, items[order[0] := it'], order[0], u, height + elapsed, |order| - 1, height, max, draws(k))
    ensures var it' := ReplacingSchedule(items[order[0]], u.scheduled, height);
            var rest := Respace(items[order[0] := it'], order[1..], height, max, elapsed', k + 1, draws);
            rest.Success?
            && Respace(items, order, height, max, elapsed, k, draws).value == (rest.value.0, [u] + rest.value.1)
  {
    var it := items[order[0]];
    var latest := it.expiry - (|order| - 1) - 1;
    elapsed' := SaturatingAdd(elapsed, SampleDelay(draws(k), Min(max, latest - (height + elapsed))));
    u := ScheduleUpdate(it.itemId, SaturatingAdd(height, elapsed'), height);
  }

  lemma NothingRespaced(items: seq<Item>, order: seq<nat>, height: UInt64, max: UInt64, elapsed: UInt64, k: nat,
                        draws: nat -> int)
    requires max > 0 && order == []
    ensures Respace(items, order, height, max, elapsed, k, draws) == Success((items, []))
    ensures Respaced(items, items, [], order, height, max, height + elapsed, k, draws)
  {
  }

  lemma RestIsSuccess(items: seq<Item>, order: seq<nat>, height: UInt64, max: UInt64, elapsed: UInt64, k: nat,
                      draws: nat -> int) returns (elapsed': UInt64, u: ScheduleUpdate, it': Item)
    requires max > 0 && order != [] && Ordered(items, order)
    requires Respace(items, order, height, max, elapsed, k, draws).Success?
    ensures order[0] < |items| && Ordered(items[order[0] := it'], order[1..]) && u.scheduled == height + elapsed'
    ensures Moved(items, items[order[0] := it'], order[0], u, height + elapsed, |order| - 1, height, max, draws(k))
    ensures var rest := Respace(items[order[0] := it'], order[1..], height, max, elapsed', k + 1, draws);
            rest.Success?
            && Respace(items, order, height, max, elapsed, k, draws).value == (rest.value.0, [u] + rest.value.1)
  {
    hide Respace, Moved, ReplacingSchedule;
    elapsed', u := RespaceStep(items, order, height, max, elapsed, k, draws);
    it' := ReplacingSchedule(items[order[0]], u.scheduled, height);
    TailOrdered(items, order, it');
  }

  lemma {:induction false} RespaceOutcome(items: seq<Item>, order: seq<nat>, height: UInt64, max: UInt64,
                                          elapsed: UInt64, k: nat, draws: nat -> int)
    requires max > 0 && Ordered(items, order)
    requires Respace(items, order, height, max, elapsed, k, draws).Success?
    ensures var r := Respace(items, order, height, max, elapsed, k, draws).value;
            Respaced(items, r.0, r.1, order, height, max, height + elapsed, k, draws)
    decreases |order|
  {
    hide Respace, Respaced, Moved;
    if order == [] {
      NothingRespaced(items, order, height, max, elapsed, k, draws);
    } else {
      var elapsed', u, it' := RestIsSuccess(items, order, height, max, elapsed, k, draws);
      RespaceOutcome(items[order[0] := it'], order[1..], height, max, elapsed', k + 1, draws);
      var rest := Respace(items[order[0] := it'], order[1..], height, max, elapsed', k + 1, draws).value;
      RespacedCons(items, it', rest.0, u, rest.1, order, height, max, height + elapsed, k, draws);
    }
  }

  // ----------------------------------------------- whole-batch rescheduling

  /** The earliest overdue peer expires more than one block per peer ahead. */
  predicate RoomForPeers(items: seq<Item>, itemId: string, height: UInt64) {
    forall i :: 0 <= i < |items| && OverduePeer(items[i], itemId, height)
      ==> items[i].expiry > height + |Overdue(items, itemId, height)|
  }

  lemma RespacingOrderIsOrdered(items: seq<Item>, itemId: string, height: UInt64, rank: nat -> int)
    ensures Ordered(items, RespacingOrder(items, itemId, height, rank))
    ensures |RespacingOrder(items, itemId, height, rank)| == |Overdue(items, itemId, height)|
  {
    var order := RespacingOrder(items, itemId, height, rank);
    FilterNoDuplicates<nat>(Indices(|items|), (i: nat) => i < |items| && OverduePeer(items[i], itemId, height));
    SortByKeySorted(Overdue(items, itemId, height), rank);
    SortByKeySorted(SortByKey(Overdue(items, itemId, height), rank), ExpiryKey(items));
    forall j | 0 <= j < |order| ensures order[j] < |items| {
      assert order[j] in order;
    }
    forall i, j | 0 <= i < j < |order| ensures items[order[i]].expiry <= items[order[j]].expiry {
      assert ExpiryKey(items)(order[i]) <= ExpiryKey(items)(order[j]);
    }
  }

  /** Rescheduling succeeds exactly when the timing is valid and the earliest
      peer expiry exceeds the height by more than the number of peers. */
  lemma RescheduleSucceedsIff(b: Batch, itemId: string, height: UInt64, rank: nat -> int, draws: nat -> int)
    ensures Reschedule(b, itemId, height, rank, draws).Success?
            <==> 0 < b.mean <= b.max && RoomForPeers(b.items, itemId, height)
    ensures Reschedule(b, itemId, height, rank, draws).Failure?
            ==> Reschedule(b, itemId, height, rank, draws).error == InvalidSchedule
  {
    if 0 < b.mean <= b.max {
      var order := RespacingOrder(b.items, itemId, height, rank);
      RespacingOrderIsOrdered(b.items, itemId, height, rank);
      RespaceSucceedsIff(b.items, order, height, b.max, 0, 0, draws);
      RespaceFailsOnlyWithInvalidSchedule(b.items, order, height, b.max, 0, 0, draws);
      if order != [] {
        forall i: nat | i < |b.items| && OverduePeer(b.items[i], itemId, height)
          ensures b.items[i].expiry >= b.items[order[0]].expiry
        {
          var j :| 0 <= j < |order| && order[j] == i;
        }
      }
    }
  }

  lemma {:induction false} RespaceFailsOnlyWithInvalidSchedule(
      items: seq<Item>, order: seq<nat>, height: UInt64, max: UInt64, elapsed: UInt64, k: nat, draws: nat -> int)
    requires max > 0 && forall j :: 0 <= j < |order| ==> order[j] < |items|
    ensures Respace(items, order, height, max, elapsed, k, draws).Failure?
            ==> Respace(items, order, height, max, elapsed, k, draws).error == InvalidSchedule
    decreases |order|
  {
    if order != [] {
      var it := items[order[0]];
      var latest := it.expiry - (|order| - 1) - 1;
      var current := SaturatingAdd(height, elapsed);
      if it.expiry > |order| && latest > current {
        var elapsed' := SaturatingAdd(elapsed, SampleDelay(draws(k), Min(max, latest - current)));
        var it' := ReplacingSchedule(it, SaturatingAdd(height, elapsed'), height);
        RespaceFailsOnlyWithInvalidSchedule(items[order[0] := it'], order[1..], height, max, elapsed', k + 1, draws);
      }
    }
  }

  /** A successful rescheduling moves exactly the overdue peers, in expiry
      order, each strictly past the previous one and the remote height. */
  lemma RescheduleOutcome(b: Batch, itemId: string, height: UInt64, rank: nat -> int, draws: nat -> int)
    requires Reschedule(b, itemId, height, rank, draws).Success?
    ensures Ordered(b.items, RespacingOrder(b.items, itemId, height, rank))
    ensures forall i: nat :: i in RespacingOrder(b.items, itemId, height, rank)
                             <==> i < |b.items| && OverduePeer(b.items[i], itemId, height)
    ensures var (items', updates) := Reschedule(b, itemId, height, rank, draws).value;
            Respaced(b.items, items', updates, RespacingOrder(b.items, itemId, height, rank), height, b.max, height,
                     0, draws)
  {
    hide Overdue;
    RespacingOrderIsOrdered(b.items, itemId, height, rank);
    RespaceOutcome(b.items, RespacingOrder(b.items, itemId, height, rank), height, b.max, 0, 0, draws);
  }

  // -------------------------------------------------- validation against it

  lemma {:induction false} PeerExpiriesOfPeers(items: seq<Item>, itemId: string, height: UInt64)
    ensures |PeerExpiries(items, itemId, height)| == |Overdue(items, itemId, height)|
    ensures forall j :: 0 <= j < |PeerExpiries(items, itemId, height)| ==>
              exists i :: 0 <= i < |items| && OverduePeer(items[i], itemId, height)
                          && items[i].expiry == PeerExpiries(items, itemId, height)[j]
    ensures forall i :: 0 <= i < |items| && OverduePeer(items[i], itemId, height)
              ==> items[i].expiry in PeerExpiries(items, itemId, height)
  {
    var order := SortByKey(Overdue(items, itemId, height), ExpiryKey(items));
    var es := PeerExpiries(items, itemId, height);
    forall j | 0 <= j < |es|
      ensures exists i :: 0 <= i < |items| && OverduePeer(items[i], itemId, height) && items[i].expiry == es[j]
    {
      assert order[j] in order;
    }
    forall i: nat | i < |items| && OverduePeer(items[i], itemId, height) ensures items[i].expiry in es {
      assert i in order;
      var j :| 0 <= j < |order| && order[j] == i;
      assert es[j] == items[i].expiry;
    }
  }

  /** Room for every peer is never stricter than what validation checks ... */
  lemma RoomImpliesValid(items: seq<Item>, itemId: string, height: UInt64)
    requires RoomForPeers(items, itemId, height)
    ensures SpacingFits(PeerExpiries(items, itemId, height), height)
  {
    PeerExpiriesOfPeers(items, itemId, height);
  }

  /** ... and once all peers share one expiry the two conditions coincide. */
  lemma ValidationExactForOneExpiry(items: seq<Item>, itemId: string, height: UInt64, expiry: UInt64)
    requires forall i :: 0 <= i < |items| && OverduePeer(items[i], itemId, height) ==> items[i].expiry == expiry
    ensures SpacingFits(PeerExpiries(items, itemId, height), height) <==> RoomForPeers(items, itemId, height)
  {
    var es := PeerExpiries(items, itemId, height);
    PeerExpiriesOfPeers(items, itemId, height);
    if SpacingFits(es, height) && es != [] {
      var j := |es| - 1;
      assert height + j + 1 < es[j];
      assert es[j] == expiry;
    }
    if es == [] {
      assert |Overdue(items, itemId, height)| == 0;
      assert forall i: nat ::
          (i < |items| && OverduePeer(items[i], itemId, height) ==> i in Overdue(items, itemId, height));
    }
    if RoomForPeers(items, itemId, height) { RoomImpliesValid(items, itemId, height); }
  }

  /** In one ZIP 318 bucket there is room for 34,560 overdue peers. */
  lemma BucketHoldsItsPeers(items: seq<Item>, itemId: string, height: UInt64)
    requires CanonicalExpiry(height).Some?
    requires forall i :: 0 <= i < |items| && OverduePeer(items[i], itemId, height)
               ==> items[i].expiry == CanonicalExpiry(height).value
    requires |Overdue(items, itemId, height)| <= EXPIRY_BUCKET
    ensures RoomForPeers(items, itemId, height)
    ensures SpacingFits(PeerExpiries(items, itemId, height), height)
  {
    RoomImpliesValid(items, itemId, height);
  }
}
