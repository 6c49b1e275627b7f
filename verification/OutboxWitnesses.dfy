/** Two runs of the step system that show where its guarantees end: item ids
    shared between batches, and batches armed while a send is in flight. */
module OutboxWitnesses {
  import opened Base
  import opened OutboxTypes
  import opened OutboxTransitions
  import opened OutboxRescheduling
  import opened OutboxInvariant
  import opened OutboxOperations
  import opened OutboxProtocol
  import opened OutboxSelection
  import opened OutboxReachable

  function TheItem(id: string, scheduled: UInt64, expiry: UInt64, status: Status, hash: Bytes -> string): Item {
    Item(id, 0, id, [1], hash([1]), 0, scheduled, 0, expiry, status, 0, None, None, None, None)
  }

  function TheBatch(id: string, armedAt: Option<Date>, items: seq<Item>): Batch {
    Batch(id, "n", "a", "r", "u", 1, 1, 0.0, armedAt, None, None, None, None, None, None, None, items)
  }

  function TheStore(batches: seq<Batch>, inspected: bool): Snapshot {
    Snapshot(batches, [], None, if inspected then Some("u") else None, [])
  }

  /** The system after the first `k` events. */
  function UpTo(events: seq<Event>, k: nat, cfg: Config): System
    requires k <= |events|
  {
    Run(INITIAL, events[..k], cfg)
  }

  lemma OneFurther(events: seq<Event>, k: nat, cfg: Config)
    requires k < |events|
    ensures UpTo(events, k + 1, cfg) == Apply(UpTo(events, k, cfg), events[k], cfg)
  {
    assert events[..k + 1][..k] == events[..k];
  }

  lemma ChangesTo(y: System, m: Mutation, s': Snapshot, cfg: Config)
    requires Mutate(y.store, m, cfg) == Success(s')
    ensures Apply(y, Change(m, true), cfg).store == s'
    ensures y.phase.Idle? ==> Apply(y, Change(m, true), cfg).phase.Idle?
    ensures y.phase.Sending? ==>
              var p := Apply(y, Change(m, true), cfg).phase;
              p.Sending? && p.attempt.sel == y.phase.attempt.sel && p.attempt.height == y.phase.attempt.height
  {
    hide Mutate;
  }

  lemma SelectsTo(y: System, height: UInt64, attemptId: string, s': Snapshot, sel: Option<Selection>, cfg: Config)
    requires y.phase.Inspected?
    requires Choose(y.store, y.phase.endpoint, height, y.phase.now, attemptId, true) == Success((s', sel))
    ensures var y' := Apply(y, Select(height, attemptId, true, true), cfg);
            && y'.store == s'
            && (sel.Some? ==> y'.phase.Chosen? && y'.phase.attempt.sel == sel.value && y'.phase.attempt.height == height)
  {
  }

  lemma SendsNow(y: System, cfg: Config)
    requires y.phase.Chosen?
    ensures Apply(y, Send, cfg).phase == Sending(y.phase.attempt) && Apply(y, Send, cfg).store == y.store
  {
  }

  lemma NoneOf<T(!new)>(xs: seq<T>, p: T -> bool)
    requires forall x :: x in xs ==> !p(x)
    ensures Filter(xs, p) == []
  {
    assert Filter(xs, p) != [] ==> Filter(xs, p)[0] in Filter(xs, p);
  }

  lemma NothingToRecover(s: Snapshot, now: Date)
    requires forall i, j :: 0 <= i < |s.batches| && 0 <= j < |s.batches[i].items| ==> !s.batches[i].items[j].status.Submitting?
    ensures RecoverInterrupted(s, now) == s
  {
    var s' := RecoverInterrupted(s, now);
    forall i | 0 <= i < |s.batches| ensures s'.batches[i] == s.batches[i] {
      assert s'.batches[i].items == s.batches[i].items;
    }
    assert s'.batches == s.batches;
  }

  lemma OneEndpoint(s: Snapshot, b: Batch)
    requires b in s.batches && NeedsInspection(b)
    requires forall b :: b in s.batches ==> b.url == "u"
    ensures NextEndpoint(s) == (s.(lastEndpoint := Some("u")), Some("u"))
  {
    var watched := Filter(s.batches, (b: Batch) => NeedsInspection(b));
    var i :| 0 <= i < |watched| && watched[i] == b;
    assert Urls(watched)[i] in Urls(watched);
    SortedSetIsSorted(Urls(watched));
    assert forall j :: 0 <= j < |watched| ==> watched[j] in watched;
  }

  /** Nothing being submitted, a run begins by inspecting the one endpoint. */
  lemma BeginsAtEndpoint(y: System, now: Date, i: nat, cfg: Config)
    requires y.phase.Idle? && i < |y.store.batches| && NeedsInspection(y.store.batches[i])
    requires forall b :: b in y.store.batches ==> b.url == "u"
    requires forall i, j :: 0 <= i < |y.store.batches| && 0 <= j < |y.store.batches[i].items|
               ==> !y.store.batches[i].items[j].status.Submitting?
    ensures Apply(y, Begin(now, true), cfg).store == y.store.(lastEndpoint := Some("u"))
    ensures Apply(y, Begin(now, true), cfg).phase == Inspected("u", now)
  {
    NothingToRecover(y.store, now);
    OneEndpoint(y.store, y.store.batches[i]);
  }

  // ---------------------------------------------------------- shared item ids

  function Shared(status: Status, hash: Bytes -> string): seq<Item> { [TheItem("x", 0, 9, status, hash)] }

  /** Batches "A" and "B" hold an item of the same id. */
  function SharedStore(statusA: Status, statusB: Status, inspected: bool, hash: Bytes -> string): Snapshot {
    TheStore([TheBatch("A", ArmedIf(statusA), Shared(statusA, hash)),
              TheBatch("B", ArmedIf(statusB), Shared(statusB, hash))], inspected)
  }

  function ArmedIf(status: Status): Option<Date> { if status.Armed? then Some(1.0) else None }

  function SharedReceipt(batchId: string, hash: Bytes -> string): Receipt {
    MakeReceipt(TheBatch(batchId, Some(1.0), []), TheItem("x", 0, 9, Armed, hash), Expired, 9, None, None, [], 2.0)
  }

  function SharedSwept(hash: Bytes -> string): Snapshot {
    SharedStore(ExpiredAwaiting, ExpiredAwaiting, true, hash).(
      receipts := [SharedReceipt("A", hash), SharedReceipt("B", hash)])
  }

  function SharedEvents(hash: Bytes -> string): seq<Event> {
    [Change(StageBatch(TheBatch("A", None, Shared(Staged, hash))), true),
     Change(StageBatch(TheBatch("B", None, Shared(Staged, hash))), true),
     Change(Arm("A", map["x" := hash([1])], 1.0), true), Change(Arm("B", map["x" := hash([1])], 1.0), true),
     Begin(2.0, true), Select(9, "attempt", true, true)]
  }

  lemma StagesNew(s: Snapshot, b: Batch, hash: Bytes -> string)
    requires Stageable(b, hash) && forall e :: e in s.batches ==> e.batchId != b.batchId
    ensures Stage(s, b, hash) == Success(s.(batches := s.batches + [b]))
  {
  }

  lemma SharedStaged(hash: Bytes -> string)
    ensures Stage(EMPTY, TheBatch("A", None, Shared(Staged, hash)), hash)
            == Success(TheStore([TheBatch("A", None, Shared(Staged, hash))], false))
    ensures Stage(TheStore([TheBatch("A", None, Shared(Staged, hash))], false),
                  TheBatch("B", None, Shared(Staged, hash)), hash)
            == Success(SharedStore(Staged, Staged, false, hash))
  {
    var a, b := TheBatch("A", None, Shared(Staged, hash)), TheBatch("B", None, Shared(Staged, hash));
    assert StageableItem(TheItem("x", 0, 9, Staged, hash), hash);
    assert Stageable(a, hash) && Stageable(b, hash);
    StagesNew(EMPTY, a, hash);
    assert EMPTY.batches + [a] == [a] && [a] + [b] == [a, b];
    assert "A"[0] == 'A' && "B"[0] == 'B';
    StagesNew(TheStore([a], false), b, hash);
  }

  /** Arming changes the one batch to `b'`. */
  lemma ArmsTo(s: Snapshot, i: nat, digests: map<string, string>, at: Date, b': Batch)
    requires DistinctBatchIds(s.batches) && i < |s.batches|
    requires digests != map[] && DigestsMatch(s.batches[i].items, digests)
    requires b' == s.batches[i].(items := b'.items,
                                 armedAt := if s.batches[i].armedAt.None? then Some(at) else s.batches[i].armedAt)
    requires b'.items == MapItems(s.batches[i].items, (it: Item) => ArmItem(it, digests))
    ensures ArmBatch(s, s.batches[i].batchId, digests, at) == Success(s.(batches := s.batches[i := b']))
  {
    FoundBatch(s.batches, i);
  }

  lemma SharedArmed(hash: Bytes -> string)
    ensures ArmBatch(SharedStore(Staged, Staged, false, hash), "A", map["x" := hash([1])], 1.0)
            == Success(SharedStore(Armed, Staged, false, hash))
    ensures ArmBatch(SharedStore(Armed, Staged, false, hash), "B", map["x" := hash([1])], 1.0)
            == Success(SharedStore(Armed, Armed, false, hash))
  {
    var s, t := SharedStore(Staged, Staged, false, hash), SharedStore(Armed, Staged, false, hash);
    var u := SharedStore(Armed, Armed, false, hash);
    assert "A"[0] == 'A' && "B"[0] == 'B';
    assert Shared(Staged, hash)[0] in Shared(Staged, hash);
    assert Shared(Armed, hash) == MapItems(Shared(Staged, hash), (it: Item) => ArmItem(it, map["x" := hash([1])]));
    ArmsTo(s, 0, map["x" := hash([1])], 1.0, t.batches[0]);
    assert s.batches[0 := t.batches[0]] == t.batches;
    ArmsTo(t, 1, map["x" := hash([1])], 1.0, u.batches[1]);
    assert t.batches[1 := u.batches[1]] == u.batches;
  }

  lemma SharedExpires(hash: Bytes -> string)
    ensures ExpireItems(SharedStore(Armed, Armed, true, hash), 9, "u", 2.0) == SharedSwept(hash)
  {
    var s := SharedStore(Armed, Armed, true, hash);
    var a, b := s.batches[0], s.batches[1];
    assert a.items[0] in a.items && b.items[0] in b.items;
    assert SweptBatch(Expiring, 9, "u", a) == SharedSwept(hash).batches[0];
    assert SweptBatch(Expiring, 9, "u", b) == SharedSwept(hash).batches[1];
    assert ItemReceipts(Expiring, 9, a, a.items, 2.0) == [SharedReceipt("A", hash)] by { assert a.items[..0] == []; }
    assert ItemReceipts(Expiring, 9, b, b.items, 2.0) == [SharedReceipt("B", hash)] by { assert b.items[..0] == []; }
    assert [a, b][..1] == [a] && [a][..0] == [];
    assert SweepReceipts(Expiring, 9, "u", [a], 2.0) == [SharedReceipt("A", hash)];
    assert SweepReceipts(Expiring, 9, "u", s.batches, 2.0) == SharedSwept(hash).receipts;
    assert ExpireItems(s, 9, "u", 2.0).batches == SharedSwept(hash).batches;
  }

  lemma {:induction false} NothingSwept(k: Sweep, height: UInt64, endpoint: string, batches: seq<Batch>, at: Date)
    requires forall b, it :: b in batches && it in b.items ==> !Swept(k, height, it)
    ensures SweepReceipts(k, height, endpoint, batches, at) == []
  {
    if batches != [] {
      var init, last := batches[..|batches| - 1], batches[|batches| - 1];
      assert last in batches && forall b :: b in init ==> b in batches;
      NothingSwept(k, height, endpoint, init, at);
      NoItemSwept(k, height, last, last.items, at);
    }
  }

  lemma {:induction false} NoItemSwept(k: Sweep, height: UInt64, b: Batch, items: seq<Item>, at: Date)
    requires forall it :: it in items ==> !Swept(k, height, it)
    ensures ItemReceipts(k, height, b, items, at) == []
  {
    if items != [] {
      assert items[|items| - 1] in items && forall it :: it in items[..|items| - 1] ==> it in items;
      NoItemSwept(k, height, b, items[..|items| - 1], at);
    }
  }

  lemma SweepOfNothing(s: Snapshot, k: Sweep, height: UInt64, endpoint: string, at: Date)
    requires forall b, it :: b in s.batches && it in b.items ==> !Swept(k, height, it)
    ensures SweepAll(s, k, height, endpoint, at) == s
  {
    NothingSwept(k, height, endpoint, s.batches, at);
    assert forall i :: 0 <= i < |s.batches| ==> s.batches[i] in s.batches;
    assert SweepAll(s, k, height, endpoint, at).batches == s.batches;
  }

  lemma SharedSelected(hash: Bytes -> string)
    ensures Choose(SharedStore(Armed, Armed, true, hash), "u", 9, 2.0, "attempt", true) == Success((SharedSwept(hash), None))
  {
    hide SweepAll;
    SharedExpires(hash);
    var swept := SharedSwept(hash);
    SweepOfNothing(swept, Resigning(2 * EXPIRY_BUCKET), 9, "u", 2.0);
    NoneOf(swept.batches, (b: Batch) => Candidate(b, Some("u"), 9, 2.0));
    assert Scopes([]) == [];
  }

  lemma SharedIsArmed(cfg: Config)
    ensures var y := UpTo(SharedEvents(cfg.hash), 4, cfg);
            y.phase.Idle? && y.store == SharedStore(Armed, Armed, false, cfg.hash)
  {
    hide Apply;
    var es, hash := SharedEvents(cfg.hash), cfg.hash;
    assert UpTo(es, 0, cfg) == INITIAL;
    forall k: nat | k < 4 ensures UpTo(es, k + 1, cfg) == Apply(UpTo(es, k, cfg), es[k], cfg) {
      OneFurther(es, k, cfg);
    }
    SharedStaged(hash);
    ChangesTo(UpTo(es, 0, cfg), es[0].mutation, TheStore([TheBatch("A", None, Shared(Staged, hash))], false), cfg);
    ChangesTo(UpTo(es, 1, cfg), es[1].mutation, SharedStore(Staged, Staged, false, hash), cfg);
    SharedArmed(hash);
    ChangesTo(UpTo(es, 2, cfg), es[2].mutation, SharedStore(Armed, Staged, false, hash), cfg);
    ChangesTo(UpTo(es, 3, cfg), es[3].mutation, SharedStore(Armed, Armed, false, hash), cfg);
  }

  lemma SharedBegins(y: System, cfg: Config)
    requires y.phase.Idle? && y.store == SharedStore(Armed, Armed, false, cfg.hash)
    ensures Apply(y, Begin(2.0, true), cfg).store == SharedStore(Armed, Armed, true, cfg.hash)
    ensures Apply(y, Begin(2.0, true), cfg).phase == Inspected("u", 2.0)
  {
    assert y.store.batches[0].items[0].status.Armed? && y.store.batches[0].items[0] in y.store.batches[0].items;
    BeginsAtEndpoint(y, 2.0, 0, cfg);
  }

  lemma SharedEnds(y: System, cfg: Config)
    requires y.phase.Idle? && y.store == SharedStore(Armed, Armed, false, cfg.hash)
    ensures Apply(Apply(y, Begin(2.0, true), cfg), Select(9, "attempt", true, true), cfg).store == SharedSwept(cfg.hash)
  {
    SharedBegins(y, cfg);
    SharedSelected(cfg.hash);
    SelectsTo(Apply(y, Begin(2.0, true), cfg), 9, "attempt", SharedSwept(cfg.hash), None, cfg);
  }

  lemma LastTwo(events: seq<Event>, cfg: Config)
    requires |events| >= 2
    ensures var n := |events|;
            Run(INITIAL, events, cfg) == Apply(Apply(UpTo(events, n - 2, cfg), events[n - 2], cfg), events[n - 1], cfg)
  {
    OneFurther(events, |events| - 2, cfg);
    OneFurther(events, |events| - 1, cfg);
    assert events[..|events|] == events;
  }

  /** Staging both batches, arming both and one selection that finds both items
      expired reaches the swept store. */
  lemma SharedIsReached(cfg: Config)
    ensures Run(INITIAL, SharedEvents(cfg.hash), cfg).store == SharedSwept(cfg.hash)
  {
    hide Apply;
    SharedIsArmed(cfg);
    LastTwo(SharedEvents(cfg.hash), cfg);
    SharedEnds(UpTo(SharedEvents(cfg.hash), 4, cfg), cfg);
  }

  lemma SharedIsReconciled(hash: Bytes -> string)
    ensures Reconciled(SharedSwept(hash).batches, SharedSwept(hash).receipts)
  {
    var s := SharedSwept(hash);
    assert AboutItem(s.batches, s.receipts[0], 0, 0) && AboutItem(s.batches, s.receipts[1], 1, 0);
    forall i, j | AwaitingAt(s.batches, i, j) ensures HasReceipt(s.batches, s.receipts, i, j) {
      assert s.receipts[i] in s.receipts && AboutItem(s.batches, s.receipts[i], i, j);
    }
  }

  lemma SharedLosesOther(cfg: Config)
    ensures var s, named, other := SharedSwept(cfg.hash), SharedReceipt("A", cfg.hash), SharedReceipt("B", cfg.hash);
            var s' := Acknowledge(s, {named.receiptId});
            other in s'.receipts && !HasItem(s'.batches, other)
  {
    var s := SharedSwept(cfg.hash);
    var named, other := s.receipts[0], s.receipts[1];
    assert named.receiptId[0] == 'A' && other.receiptId[0] == 'B';
    assert named in s.receipts && other in s.receipts && !Spares(s, {named.receiptId}, "x");
    SharedIsReconciled(cfg.hash);
    SparedKeepsItem(s, {named.receiptId}, other);
  }

  /** If two batches share an item id, a run reaches a store in which every
      receipt has its item, and acknowledging one of its receipts then removes
      the other's item and keeps that receipt. */
  lemma SharedItemIdLosesAnItem(cfg: Config)
    ensures var y := Run(INITIAL, SharedEvents(cfg.hash), cfg);
            var named, other := SharedReceipt("A", cfg.hash), SharedReceipt("B", cfg.hash);
            var y' := Apply(y, Change(AcknowledgeReceipts({named.receiptId}), true), cfg);
            && Reconciled(y.store.batches, y.store.receipts)
            && other in y'.store.receipts && !HasItem(y'.store.batches, other)
  {
    hide Apply, Run, Acknowledge;
    SharedIsReached(cfg);
    SharedIsReconciled(cfg.hash);
    var s := SharedSwept(cfg.hash);
    var named := SharedReceipt("A", cfg.hash);
    SharedLosesOther(cfg);
    ChangesTo(Run(INITIAL, SharedEvents(cfg.hash), cfg), AcknowledgeReceipts({named.receiptId}),
              Acknowledge(s, {named.receiptId}), cfg);
  }

  // ------------------------------------------------- arming during the send

  /** One item under way with a canonical expiry, two that expire at 12 and 13. */
  function Peers(first: Item, others: Status, hash: Bytes -> string): seq<Item> {
    [first, TheItem("b", 5, 12, others, hash), TheItem("c", 5, 13, others, hash)]
  }

  function First(status: Status, hash: Bytes -> string): Item { TheItem("a", 5, 2 * EXPIRY_BUCKET, status, hash) }

  function Begun(hash: Bytes -> string): Item {
    First(Submitting, hash).(attemptId := Some("attempt"), attemptStartedAt := Some(2.0))
  }

  function PeerStore(armedAt: Option<Date>, first: Item, others: Status, inspected: bool, hash: Bytes -> string): Snapshot {
    TheStore([TheBatch("A", armedAt, Peers(first, others, hash))], inspected)
  }

  function PeerEvents(hash: Bytes -> string): seq<Event> {
    [Change(StageBatch(TheBatch("A", None, Peers(First(Staged, hash), Staged, hash))), true),
     Change(Arm("A", map["a" := hash([1])], 1.0), true), Begin(2.0, true), Select(10, "attempt", true, true), Send,
     Change(Arm("A", map["b" := hash([1]), "c" := hash([1])], 3.0), true)]
  }

  lemma PeersStaged(hash: Bytes -> string)
    ensures Stage(EMPTY, TheBatch("A", None, Peers(First(Staged, hash), Staged, hash)), hash)
            == Success(PeerStore(None, First(Staged, hash), Staged, false, hash))
  {
    var b := TheBatch("A", None, Peers(First(Staged, hash), Staged, hash));
    assert "a"[0] == 'a' && "b"[0] == 'b' && "c"[0] == 'c';
    forall it | it in b.items ensures StageableItem(it, hash) {
    }
    StagesNew(EMPTY, b, hash);
    assert EMPTY.batches + [b] == [b];
  }

  lemma FirstArmed(hash: Bytes -> string)
    ensures ArmBatch(PeerStore(None, First(Staged, hash), Staged, false, hash), "A", map["a" := hash([1])], 1.0)
            == Success(PeerStore(Some(1.0), First(Armed, hash), Staged, false, hash))
  {
    var s := PeerStore(None, First(Staged, hash), Staged, false, hash);
    var t := PeerStore(Some(1.0), First(Armed, hash), Staged, false, hash);
    assert s.batches[0].items[0] in s.batches[0].items;
    assert "a"[0] == 'a' && "b"[0] == 'b' && "c"[0] == 'c';
    assert t.batches[0].items == MapItems(s.batches[0].items, (it: Item) => ArmItem(it, map["a" := hash([1])]));
    ArmsTo(s, 0, map["a" := hash([1])], 1.0, t.batches[0]);
    assert s.batches[0 := t.batches[0]] == t.batches;
  }

  lemma FirstSelected(hash: Bytes -> string)
    ensures var s := PeerStore(Some(1.0), First(Armed, hash), Staged, true, hash);
            SelectDue(s, Some("u"), 10, 2.0)
            == (s.(lastScope := Some("n:a")), Some(Selection("A", "a", "n:a", "u", First(Armed, hash))))
  {
    var s := PeerStore(Some(1.0), First(Armed, hash), Staged, true, hash);
    var b := s.batches[0];
    assert b.items[0] in b.items;
    var p := (b: Batch) => Candidate(b, Some("u"), 10, 2.0);
    assert Filter(s.batches, p) == [b] by {
      assert p(b) && s.batches[1..] == [] && Filter(s.batches[1..], p) == [];
    }
    assert ScopeKey(b) == "n:a" && Scopes([b]) == ["n:a"];
    assert SortedSet(["n:a"]) == ["n:a"] by { assert ["n:a"][1..] == []; }
    assert forall it :: it in b.items && Due(it, 10, 2.0) ==> it == First(Armed, hash);
  }

  lemma NoPeersIsValid(s: Snapshot, itemId: string, height: UInt64)
    requires Location(s.batches, itemId).Some?
    requires forall it :: it in s.batches[Location(s.batches, itemId).value.0].items ==> !OverduePeer(it, itemId, height)
    ensures ValidateRescheduling(s, itemId, height) == Success(())
  {
    var items := s.batches[Location(s.batches, itemId).value.0].items;
    var overdue := Overdue(items, itemId, height);
    forall i | 0 <= i < |items| ensures i !in overdue {
      assert items[i] in items;
    }
    forall j | 0 <= j < |overdue| ensures overdue[j] in overdue && overdue[j] < |items| {
    }
    PeerExpiriesOfPeers(items, itemId, height);
  }

  function FirstPicked(hash: Bytes -> string): Snapshot {
    PeerStore(Some(1.0), First(Armed, hash), Staged, true, hash).(lastScope := Some("n:a"))
  }

  function FirstBegun(hash: Bytes -> string): Snapshot {
    PeerStore(Some(1.0), Begun(hash), Staged, true, hash).(lastScope := Some("n:a"))
  }

  lemma FirstBegins(hash: Bytes -> string)
    ensures ValidateRescheduling(FirstPicked(hash), "a", 10) == Success(())
    ensures BeginSubmission(FirstPicked(hash), "a", "attempt", 2.0) == Success(FirstBegun(hash))
  {
    var s, t := FirstPicked(hash), FirstBegun(hash);
    assert Location(s.batches, "a") == Some((0, 0));
    NoPeersIsValid(s, "a", 10);
    assert s.batches[0].items[0 := Begun(hash)] == t.batches[0].items;
    assert s.batches[0 := t.batches[0]] == t.batches;
  }

  lemma FirstChosen(hash: Bytes -> string)
    ensures Choose(PeerStore(Some(1.0), First(Armed, hash), Staged, true, hash), "u", 10, 2.0, "attempt", true)
            == Success((FirstBegun(hash), Some(Selection("A", "a", "n:a", "u", First(Armed, hash)))))
  {
    var s := PeerStore(Some(1.0), First(Armed, hash), Staged, true, hash);
    NothingToSweep(hash);
    FirstSelected(hash);
    FirstBegins(hash);
  }

  lemma NothingToSweep(hash: Bytes -> string)
    ensures var s := PeerStore(Some(1.0), First(Armed, hash), Staged, true, hash);
            MarkNeedingResign(ExpireItems(s, 10, "u", 2.0), 10, "u", 2.0) == s
  {
    var s := PeerStore(Some(1.0), First(Armed, hash), Staged, true, hash);
    SweepOfNothing(s, Expiring, 10, "u", 2.0);
    SweepOfNothing(s, Resigning(2 * EXPIRY_BUCKET), 10, "u", 2.0);
  }

  lemma OthersArmed(hash: Bytes -> string)
    ensures ArmBatch(FirstBegun(hash), "A", map["b" := hash([1]), "c" := hash([1])], 3.0) == Success(Disturbed_(hash))
  {
    var s, t := FirstBegun(hash), Disturbed_(hash);
    var digests := map["b" := hash([1]), "c" := hash([1])];
    assert s.batches[0].items[1] in s.batches[0].items && s.batches[0].items[2] in s.batches[0].items;
    assert "a"[0] == 'a' && "b"[0] == 'b' && "c"[0] == 'c';
    assert t.batches[0].items == MapItems(s.batches[0].items, (it: Item) => ArmItem(it, digests));
    ArmsTo(s, 0, digests, 3.0, t.batches[0]);
    assert s.batches[0 := t.batches[0]] == t.batches;
  }

  /** The store while the send is in flight and the two others were armed. */
  function Disturbed_(hash: Bytes -> string): Snapshot {
    PeerStore(Some(1.0), Begun(hash), Armed, true, hash).(lastScope := Some("n:a"))
  }

  lemma FirstIsArmed(cfg: Config)
    ensures var y := UpTo(PeerEvents(cfg.hash), 2, cfg);
            y.phase.Idle? && y.store == PeerStore(Some(1.0), First(Armed, cfg.hash), Staged, false, cfg.hash)
  {
    hide Apply, ArmBatch;
    var es, hash := PeerEvents(cfg.hash), cfg.hash;
    assert UpTo(es, 0, cfg) == INITIAL;
    OneFurther(es, 0, cfg);
    PeersStaged(hash);
    ChangesTo(UpTo(es, 0, cfg), es[0].mutation, PeerStore(None, First(Staged, hash), Staged, false, hash), cfg);
    OneFurther(es, 1, cfg);
    FirstArmed(hash);
    ChangesTo(UpTo(es, 1, cfg), es[1].mutation, PeerStore(Some(1.0), First(Armed, hash), Staged, false, hash), cfg);
  }

  lemma FirstInspected(y: System, cfg: Config)
    requires y.phase.Idle? && y.store == PeerStore(Some(1.0), First(Armed, cfg.hash), Staged, false, cfg.hash)
    ensures Apply(y, Begin(2.0, true), cfg).store == PeerStore(Some(1.0), First(Armed, cfg.hash), Staged, true, cfg.hash)
    ensures Apply(y, Begin(2.0, true), cfg).phase == Inspected("u", 2.0)
  {
    assert y.store.batches[0].items[0].status.Armed? && y.store.batches[0].items[0] in y.store.batches[0].items;
    BeginsAtEndpoint(y, 2.0, 0, cfg);
  }

  predicate FirstInFlight(y: System, hash: Bytes -> string) {
    && y.phase.Sending? && y.phase.attempt.sel.item == First(Armed, hash) && y.phase.attempt.height == 10
  }

  lemma FirstSends(y: System, cfg: Config)
    requires y.phase.Idle? && y.store == PeerStore(Some(1.0), First(Armed, cfg.hash), Staged, false, cfg.hash)
    ensures var y' := Apply(Apply(Apply(y, Begin(2.0, true), cfg), Select(10, "attempt", true, true), cfg), Send, cfg);
            FirstInFlight(y', cfg.hash) && y'.store == FirstBegun(cfg.hash)
  {
    FirstInspected(y, cfg);
    var y1 := Apply(y, Begin(2.0, true), cfg);
    FirstChosen(cfg.hash);
    SelectsTo(y1, 10, "attempt", FirstBegun(cfg.hash), Some(Selection("A", "a", "n:a", "u", First(Armed, cfg.hash))), cfg);
    SendsNow(Apply(y1, Select(10, "attempt", true, true), cfg), cfg);
  }

  lemma FirstIsSent(cfg: Config)
    ensures var y := UpTo(PeerEvents(cfg.hash), 5, cfg); FirstInFlight(y, cfg.hash) && y.store == FirstBegun(cfg.hash)
  {
    hide Apply;
    var es := PeerEvents(cfg.hash);
    FirstIsArmed(cfg);
    FirstSends(UpTo(es, 2, cfg), cfg);
    OneFurther(es, 2, cfg);
    OneFurther(es, 3, cfg);
    OneFurther(es, 4, cfg);
  }

  lemma DisturbedIsReached(cfg: Config)
    ensures var y := Run(INITIAL, PeerEvents(cfg.hash), cfg);
            y.store == Disturbed_(cfg.hash) && FirstInFlight(y, cfg.hash)
  {
    hide Apply;
    var es := PeerEvents(cfg.hash);
    FirstIsSent(cfg);
    OneFurther(es, 5, cfg);
    OthersArmed(cfg.hash);
    ChangesTo(UpTo(es, 5, cfg), es[5].mutation, Disturbed_(cfg.hash), cfg);
    assert es[..6] == es;
  }

  lemma TwoPeersOverdue(items: seq<Item>, itemId: string, height: UInt64)
    requires |items| == 3 && !OverduePeer(items[0], itemId, height)
    requires OverduePeer(items[1], itemId, height) && OverduePeer(items[2], itemId, height)
    ensures Overdue(items, itemId, height) == [1, 2]
  {
    var p := (i: nat) => i < |items| && OverduePeer(items[i], itemId, height);
    assert Indices(3) == [0, 1, 2];
    calc {
      Filter<nat>([0, 1, 2], p);
      { assert [0, 1, 2][1..] == [1, 2]; }
      Filter<nat>([1, 2], p);
      { assert [1, 2][1..] == [2]; }
      [1] + Filter<nat>([2], p);
      { assert [2][1..] == []; }
      [1] + ([2] + Filter<nat>([], p));
      [1, 2];
    }
  }

  /** With different expiries the validation alone is too weak: peers expiring
      at 12 and 13 pass it at height 10, yet no draw can respace both. */
  lemma ValidationWeakerThanRescheduling(first: Item, hash: Bytes -> string)
    requires first.itemId == "a"
    ensures var items := Peers(first, Armed, hash);
            SpacingFits(PeerExpiries(items, "a", 10), 10) && !RoomForPeers(items, "a", 10)
  {
    var items := Peers(first, Armed, hash);
    TwoPeersOverdue(items, "a", 10);
    assert SortByKey([2], ExpiryKey(items)) == [2];
    assert [1, 2][1..] == [2];
    assert SortByKey([1, 2], ExpiryKey(items)) == [1, 2];
    assert OverduePeer(items[1], "a", 10);
  }

  /** In the disturbed store the validation passes and no acceptance can be
      recorded. */
  lemma DisturbedIsUnrecordable(hash: Bytes -> string, equivalent: bool, code: int, message: string, at: Date,
                                rank: nat -> int, draws: nat -> int)
    ensures ValidateRescheduling(Disturbed_(hash), "a", 10).Success?
    ensures RecordAccepted(Disturbed_(hash), "a", equivalent, 10, code, message, at, rank, draws) == Failure(InvalidSchedule)
  {
    var s := Disturbed_(hash);
    var b := s.batches[0];
    assert Location(s.batches, "a") == Some((0, 0));
    ValidationWeakerThanRescheduling(Begun(hash), hash);
    var settled := Settled(Begun(hash), AcceptedAwaiting);
    ValidationWeakerThanRescheduling(settled, hash);
    assert b.items[0 := settled] == Peers(settled, Armed, hash);
    RescheduleSucceedsIff(WithItem(b, 0, settled), "a", 10, rank, draws);
  }

  /** Every item belongs to batch "A", as the run stages it. */
  function PeerConfig(hash: Bytes -> string): Config { Config(hash, (id: string) => "A") }

  lemma PeerEventsAreAdmissible(hash: Bytes -> string)
    ensures AllAdmissible(PeerEvents(hash), PeerConfig(hash))
  {
  }

  lemma RefusedStays(y: System, reply: Reply, rank: nat -> int, draws: nat -> int, cfg: Config)
    requires y.phase.Sending? && AcceptedReply(reply)
    requires var a := y.phase.attempt;
             RecordAccepted(y.store, a.sel.item.itemId, reply.code != 0, a.height, reply.code, reply.message, a.now, rank,
                            draws).Failure?
    ensures Apply(y, Finish(reply, rank, draws, true), cfg) == y.(phase := Idle)
  {
  }

  lemma DisturbedHolds(hash: Bytes -> string)
    ensures Lookup(Disturbed_(hash), ("A", "a")) == Some(Begun(hash))
  {
    var s := Disturbed_(hash);
    assert BatchIndex(s.batches, "A") == Some(0) && ItemIndex(s.batches[0].items, "a") == Some(0);
  }

  /** Arming peers with smaller expiries while the send is in flight reaches a
      state that the validation still passes but in which no reply of the
      network that accepts the payload can be recorded, whatever the shuffle and
      the draws: the item stays submitting. */
  lemma DisturbedAcceptanceIsRefused(hash: Bytes -> string, code: int, message: string, rank: nat -> int,
                                     draws: nat -> int)
    ensures AllAdmissible(PeerEvents(hash), PeerConfig(hash))
    ensures var y := Run(INITIAL, PeerEvents(hash), PeerConfig(hash));
            var y' := Apply(y, Finish(Replied(code, message, true), rank, draws, true), PeerConfig(hash));
            && FirstInFlight(y, hash) && ValidateRescheduling(y.store, "a", 10).Success?
            && y'.phase == Idle && y'.store == y.store && Lookup(y'.store, ("A", "a")) == Some(Begun(hash))
  {
    var y := Run(INITIAL, PeerEvents(hash), PeerConfig(hash));
    PeerEventsAreAdmissible(hash);
    DisturbedIsReached(PeerConfig(hash));
    DisturbedIsUnrecordable(hash, code != 0, code, message, y.phase.attempt.now, rank, draws);
    DisturbedHolds(hash);
    RefusedStays(y, Replied(code, message, true), rank, draws, PeerConfig(hash));
  }
}
