/** The transitions of the outbox snapshot, as functions on snapshot values.
    The class in OutboxSnapshot.dfy is verified against them. */
module OutboxTransitions {
  import opened Base
  import opened OutboxTypes

  // ------------------------------------------------------------------ lookup

  function BatchIndex(batches: seq<Batch>, batchId: string): Option<nat> {
    FirstIndex(batches, (b: Batch) => b.batchId == batchId)
  }

  function ItemIndex(items: seq<Item>, itemId: string): Option<nat> {
    FirstIndex(items, (it: Item) => it.itemId == itemId)
  }

  /** The first batch that holds an item of this id: items are found by id
      alone, whatever batch they were staged under. */
  function Location(batches: seq<Batch>, itemId: string): (r: Option<(nat, nat)>)
    ensures r.Some? ==> r.value.0 < |batches| && r.value.1 < |batches[r.value.0].items|
    ensures r.Some? ==> batches[r.value.0].items[r.value.1].itemId == itemId
  {
    var bi := FirstIndex(batches, (b: Batch) => ItemIndex(b.items, itemId).Some?);
    if bi.None? then None else Some((bi.value, ItemIndex(batches[bi.value].items, itemId).value))
  }

  function WithBatch(s: Snapshot, bi: nat, b: Batch): Snapshot
    requires bi < |s.batches|
  {
    s.(batches := s.batches[bi := b])
  }

  function WithItem(b: Batch, ii: nat, it: Item): Batch
    requires ii < |b.items|
  {
    b.(items := b.items[ii := it])
  }

  function MapItems(items: seq<Item>, f: Item -> Item): (r: seq<Item>)
    ensures |r| == |items| && forall i :: 0 <= i < |r| ==> r[i] == f(items[i])
  {
    seq(|items|, i requires 0 <= i < |items| => f(items[i]))
  }

  function MapBatches(batches: seq<Batch>, f: Batch -> Batch): (r: seq<Batch>)
    ensures |r| == |batches| && forall i :: 0 <= i < |r| ==> r[i] == f(batches[i])
  {
    seq(|batches|, i requires 0 <= i < |batches| => f(batches[i]))
  }

  predicate HasSubmitting(items: seq<Item>) { exists it :: it in items && it.status.Submitting? }

  // ------------------------------------------------------------------- stage

  predicate DistinctItemIds(items: seq<Item>) {
    forall i, j :: 0 <= i < j < |items| ==> items[i].itemId != items[j].itemId
  }

  predicate DistinctTxids(items: seq<Item>) {
    forall i, j :: 0 <= i < j < |items| ==> items[i].txid != items[j].txid
  }

  predicate StageableItem(it: Item, hash: Bytes -> string) {
    it.itemId != "" && it.txid != "" && it.raw != [] && it.digest == hash(it.raw)
    && it.scheduled < it.expiry && it.status.Staged?
  }

  predicate Stageable(b: Batch, hash: Bytes -> string) {
    && b.batchId != "" && b.network != "" && b.account != "" && b.runId != "" && b.url != ""
    && 0 < b.mean <= b.max
    && (b.items != [] || b.nextProof.Some?)
    && b.proofPending.None? && b.proofNotified.None? && b.noticePending.None? && b.noticed.None?
    && b.sentPending.None? && b.sentNotified.None?
    && DistinctItemIds(b.items) && DistinctTxids(b.items)
    && forall it :: it in b.items ==> StageableItem(it, hash)
  }

  predicate SameTransaction(old_: Item, new_: Item) {
    old_.partIndex == new_.partIndex && old_.txid == new_.txid && old_.digest == new_.digest
    && old_.anchor == new_.anchor && old_.expiry == new_.expiry
  }

  /** An incoming item restates a stored one, or is new in id, txid and part. */
  predicate Compatible(existing: seq<Item>, incoming: Item) {
    var i := ItemIndex(existing, incoming.itemId);
    if i.Some? then SameTransaction(existing[i.value], incoming)
    else forall it :: it in existing ==> it.txid != incoming.txid && it.partIndex != incoming.partIndex
  }

  function NewItems(existing: seq<Item>, incoming: seq<Item>): seq<Item> {
    Filter(incoming, (it: Item) => ItemIndex(existing, it.itemId).None?)
  }

  function Merged(e: Batch, b: Batch): Batch {
    var added := NewItems(e.items, b.items);
    var proofMoved := e.nextProof != b.nextProof;
    var merged := e.(url := b.url, mean := b.mean, max := b.max, items := e.items + added);
    var rewatched :=
      if proofMoved then
        merged.(nextProof := b.nextProof, proofPending := None, proofNotified := None,
                noticePending := None, noticed := None)
      else merged;
    if added != [] || proofMoved then rewatched.(sentPending := None, sentNotified := None) else rewatched
  }

  function Stage(s: Snapshot, b: Batch, hash: Bytes -> string): Result<Snapshot, Error> {
    if !Stageable(b, hash) then Failure(InvalidBatch)
    else
      var bi := BatchIndex(s.batches, b.batchId);
      if bi.None? then Success(s.(batches := s.batches + [b]))
      else
        var e := s.batches[bi.value];
        if e.network != b.network || e.account != b.account || e.runId != b.runId then Failure(ConflictingBatch)
        else if (e.url != b.url || e.mean != b.mean || e.max != b.max) && HasSubmitting(e.items) then
          Failure(ConflictingBatch)
        else if exists it :: it in b.items && !Compatible(e.items, it) then Failure(ConflictingBatch)
        else Success(WithBatch(s, bi.value, Merged(e, b)))
  }

  // ---------------------------------------------------------- arm and recover

  predicate DigestsMatch(items: seq<Item>, digests: map<string, string>) {
    forall id :: id in digests ==> exists it :: it in items && it.itemId == id && it.digest == digests[id]
  }

  function ArmItem(it: Item, digests: map<string, string>): Item {
    if it.itemId in digests && it.status.Staged? then it.(status := Armed) else it
  }

  function ArmedBatch(b: Batch, digests: map<string, string>, at: Date): Batch {
    b.(armedAt := if b.armedAt.None? then Some(at) else b.armedAt,
       items := MapItems(b.items, (it: Item) => ArmItem(it, digests)))
  }

  function ArmBatch(s: Snapshot, batchId: string, digests: map<string, string>, at: Date): Result<Snapshot, Error> {
    var bi := BatchIndex(s.batches, batchId);
    if bi.None? then Failure(BatchNotFound)
    else
      var b := s.batches[bi.value];
      if !((digests != map[] || b.nextProof.Some?) && DigestsMatch(b.items, digests)) then Failure(InvalidArmRequest)
      else Success(WithBatch(s, bi.value, ArmedBatch(b, digests, at)))
  }

  function RetryDelay(attemptCount: nat): Date {
    if attemptCount <= 1 then 60.0 else if attemptCount == 2 then 300.0
    else if attemptCount == 3 then 900.0 else 3600.0
  }

  /** A submission whose outcome is unknown goes back to armed, counted. */
  function Uncertain(it: Item, error: string, at: Date): Item {
    it.(status := Armed, attemptCount := it.attemptCount + 1,
        nextAttemptAt := Some(at + RetryDelay(it.attemptCount + 1)), lastError := Some(error),
        attemptId := None, attemptStartedAt := None)
  }

  const UNKNOWN_OUTCOME := "The previous submission outcome is unknown."

  function Interrupted(it: Item, at: Date): Item {
    if it.status.Submitting? then Uncertain(it, UNKNOWN_OUTCOME, at) else it
  }

  function RecoverItem(it: Item, at: Date): Item {
    if it.status.Staged? then it.(status := Armed) else Interrupted(it, at)
  }

  function LowerChar(c: char): char {
    if 'A' <= c <= 'Z' then ((c as int) - ('A' as int) + ('a' as int)) as char else c
  }

  function Lowercased(s: string): string {
    seq(|s|, i requires 0 <= i < |s| => LowerChar(s[i]))
  }

  function RecoveredBatch(b: Batch, url: string, at: Date): Batch {
    var items := MapItems(b.items, (it: Item) => RecoverItem(it, at));
    var armed := exists it :: it in items && it.status.Armed?;
    b.(items := items, url := url, armedAt := if armed && b.armedAt.None? then Some(at) else b.armedAt)
  }

  function RecoverBatch(s: Snapshot, batchId: string, network: string, account: string, runId: string,
                        expected: set<string>, url: string, at: Date): Result<(Snapshot, bool), Error>
  {
    var bi := BatchIndex(s.batches, batchId);
    if expected == {} || url == "" then Failure(InvalidArmRequest)
    else if bi.None? then Success((s, false))
    else
      var b := s.batches[bi.value];
      var known := set t | t in expected :: Lowercased(t);
      if b.network != network || b.account != account || b.runId != runId || b.items == []
         || (exists it :: it in b.items && it.txid !in known)
      then Failure(ConflictingBatch)
      else Success((WithBatch(s, bi.value, RecoveredBatch(b, url, at)), true))
  }

  function RecoverInterrupted(s: Snapshot, at: Date): Snapshot {
    s.(batches := MapBatches(s.batches, (b: Batch) =>
         b.(items := MapItems(b.items, (it: Item) => Interrupted(it, at)))))
  }

  // ------------------------------------------------------------- round robins

  /** The member after `last` on the ring, or the first when `last` is absent. */
  function NextInRing(ring: seq<string>, last: Option<string>): (r: string)
    requires ring != []
    ensures r in ring
  {
    var i := if last.None? then None else FirstIndex(ring, (x: string) => x == last.value);
    if i.Some? then ring[(i.value + 1) % |ring|] else ring[0]
  }

  predicate NeedsInspection(b: Batch) {
    b.armedAt.Some?
    && ((exists it :: it in b.items && it.status.Armed?) || (b.nextProof.Some? && AwaitsProofAnnouncement(b)))
  }

  function Urls(batches: seq<Batch>): seq<string> {
    seq(|batches|, i requires 0 <= i < |batches| => batches[i].url)
  }

  function Scopes(batches: seq<Batch>): seq<string> {
    seq(|batches|, i requires 0 <= i < |batches| => ScopeKey(batches[i]))
  }

  function InspectionRing(s: Snapshot): seq<string> {
    SortedSet(Urls(Filter(s.batches, (b: Batch) => NeedsInspection(b))))
  }

  function NextEndpoint(s: Snapshot): (Snapshot, Option<string>) {
    var ring := InspectionRing(s);
    if ring == [] then (s, None)
    else
      var chosen := NextInRing(ring, s.lastEndpoint);
      (s.(lastEndpoint := Some(chosen)), Some(chosen))
  }

  predicate Due(it: Item, height: UInt64, at: Date) {
    it.status.Armed? && it.scheduled <= height < it.expiry
    && (it.nextAttemptAt.None? || it.nextAttemptAt.value <= at)
  }

  predicate Candidate(b: Batch, endpoint: Option<string>, height: UInt64, at: Date) {
    (endpoint.None? || b.url == endpoint.value) && b.armedAt.Some?
    && exists it :: it in b.items && Due(it, height, at)
  }

  predicate Before(a: Item, b: Item) {
    a.scheduled < b.scheduled || (a.scheduled == b.scheduled && Less(a.txid, b.txid))
  }

  /** The first due item in (scheduled height, txid) order. */
  function FirstDue(items: seq<Item>, height: UInt64, at: Date): (r: Option<Item>)
    ensures r.None? <==> forall it :: it in items ==> !Due(it, height, at)
    ensures r.Some? ==> r.value in items && Due(r.value, height, at)
  {
    if items == [] then None
    else
      var rest := FirstDue(items[1..], height, at);
      assert items == [items[0]] + items[1..];
      if !Due(items[0], height, at) then rest
      else if rest.Some? && Before(rest.value, items[0]) then rest
      else Some(items[0])
  }

  /** Item `i` is due and the first of the due ones in (scheduled height, txid)
      order; of two that order alike the one stored first. */
  predicate LeastDue(items: seq<Item>, i: nat, height: UInt64, at: Date) {
    && i < |items| && Due(items[i], height, at)
    && (forall j :: i < j < |items| && Due(items[j], height, at) ==> !Before(items[j], items[i]))
    && (forall j :: 0 <= j < i && Due(items[j], height, at) ==> Before(items[i], items[j]))
  }

  /** `Before` orders any two items of different height or txid. */
  lemma BeforeIsLinear(a: Item, b: Item, c: Item)
    ensures !Before(b, a) && !Before(c, b) ==> !Before(c, a)
    ensures Before(b, a) && !Before(b, c) ==> Before(c, a)
    ensures Before(b, a) ==> !Before(a, b)
  {
    LessTotal(a.txid, b.txid);
    LessTotal(b.txid, c.txid);
    LessTotal(a.txid, c.txid);
    if Less(a.txid, b.txid) { NoCycle(a.txid, b.txid); }
    if Less(b.txid, a.txid) { NoCycle(b.txid, a.txid); }
    if Less(c.txid, a.txid) && Less(a.txid, b.txid) { LessTransitive(c.txid, a.txid, b.txid); }
    if Less(b.txid, a.txid) && Less(a.txid, c.txid) { LessTransitive(b.txid, a.txid, c.txid); }
    if Less(c.txid, a.txid) { NoCycle(c.txid, a.txid); }
    if Less(c.txid, b.txid) { NoCycle(c.txid, b.txid); }
    LessIrreflexive(a.txid);
  }

  /** The item selected is the first due one in (scheduled height, txid) order. */
  lemma {:induction false} FirstDueIsLeast(items: seq<Item>, height: UInt64, at: Date) returns (i: nat)
    requires FirstDue(items, height, at).Some?
    ensures LeastDue(items, i, height, at) && items[i] == FirstDue(items, height, at).value
  {
    var rest := FirstDue(items[1..], height, at);
    if rest.None? {
      OnlyHeadIsDue(items, height, at);
      i := 0;
    } else {
      i := FirstDueIsLeast(items[1..], height, at);
      if Due(items[0], height, at) && !Before(rest.value, items[0]) {
        HeadIsLeastDue(items, i, height, at);
        i := 0;
      } else {
        TailIsLeastDue(items, i, height, at);
        i := i + 1;
      }
    }
  }

  lemma OnlyHeadIsDue(items: seq<Item>, height: UInt64, at: Date)
    requires items != [] && Due(items[0], height, at)
    requires forall it :: it in items[1..] ==> !Due(it, height, at)
    ensures LeastDue(items, 0, height, at)
  {
    forall j | 0 < j < |items| ensures !Due(items[j], height, at) {
      assert items[1..][j - 1] in items[1..];
    }
  }

  lemma HeadIsLeastDue(items: seq<Item>, i: nat, height: UInt64, at: Date)
    requires items != [] && Due(items[0], height, at)
    requires LeastDue(items[1..], i, height, at) && !Before(items[1..][i], items[0])
    ensures LeastDue(items, 0, height, at)
  {
    forall j | 0 < j < |items| && Due(items[j], height, at) ensures !Before(items[j], items[0]) {
      assert items[j] == items[1..][j - 1];
      BeforeIsLinear(items[0], items[i + 1], items[j]);
      if j - 1 < i { BeforeIsLinear(items[j], items[i + 1], items[0]); }
    }
  }

  lemma TailIsLeastDue(items: seq<Item>, i: nat, height: UInt64, at: Date)
    requires items != [] && LeastDue(items[1..], i, height, at)
    requires Due(items[0], height, at) ==> Before(items[1..][i], items[0])
    ensures LeastDue(items, i + 1, height, at)
  {
    forall j | 0 < j < |items| ensures items[j] == items[1..][j - 1] {
    }
  }

  function Candidates(s: Snapshot, endpoint: Option<string>, height: UInt64, at: Date): seq<Batch> {
    Filter(s.batches, (b: Batch) => Candidate(b, endpoint, height, at))
  }

  function ScopeRing(s: Snapshot, endpoint: Option<string>, height: UInt64, at: Date): seq<string> {
    SortedSet(Scopes(Candidates(s, endpoint, height, at)))
  }

  function SelectDue(s: Snapshot, endpoint: Option<string>, height: UInt64, at: Date)
    : (r: (Snapshot, Option<Selection>))
    ensures r.0 == s.(lastScope := r.0.lastScope)
    ensures r.1.Some? ==> r.0.lastScope == Some(r.1.value.scope)
  {
    var ring := ScopeRing(s, endpoint, height, at);
    if ring == [] then (s, None)
    else
      var scope := NextInRing(ring, s.lastScope);
      var bi := FirstIndex(Candidates(s, endpoint, height, at), (b: Batch) => ScopeKey(b) == scope);
      if bi.None? then (s, None)
      else
        var b := Candidates(s, endpoint, height, at)[bi.value];
        var it := FirstDue(b.items, height, at);
        if it.None? then (s, None)
        else (s.(lastScope := Some(scope)), Some(Selection(b.batchId, b.account, ScopeKey(b), b.url, it.value)))
  }

  // --------------------------------------------------------- expiry and resign

  const EXPIRY_BUCKET := 34_560

  /** The ZIP 318 expiry of a broadcast height, or none when it overflows. */
  function CanonicalExpiry(height: UInt64): Option<UInt64> {
    var expiry := height - height % EXPIRY_BUCKET + 2 * EXPIRY_BUCKET;
    if expiry < UINT64_LIMIT then Some(expiry) else None
  }

  datatype Sweep = Expiring | Resigning(canonical: UInt64)

  predicate Swept(k: Sweep, height: UInt64, it: Item) {
    it.status.Armed?
    && match k
       case Expiring => height >= it.expiry
       case Resigning(canonical) => it.scheduled <= height && it.expiry != canonical
  }

  function SweepOutcome(k: Sweep): Outcome { if k.Expiring? then Expired else NeedsResign }

  function SweepMessage(k: Sweep): Option<string> {
    if k.Expiring? then None else Some("Broadcast height crossed a ZIP 318 expiry boundary.")
  }

  function MakeReceipt(b: Batch, it: Item, outcome: Outcome, height: UInt64, code: Option<int>,
                       message: Option<string>, updates: seq<ScheduleUpdate>, at: Date): Receipt
  {
    Receipt(b.batchId + ":" + it.itemId + ":" + OutcomeName(outcome), b.batchId, it.itemId, b.network,
            b.account, b.runId, it.txid, outcome, height, code, message, at, updates)
  }

  function SweptItem(k: Sweep, height: UInt64, it: Item): Item {
    if Swept(k, height, it) then it.(status := StatusOf(SweepOutcome(k))) else it
  }

  function SweptBatch(k: Sweep, height: UInt64, endpoint: string, b: Batch): Batch {
    if b.url != endpoint || !(exists it :: it in b.items && Swept(k, height, it)) then b
    else
      b.(items := MapItems(b.items, (it: Item) => SweptItem(k, height, it)), armedAt := None, nextProof := None)
  }

  function ItemReceipts(k: Sweep, height: UInt64, b: Batch, items: seq<Item>, at: Date): seq<Receipt> {
    if items == [] then []
    else
      var last := items[|items| - 1];
      ItemReceipts(k, height, b, items[..|items| - 1], at)
      + (if Swept(k, height, last)
         then [MakeReceipt(b, last, SweepOutcome(k), height, None, SweepMessage(k), [], at)] else [])
  }

  function SweepReceipts(k: Sweep, height: UInt64, endpoint: string, batches: seq<Batch>, at: Date): seq<Receipt> {
    if batches == [] then []
    else
      var last := batches[|batches| - 1];
      SweepReceipts(k, height, endpoint, batches[..|batches| - 1], at)
      + (if last.url == endpoint then ItemReceipts(k, height, last, last.items, at) else [])
  }

  function SweepAll(s: Snapshot, k: Sweep, height: UInt64, endpoint: string, at: Date): Snapshot {
    s.(batches := MapBatches(s.batches, (b: Batch) => SweptBatch(k, height, endpoint, b)),
       receipts := s.receipts + SweepReceipts(k, height, endpoint, s.batches, at))
  }

  function ExpireItems(s: Snapshot, height: UInt64, endpoint: string, at: Date): Snapshot {
    SweepAll(s, Expiring, height, endpoint, at)
  }

  function MarkNeedingResign(s: Snapshot, height: UInt64, endpoint: string, at: Date): Snapshot {
    var canonical := CanonicalExpiry(height);
    if canonical.None? then s else SweepAll(s, Resigning(canonical.value), height, endpoint, at)
  }

  // ---------------------------------------------------------- proof readiness

  predicate ProofCandidate(b: Batch, height: UInt64, endpoint: string) {
    b.nextProof.Some? && b.url == endpoint && b.armedAt.Some? && AwaitsProofAnnouncement(b)
    && b.nextProof.value <= height
  }

  predicate EarlierProof(a: Batch, b: Batch)
    requires a.nextProof.Some? && b.nextProof.Some?
  {
    a.nextProof.value < b.nextProof.value || (a.nextProof == b.nextProof && Less(a.batchId, b.batchId))
  }

  /** The candidate with the least (proof height, batch id). */
  function FirstProofCandidate(batches: seq<Batch>, height: UInt64, endpoint: string): (r: Option<Batch>)
    ensures r.None? <==> forall b :: b in batches ==> !ProofCandidate(b, height, endpoint)
    ensures r.Some? ==> r.value in batches && ProofCandidate(r.value, height, endpoint)
  {
    if batches == [] then None
    else
      var rest := FirstProofCandidate(batches[1..], height, endpoint);
      assert batches == [batches[0]] + batches[1..];
      if !ProofCandidate(batches[0], height, endpoint) then rest
      else if rest.Some? && EarlierProof(rest.value, batches[0]) then rest
      else Some(batches[0])
  }

  lemma EarlierProofIsLinear(a: Batch, b: Batch, c: Batch)
    requires a.nextProof.Some? && b.nextProof.Some? && c.nextProof.Some?
    ensures !EarlierProof(b, a) && !EarlierProof(c, b) ==> !EarlierProof(c, a)
    ensures EarlierProof(a, b) ==> !EarlierProof(b, a)
  {
    LessTotal(a.batchId, b.batchId);
    LessTotal(b.batchId, c.batchId);
    if Less(a.batchId, b.batchId) { NoCycle(a.batchId, b.batchId); }
    if Less(c.batchId, a.batchId) && Less(a.batchId, b.batchId) { LessTransitive(c.batchId, a.batchId, b.batchId); }
    if Less(b.batchId, c.batchId) && Less(c.batchId, a.batchId) { LessTransitive(b.batchId, c.batchId, a.batchId); }
    if Less(c.batchId, a.batchId) { NoCycle(c.batchId, a.batchId); }
    LessIrreflexive(a.batchId);
  }

  /** No other candidate comes before the one chosen. */
  lemma {:induction false} FirstProofIsLeast(batches: seq<Batch>, height: UInt64, endpoint: string, b: Batch)
    requires b in batches && ProofCandidate(b, height, endpoint)
    ensures FirstProofCandidate(batches, height, endpoint).Some?
    ensures !EarlierProof(b, FirstProofCandidate(batches, height, endpoint).value)
  {
    var rest := FirstProofCandidate(batches[1..], height, endpoint);
    assert batches == [batches[0]] + batches[1..];
    var first := FirstProofCandidate(batches, height, endpoint).value;
    if b in batches[1..] {
      FirstProofIsLeast(batches[1..], height, endpoint, b);
      EarlierProofIsLinear(first, rest.value, b);
    } else {
      EarlierProofIsLinear(first, batches[0], b);
      LessIrreflexive(b.batchId);
    }
  }

  function MarkProofReady(s: Snapshot, height: UInt64, endpoint: string, at: Date): Snapshot {
    var c := FirstProofCandidate(s.batches, height, endpoint);
    if c.None? then s
    else
      var bi := BatchIndex(s.batches, c.value.batchId);
      if bi.None? then s
      else
        var b := s.batches[bi.value];
        WithBatch(s, bi.value, if b.proofPending.None? then b.(proofPending := Some(at)) else b)
  }

  // --------------------------------------------------------------- submission

  function BeginSubmission(s: Snapshot, itemId: string, attemptId: string, at: Date): Result<Snapshot, Error> {
    var at_ := Location(s.batches, itemId);
    if at_.None? then Failure(ItemNotFound)
    else
      var (bi, ii) := at_.value;
      var it := s.batches[bi].items[ii];
      if !it.status.Armed? then Failure(InvalidTransition)
      else
        Success(WithBatch(s, bi, WithItem(s.batches[bi], ii,
          it.(status := Submitting, attemptId := Some(attemptId), attemptStartedAt := Some(at)))))
  }

  /** An armed peer of the item under submission that is already overdue. */
  predicate OverduePeer(it: Item, itemId: string, height: UInt64) {
    it.itemId != itemId && it.status.Armed? && it.scheduled <= height
  }

  function Indices(n: nat): (r: seq<nat>)
    ensures |r| == n && forall i :: 0 <= i < n ==> r[i] == i
    ensures forall i: nat :: i in r <==> i < n
  {
    if n == 0 then [] else Indices(n - 1) + [n - 1]
  }

  function Overdue(items: seq<Item>, itemId: string, height: UInt64): (r: seq<nat>)
    ensures forall i: nat :: i in r <==> i < |items| && OverduePeer(items[i], itemId, height)
  {
    Filter(Indices(|items|), (i: nat) => i < |items| && OverduePeer(items[i], itemId, height))
  }

  function ExpiryKey(items: seq<Item>): nat -> int {
    (i: nat) => if i < |items| then items[i].expiry else 0
  }

  /** The expiries of the overdue peers in ascending order. */
  function PeerExpiries(items: seq<Item>, itemId: string, height: UInt64): seq<int> {
    var order := SortByKey(Overdue(items, itemId, height), ExpiryKey(items));
    seq(|order|, j requires 0 <= j < |order| => ExpiryKey(items)(order[j]))
  }

  /** One block per peer fits: the j-th could still go out j + 1 blocks on. */
  predicate SpacingFits(expiries: seq<int>, height: UInt64) {
    forall j :: 0 <= j < |expiries| ==> height + j + 1 < expiries[j]
  }

  function ValidateRescheduling(s: Snapshot, itemId: string, height: UInt64): Result<(), Error> {
    var at_ := Location(s.batches, itemId);
    if at_.None? then Failure(ItemNotFound)
    else if SpacingFits(PeerExpiries(s.batches[at_.value.0].items, itemId, height), height) then Success(())
    else Failure(InvalidSchedule)
  }

  function RecordUncertain(s: Snapshot, itemId: string, error: string, at: Date): Result<Snapshot, Error> {
    var at_ := Location(s.batches, itemId);
    if at_.None? then Failure(ItemNotFound)
    else
      var (bi, ii) := at_.value;
      var it := s.batches[bi].items[ii];
      if !it.status.Submitting? then Failure(InvalidTransition)
      else Success(WithBatch(s, bi, WithItem(s.batches[bi], ii, Uncertain(it, error, at))))
  }

  function RecordCancelled(s: Snapshot, itemId: string, error: string): Result<Snapshot, Error> {
    var at_ := Location(s.batches, itemId);
    if at_.None? then Failure(ItemNotFound)
    else
      var (bi, ii) := at_.value;
      var it := s.batches[bi].items[ii];
      if !it.status.Submitting? then Failure(InvalidTransition)
      else
        Success(WithBatch(s, bi, WithItem(s.batches[bi], ii,
          it.(status := Armed, nextAttemptAt := None, lastError := Some(error),
              attemptId := None, attemptStartedAt := None))))
  }

  function Settled(it: Item, status: Status): Item {
    it.(status := status, attemptId := None, attemptStartedAt := None, nextAttemptAt := None)
  }

  /** The delay a random draw yields: at least one block, at most `max`. */
  function SampleDelay(draw: int, max: UInt64): UInt64
    requires max > 0
  {
    Min(if draw < 1 then 1 else draw, max)
  }

  function ReplacingSchedule(it: Item, scheduled: UInt64, start: UInt64): Item {
    it.(scheduled := scheduled, scheduleStart := start, attemptId := None, attemptStartedAt := None)
  }

  /** Respaces the peers in `order` from `height + elapsed` on, reading one
      random draw each, and reports the new schedules in that order. */
  function Respace(items: seq<Item>, order: seq<nat>, height: UInt64, max: UInt64, elapsed: UInt64,
                   k: nat, draws: nat -> int): Result<(seq<Item>, seq<ScheduleUpdate>), Error>
    requires max > 0
    requires forall j :: 0 <= j < |order| ==> order[j] < |items|
    decreases |order|
  {
    if order == [] then Success((items, []))
    else
      var it := items[order[0]];
      var remaining := |order| - 1;
      var latest := it.expiry - remaining - 1;
      var current := SaturatingAdd(height, elapsed);
      if it.expiry <= remaining + 1 || latest <= current then Failure(InvalidSchedule)
      else
        var elapsed' := SaturatingAdd(elapsed, SampleDelay(draws(k), Min(max, latest - current)));
        var scheduled := SaturatingAdd(height, elapsed');
        var rest := Respace(items[order[0] := ReplacingSchedule(it, scheduled, height)], order[1..],
                            height, max, elapsed', k + 1, draws);
        if rest.Failure? then Failure(rest.error)
        else Success((rest.value.0, [ScheduleUpdate(it.itemId, scheduled, height)] + rest.value.1))
  }

  /** Shuffled by an arbitrary ranking, then stably sorted by expiry. */
  function RespacingOrder(items: seq<Item>, itemId: string, height: UInt64, rank: nat -> int): (r: seq<nat>)
    ensures |r| == |Overdue(items, itemId, height)|
    ensures forall i: nat :: i in r <==> i < |items| && OverduePeer(items[i], itemId, height)
  {
    SortByKey(SortByKey(Overdue(items, itemId, height), rank), ExpiryKey(items))
  }

  function Reschedule(b: Batch, itemId: string, height: UInt64, rank: nat -> int, draws: nat -> int)
    : Result<(seq<Item>, seq<ScheduleUpdate>), Error>
  {
    if !(b.mean > 0 && b.max > 0 && b.mean <= b.max) then Failure(InvalidSchedule)
    else
      var order := RespacingOrder(b.items, itemId, height, rank);
      assert forall j :: 0 <= j < |order| ==> order[j] in order;
      Respace(b.items, order, height, b.max, 0, 0, draws)
  }

  function RecordAccepted(s: Snapshot, itemId: string, equivalent: bool, height: UInt64, code: int,
                          message: string, at: Date, rank: nat -> int, draws: nat -> int): Result<Snapshot, Error>
  {
    var at_ := Location(s.batches, itemId);
    if at_.None? then Failure(ItemNotFound)
    else
      var (bi, ii) := at_.value;
      var it := s.batches[bi].items[ii];
      if !it.status.Submitting? then Failure(InvalidTransition)
      else
        var b := WithItem(s.batches[bi], ii, Settled(it, AcceptedAwaiting));
        var respaced := Reschedule(b, itemId, height, rank, draws);
        if respaced.Failure? then Failure(respaced.error)
        else
          var receipt := MakeReceipt(b, it, if equivalent then AcceptedEquivalent else Accepted, height,
                                     Some(code), Some(message), respaced.value.1, at);
          Success(WithBatch(s, bi, b.(items := respaced.value.0)).(receipts := s.receipts + [receipt]))
  }

  function RecordRejected(s: Snapshot, itemId: string, height: UInt64, code: int, message: string, at: Date)
    : Result<Snapshot, Error>
  {
    var at_ := Location(s.batches, itemId);
    if at_.None? then Failure(ItemNotFound)
    else
      var (bi, ii) := at_.value;
      var it := s.batches[bi].items[ii];
      if !it.status.Submitting? then Failure(InvalidTransition)
      else
        var b := WithItem(s.batches[bi], ii, Settled(it, RejectedAwaiting)).(armedAt := None, nextProof := None);
        var receipt := MakeReceipt(b, it, Rejected, height, Some(code), Some(message), [], at);
        Success(WithBatch(s, bi, b).(receipts := s.receipts + [receipt]))
  }

  // ------------------------------------------------- acknowledging and removal

  function AcknowledgedItemIds(s: Snapshot, ids: set<string>): set<string> {
    set r | r in s.receipts && r.receiptId in ids :: r.itemId
  }

  /** Batches closed by a terminal outcome that keep no unacknowledged receipt. */
  predicate ClosedByAcknowledgement(s: Snapshot, ids: set<string>, batchId: string) {
    (exists r :: r in s.receipts && r.receiptId in ids && Terminal(r.outcome) && r.batchId == batchId)
    && forall r :: r in s.receipts && r.receiptId !in ids ==> r.batchId != batchId
  }

  predicate Emptied(b: Batch) { b.items == [] && b.nextProof.None? && b.sentPending.None? }

  function WithoutItems(b: Batch, itemIds: set<string>): Batch {
    b.(items := Filter(b.items, (it: Item) => it.itemId !in itemIds))
  }

  function Acknowledge(s: Snapshot, ids: set<string>): Snapshot {
    var open := Filter(s.batches, (b: Batch) => !ClosedByAcknowledgement(s, ids, b.batchId));
    var gone := AcknowledgedItemIds(s, ids);
    var trimmed := MapBatches(open, (b: Batch) => WithoutItems(b, gone));
    s.(batches := Filter(trimmed, (b: Batch) => !Emptied(b)),
       receipts := Filter(s.receipts, (r: Receipt) => r.receiptId !in ids))
  }

  function RemoveAt(batches: seq<Batch>, bi: nat): seq<Batch>
    requires bi < |batches|
  {
    batches[..bi] + batches[bi + 1..]
  }

  function Discard(s: Snapshot, batchId: string): Result<(Snapshot, bool), Error> {
    var bi := BatchIndex(s.batches, batchId);
    if bi.None? then Success((s, false))
    else if (exists it :: it in s.batches[bi.value].items && (it.status.Submitting? || it.attemptCount > 0))
            || (exists r :: r in s.receipts && r.batchId == batchId)
    then Failure(ConflictingBatch)
    else Success((s.(batches := RemoveAt(s.batches, bi.value)), true))
  }

  function ScopePrefix(network: string, account: string): string { network + ":" + account + ":" }

  function ScopeBatchIds(s: Snapshot, network: string, account: string): set<string> {
    set b | b in s.batches && b.network == network && b.account == account :: b.batchId
  }

  function Revoke(s: Snapshot, network: string, account: string): Snapshot {
    var ids := ScopeBatchIds(s, network, account);
    s.(batches := Filter(s.batches, (b: Batch) => b.batchId !in ids),
       receipts := Filter(s.receipts, (r: Receipt) => r.batchId !in ids),
       announced := Filter(s.announced, (id: string) => !(ScopePrefix(network, account) <= id)),
       lastScope := if s.lastScope == Some(network + ":" + account) then None else s.lastScope)
  }

  // -------------------------------------------------- "transfers sent" marker

  predicate FullySent(b: Batch) {
    b.nextProof.None? && b.items != [] && forall it :: it in b.items ==> it.status.AcceptedAwaiting?
  }

  function MarkSent(s: Snapshot, batchId: string, at: Date): (Snapshot, bool) {
    var bi := BatchIndex(s.batches, batchId);
    if bi.None? then (s, false)
    else
      var b := s.batches[bi.value];
      if !FullySent(b) || b.sentNotified.Some? || batchId in s.announced then (s, false)
      else (WithBatch(s, bi.value, if b.sentPending.None? then b.(sentPending := Some(at)) else b), true)
  }

  function AcknowledgeSent(s: Snapshot, batchId: string, at: Date): Result<Snapshot, Error> {
    var bi := BatchIndex(s.batches, batchId);
    if bi.None? then Failure(BatchNotFound)
    else
      var b := s.batches[bi.value];
      if b.sentPending.None? then Failure(InvalidTransition)
      else
        var marked := b.(sentPending := None, sentNotified := Some(at));
        var announced := if batchId in s.announced then s.announced else s.announced + [batchId];
        if b.items == [] && b.nextProof.None?
        then Success(s.(batches := RemoveAt(s.batches, bi.value), announced := announced))
        else Success(WithBatch(s, bi.value, marked).(announced := announced))
  }

  // ---------------------------------------------------------------- reporting

  /** What is kept as proof that a record may have reached the network. */
  predicate Evidence(it: Item) {
    it.attemptCount > 0 || it.status in {Submitting, AcceptedAwaiting, RejectedAwaiting}
  }

  function AttemptedTxids(items: seq<Item>): (r: seq<string>)
    ensures forall it :: it in items && Evidence(it) ==> it.txid in r
    ensures forall t :: t in r ==> exists it :: it in items && Evidence(it) && it.txid == t
  {
    if items == [] then []
    else
      assert items == [items[0]] + items[1..];
      (if Evidence(items[0]) then [items[0].txid] else []) + AttemptedTxids(items[1..])
  }

  predicate OfRun(b: Batch, network: string, account: string, runId: string) {
    b.network == network && b.account == account && b.runId == runId
  }

  /** The txids `listAttemptedTxids` reports for one run: those of exactly the
      stored items of that run that carry evidence of an attempt. */
  function ListAttempted(batches: seq<Batch>, network: string, account: string, runId: string): (r: seq<string>)
    ensures forall b, it :: b in batches && OfRun(b, network, account, runId) && it in b.items && Evidence(it)
              ==> it.txid in r
    ensures forall t :: t in r ==>
              exists b, it :: b in batches && OfRun(b, network, account, runId) && it in b.items
                              && Evidence(it) && it.txid == t
  {
    if batches == [] then []
    else
      assert batches == [batches[0]] + batches[1..];
      (if OfRun(batches[0], network, account, runId) then AttemptedTxids(batches[0].items) else [])
      + ListAttempted(batches[1..], network, account, runId)
  }

  /** The stored transaction that `listReceipts` reports beside a receipt. */
  function ReceiptTransaction(s: Snapshot, r: Receipt): Option<Item> {
    var bi := BatchIndex(s.batches, r.batchId);
    if bi.None? then None
    else
      var ii := ItemIndex(s.batches[bi.value].items, r.itemId);
      if ii.None? then None else Some(s.batches[bi.value].items[ii.value])
  }

  function MinOf(heights: seq<UInt64>): Option<UInt64> {
    if heights == [] then None
    else
      var rest := MinOf(heights[1..]);
      if rest.Some? && rest.value < heights[0] then rest else Some(heights[0])
  }

  function ArmedHeights(items: seq<Item>): seq<UInt64> {
    if items == [] then []
    else (if items[0].status.Armed? then [items[0].scheduled] else []) + ArmedHeights(items[1..])
  }

  function ActionHeights(batches: seq<Batch>, endpoint: string): seq<UInt64> {
    if batches == [] then []
    else
      var b := batches[0];
      (if b.url == endpoint then ArmedHeights(b.items) else [])
      + (if b.url == endpoint && b.armedAt.Some? && AwaitsProofAnnouncement(b) && b.proofPending.None?
            && b.nextProof.Some?
         then [b.nextProof.value] else [])
      + ActionHeights(batches[1..], endpoint)
  }

  function NextActionHeight(s: Snapshot, endpoint: string): Option<UInt64> {
    MinOf(ActionHeights(s.batches, endpoint))
  }
}
