/** The coordinator of the preparation alerts: one summary that replaces itself,
    callers that wait for whichever submission is current, late callbacks. */
module Coordinator {
  import opened Base

  type Key = string
  type CallId = nat

  datatype Kind = ConfirmedWaveReady | NeedsForegroundRecovery | TerminalFailure

  function KindName(k: Kind): string {
    match k
    case ConfirmedWaveReady => "confirmedWaveReady"
    case NeedsForegroundRecovery => "needsForegroundRecovery"
    case TerminalFailure => "terminalFailure"
  }

  datatype Alert = Alert(scope: string, kind: Kind, fingerprint: string)

  function KeyOf(a: Alert): Key { a.scope + "|" + KindName(a.kind) }

  type Alerts = map<Key, Alert>

  /** The persisted batch. */
  datatype Batch = Batch(pending: Alerts, accepted: map<Key, string>, deadline: Option<Date>)

  /** A caller of `enqueue`, or the coordinator's own rescheduling. */
  datatype Waiter = Caller(call: CallId) | Itself

  datatype Answer = Answer(call: CallId, submitted: bool)

  /** The batch with the current generation and its waiters; the submissions
      whose callback is outstanding, with the summary each carries; the pending
      requests queries not yet answered, with the time each was made; and the
      completions run so far. */
  datatype State = State(
    batch: Batch, generation: nat, waiters: seq<Waiter>, adds: map<nat, Alerts>, queries: seq<Date>,
    issued: set<CallId>, answers: seq<Answer>)

  const EMPTY_BATCH := Batch(map[], map[], None)

  /** The coordinator as a launch finds it: the batch it persisted, no callers. */
  function Launched(persisted: Batch): State { State(persisted, 0, [], map[], [], {}, []) }

  const AGGREGATION_WINDOW: Date := 30.0

  // ------------------------------------------------------------------ batch

  function Expired(b: Batch, now: Date): Batch {
    if b.deadline.Some? && b.deadline.value <= now then b.(pending := map[], deadline := None) else b
  }

  predicate Known(b: Batch, a: Alert) {
    || (KeyOf(a) in b.accepted && b.accepted[KeyOf(a)] == a.fingerprint)
    || (KeyOf(a) in b.pending && b.pending[KeyOf(a)] == a)
  }

  function Added(b: Batch, a: Alert): Batch {
    if Known(b, a) then b else b.(pending := b.pending[KeyOf(a) := a])
  }

  function AddedAll(b: Batch, alerts: seq<Alert>): Batch {
    if alerts == [] then b else Added(AddedAll(b, alerts[..|alerts| - 1]), alerts[|alerts| - 1])
  }

  /** Whether some alert was news when its turn came, even if a later one put
      the previous alert back. */
  predicate AddsAny(b: Batch, alerts: seq<Alert>) {
    alerts != [] && (AddsAny(b, alerts[..|alerts| - 1]) || !Known(AddedAll(b, alerts[..|alerts| - 1]), alerts[|alerts| - 1]))
  }

  predicate AllAccepted(b: Batch, alerts: seq<Alert>) {
    forall i :: 0 <= i < |alerts| ==>
      KeyOf(alerts[i]) in b.accepted && b.accepted[KeyOf(alerts[i])] == alerts[i].fingerprint
  }

  function Fingerprints(alerts: Alerts): map<Key, string> { map k | k in alerts :: alerts[k].fingerprint }

  function MarkAccepted(b: Batch, alerts: Alerts): Batch { b.(accepted := b.accepted + Fingerprints(alerts)) }

  predicate OfScope(k: Key, scope: string) { k == scope || scope + "|" <= k }

  function Unresolved(b: Batch, scope: string): Batch {
    Batch(map k | k in b.pending && b.pending[k].scope != scope :: b.pending[k],
          map k | k in b.accepted && !OfScope(k, scope) :: b.accepted[k], None)
  }

  predicate OfSomeScope(k: Key, scopes: set<string>) { exists s :: s in scopes && OfScope(k, s) }

  function Retained(b: Batch, scopes: set<string>): Batch {
    var pending := map k | k in b.pending && b.pending[k].scope in scopes :: b.pending[k];
    Batch(pending, map k | k in b.accepted && OfSomeScope(k, scopes) :: b.accepted[k],
          if pending == map[] then None else b.deadline)
  }

  /** A deadline carries over only while it is ahead and something is left. */
  function CarriedOver(b: Batch, deadline: Option<Date>, now: Date): Option<Date> {
    if b.pending != map[] && deadline.Some? && deadline.value > now then deadline else None
  }

  // ------------------------------------------------------------- coordinator

  function Answers(waiters: seq<Waiter>, submitted: bool): seq<Answer> {
    if waiters == [] then []
    else
      var last := waiters[|waiters| - 1];
      Answers(waiters[..|waiters| - 1], submitted) + if last.Caller? then [Answer(last.call, submitted)] else []
  }

  function Flushed(s: State, submitted: bool): State {
    s.(waiters := [], answers := s.answers + Answers(s.waiters, submitted))
  }

  /** Submits the summary of what is pending under a new generation, or has
      nothing to announce. */
  function Scheduled(s: State, now: Date, w: Waiter): State {
    if s.batch.pending == map[] then s.(answers := s.answers + Answers([w], true))
    else
      var deadline := if s.batch.deadline.Some? then s.batch.deadline else Some(now + AGGREGATION_WINDOW);
      s.(batch := s.batch.(deadline := deadline), generation := s.generation + 1, waiters := s.waiters + [w],
         adds := s.adds[s.generation + 1 := s.batch.pending])
  }

  function Enqueued(s0: State, call: CallId, alerts: seq<Alert>, now: Date): State {
    var s := s0.(issued := s0.issued + {call});
    if alerts == [] then s.(answers := s.answers + [Answer(call, true)])
    else
      var fresh_ := Expired(s.batch, now);
      var added := AddedAll(fresh_, alerts);
      if !AddsAny(fresh_, alerts) then
        var same := s.(batch := fresh_);
        if AllAccepted(fresh_, alerts) then same.(answers := s.answers + [Answer(call, true)])
        else Scheduled(same, now, Caller(call))
      else
        var deadline := if added.deadline.None? then Some(now + AGGREGATION_WINDOW) else added.deadline;
        Scheduled(s.(batch := added.(deadline := deadline)), now, Caller(call))
  }

  /** Nothing is left to announce: whoever waits got what it needed. */
  function Withdrawn(s: State): State { Flushed(s.(generation := s.generation + 1), true) }

  function Resolved(s: State, scope: string, now: Date): State {
    var left := Unresolved(s.batch, scope);
    var kept := s.(batch := left.(deadline := CarriedOver(left, s.batch.deadline, now)));
    if left.pending == map[] then Withdrawn(kept) else kept.(queries := kept.queries + [now])
  }

  function RetainedOnly(s: State, scopes: set<string>, now: Date): State {
    var left := Retained(s.batch, scopes);
    var kept := s.(batch := left.(deadline := CarriedOver(left, s.batch.deadline, now)));
    if left.pending == map[] then Withdrawn(kept)
    else if left.pending != s.batch.pending then kept.(queries := kept.queries + [now])
    else kept
  }

  /** The answer to a query: a summary not delivered yet is replaced. */
  function QueryAnswered(s: State, i: nat, summaryIsPending: bool): State
    requires i < |s.queries|
  {
    var now := s.queries[i];
    var taken := s.(queries := s.queries[..i] + s.queries[i + 1..]);
    if s.batch.pending == map[] then taken
    else if !summaryIsPending then taken.(batch := s.batch.(deadline := None))
    else Scheduled(taken, now, Itself)
  }

  function DeliveredCleared(s: State, now: Date): State {
    if s.batch.pending == map[] then s else Scheduled(s.(batch := s.batch.(deadline := None)), now, Itself)
  }

  function Suppressed(s: State): State {
    Withdrawn(s.(batch := MarkAccepted(s.batch, s.batch.pending).(pending := map[], deadline := None)))
  }

  function AllCleared(s: State): State { Flushed(s.(batch := EMPTY_BATCH, generation := s.generation + 1), false) }

  function AddFinished(s: State, generation: nat, failed: bool): State
    requires generation in s.adds
  {
    var taken := s.(adds := s.adds - {generation});
    if generation != s.generation then taken
    else Flushed(if failed then taken else taken.(batch := MarkAccepted(s.batch, s.adds[generation])), !failed)
  }

  datatype Event =
    | Enqueue(call: CallId, alerts: seq<Alert>, now: Date)
    | Resolve(scope: string, now: Date)
    | Retain(scopes: set<string>, now: Date)
    | QueryReply(i: nat, summaryIsPending: bool)
    | ClearDelivered(now: Date)
    | Suppress
    | ClearAll
    | AddReply(generation: nat, failed: bool)

  predicate Enabled(s: State, e: Event) {
    match e
    case Enqueue(call, _, _) => call !in s.issued
    case QueryReply(i, _) => i < |s.queries|
    case AddReply(generation, _) => generation in s.adds
    case other => true
  }

  /** What cannot happen does not. */
  function Step(s: State, e: Event): State {
    if !Enabled(s, e) then s
    else
      match e
      case Enqueue(call, alerts, now) => Enqueued(s, call, alerts, now)
      case Resolve(scope, now) => Resolved(s, scope, now)
      case Retain(scopes, now) => RetainedOnly(s, scopes, now)
      case QueryReply(i, summaryIsPending) => QueryAnswered(s, i, summaryIsPending)
      case ClearDelivered(now) => DeliveredCleared(s, now)
      case Suppress => Suppressed(s)
      case ClearAll => AllCleared(s)
      case AddReply(generation, failed) => AddFinished(s, generation, failed)
  }

  function Run(s: State, events: seq<Event>): State {
    if events == [] then s else Step(Run(s, events[..|events| - 1]), events[|events| - 1])
  }
}
