/** The coordinator as the object it is: its methods change the fields in place,
    keep what CoordinatorSafety.dfy proves, and perform the steps it speaks of. */
module CoordinatorObject {
  import opened Base
  import opened Coordinator
  import opened CoordinatorSafety
  import opened CoordinatorMeaning

  /** The key of an alert names its scope. */
  lemma KeyIsOfScope(a: Alert)
    ensures OfScope(KeyOf(a), a.scope)
  {
    assert KeyOf(a) == (a.scope + "|") + KindName(a.kind);
  }

  class NotificationCoordinator {
    var pendingEvents: Alerts
    var acceptedFingerprints: map<Key, string>
    var batchDeadline: Option<Date>
    var submissionGeneration: nat
    var pendingSubmissionCompletions: seq<Waiter>
    var adds: map<nat, Alerts>
    var queries: seq<Date>
    ghost var issued: set<CallId>
    ghost var answers: seq<Answer>

    ghost function Value(): State
      reads this
    {
      State(Batch(pendingEvents, acceptedFingerprints, batchDeadline), submissionGeneration,
            pendingSubmissionCompletions, adds, queries, issued, answers)
    }

    /** Each completion has run once or waits once, and whoever waits has a
        callback to wait for. */
    ghost predicate Valid()
      reads this
    {
      OnceEach(Value()) && Attended(Value())
    }

    /** The coordinator performed `e`, which the theorems speak of. */
    twostate predicate Performed(e: Event)
      reads this
    {
      Enabled(old(Value()), e) && Value() == Step(old(Value()), e) && Valid()
    }

    twostate lemma PerformingKeeps(e: Event)
      requires old(Valid()) && Enabled(old(Value()), e) && Value() == Step(old(Value()), e)
      ensures Performed(e)
    {
      OnceEachStep(old(Value()), e);
      AttendedStep(old(Value()), e);
    }

    constructor (persisted: Batch)
      ensures Valid() && Value() == Launched(persisted)
    {
      pendingEvents, acceptedFingerprints, batchDeadline := persisted.pending, persisted.accepted, persisted.deadline;
      submissionGeneration, pendingSubmissionCompletions, adds, queries := 0, [], map[], [];
      issued, answers := {}, [];
      new;
      CompletionsRunOnce(persisted, []);
    }

    /** Nobody waits any more and everyone who did was told `submitted`. */
    twostate predicate AllToldOf(submitted: bool)
      reads this
    {
      && pendingSubmissionCompletions == []
      && forall call :: Caller(call) in old(pendingSubmissionCompletions) ==> Answer(call, submitted) in answers
    }

    /** Answers every caller waiting on the current summary, in order. */
    method FlushSubmissionCompletions(submitted: bool)
      modifies this
      ensures Value() == Flushed(old(Value()), submitted) && AllToldOf(submitted)
    {
      var completions := pendingSubmissionCompletions;
      pendingSubmissionCompletions := [];
      for i := 0 to |completions|
        invariant pendingSubmissionCompletions == []
        invariant Value() == old(Value()).(waiters := [], answers := old(answers) + Answers(completions[..i], submitted))
      {
        assert completions[..i + 1][..i] == completions[..i];
        Complete(completions[i], submitted);
      }
      assert completions[..|completions|] == completions;
      forall call | Caller(call) in completions ensures Answer(call, submitted) in answers {
        AnswersEveryone(completions, submitted, call);
      }
    }

    method Complete(w: Waiter, submitted: bool)
      modifies this`answers
      ensures answers == old(answers) + if w.Caller? then [Answer(w.call, submitted)] else []
    {
      if w.Caller? { answers := answers + [Answer(w.call, submitted)]; }
    }

    method ExpireBatchIfNeeded(now: Date)
      modifies this`pendingEvents, this`batchDeadline
      ensures Value() == old(Value()).(batch := Expired(old(Value().batch), now))
    {
      if !(batchDeadline.Some? && batchDeadline.value <= now) { return; }
      pendingEvents := map[];
      batchDeadline := None;
    }

    method EnqueueOne(alert: Alert) returns (changed: bool)
      modifies this`pendingEvents
      ensures Value() == old(Value()).(batch := Added(old(Value().batch), alert))
      ensures changed <==> !Known(old(Value().batch), alert)
    {
      var key := KeyOf(alert);
      if key in acceptedFingerprints && acceptedFingerprints[key] == alert.fingerprint { return false; }
      if key in pendingEvents && pendingEvents[key] == alert { return false; }
      pendingEvents := pendingEvents[key := alert];
      return true;
    }

    method SchedulePendingSummary(now: Date, w: Waiter)
      modifies this
      ensures Value() == Scheduled(old(Value()), now, w)
    {
      if pendingEvents == map[] {
        Complete(w, true);
        assert Answers([w], true) == if w.Caller? then [Answer(w.call, true)] else [];
        return;
      }
      if batchDeadline.None? { batchDeadline := Some(now + AGGREGATION_WINDOW); }
      submissionGeneration := submissionGeneration + 1;
      pendingSubmissionCompletions := pendingSubmissionCompletions + [w];
      adds := adds[submissionGeneration := pendingEvents];
    }

    /** The caller is answered at once because all its alerts were accepted, or
        joins a submission that carries every other one. */
    method EnqueueAlerts(call: CallId, alerts: seq<Alert>, now: Date)
      requires Valid() && call !in issued
      modifies this
      ensures Performed(Enqueue(call, alerts, now))
      ensures AnsweredAsAccepted(old(Value()), Value(), call, alerts) || Joined(old(Value()), Value(), call)
      ensures forall i: nat :: Lasts(alerts, i) ==> Carried(Value(), call, alerts[i]) || Accepted(Value().batch, alerts[i])
    {
      ghost var before := Value();
      PerformEnqueue(call, alerts, now);
      PerformingKeeps(Enqueue(call, alerts, now));
      EnqueueAnswersOrJoins(before, call, alerts, now);
      forall i: nat | Lasts(alerts, i) ensures Carried(Value(), call, alerts[i]) || Accepted(Value().batch, alerts[i]) {
        EnqueueCarries(before, call, alerts, now, i);
      }
    }

    method PerformEnqueue(call: CallId, alerts: seq<Alert>, now: Date)
      modifies this
      ensures Value() == Enqueued(old(Value()), call, alerts, now)
    {
      issued := issued + {call};
      if alerts == [] {
        Complete(Caller(call), true);
        return;
      }
      ExpireBatchIfNeeded(now);
      var changed := AddAlerts(alerts);
      if !changed {
        if AllAccepted(Batch(pendingEvents, acceptedFingerprints, batchDeadline), alerts) {
          Complete(Caller(call), true);
        } else {
          SchedulePendingSummary(now, Caller(call));
        }
        return;
      }
      if batchDeadline.None? { batchDeadline := Some(now + AGGREGATION_WINDOW); }
      SchedulePendingSummary(now, Caller(call));
    }

    method AddAlerts(alerts: seq<Alert>) returns (changed: bool)
      modifies this`pendingEvents
      ensures Value() == old(Value()).(batch := AddedAll(old(Value().batch), alerts))
      ensures changed <==> AddsAny(old(Value().batch), alerts)
      ensures !changed ==> Value() == old(Value())
    {
      ghost var b := Value().batch;
      changed := false;
      for i := 0 to |alerts|
        invariant Value() == old(Value()).(batch := AddedAll(b, alerts[..i]))
        invariant changed <==> AddsAny(b, alerts[..i])
        invariant !changed ==> Value() == old(Value())
      {
        assert alerts[..i + 1][..i] == alerts[..i];
        var added := EnqueueOne(alerts[i]);
        changed := added || changed;
      }
      assert alerts[..|alerts|] == alerts;
    }

    /** Advances the generation, takes the summary down and answers everyone. */
    method Withdraw()
      modifies this
      ensures Value() == Withdrawn(old(Value())) && AllToldOf(true)
    {
      submissionGeneration := submissionGeneration + 1;
      FlushSubmissionCompletions(true);
    }

    /** Forgets the alerts of one scope; with nothing left to announce, whoever
        waits is told so. */
    method ResolveScope(scope: string, now: Date)
      requires Valid()
      modifies this
      ensures Performed(Resolve(scope, now))
      ensures forall a: Alert :: a.scope == scope ==> !Pending(pendingEvents, a) && !Accepted(Value().batch, a)
      ensures forall k :: k in pendingEvents <==> k in old(pendingEvents) && old(pendingEvents)[k].scope != scope
      ensures forall k :: k in acceptedFingerprints
                          <==> k in old(acceptedFingerprints) && k != scope && !HasPrefix(k, scope + "|")
      ensures forall k :: k in acceptedFingerprints ==> acceptedFingerprints[k] == old(acceptedFingerprints)[k]
      ensures pendingEvents == map[] ==> AllToldOf(true)
    {
      ghost var before := Value();
      ResolveIs(before, scope, now);
      ForgetScope(scope, now);
      PerformingKeeps(Resolve(scope, now));
      hide Resolved;
      forall a: Alert | a.scope == scope ensures !Accepted(Value().batch, a) {
        KeyIsOfScope(a);
      }
    }

    method ForgetScope(scope: string, now: Date)
      modifies this
      ensures Value() == Resolved(old(Value()), scope, now)
      ensures pendingEvents == map[] ==> AllToldOf(true)
    {
      var existingDeadline := batchDeadline;
      pendingEvents := map k | k in pendingEvents && pendingEvents[k].scope != scope :: pendingEvents[k];
      acceptedFingerprints := map k | k in acceptedFingerprints && !OfScope(k, scope) :: acceptedFingerprints[k];
      batchDeadline := None;
      if pendingEvents != map[] && existingDeadline.Some? && existingDeadline.value > now {
        batchDeadline := existingDeadline;
      }
      if pendingEvents == map[] { Withdraw(); } else { queries := queries + [now]; }
    }

    method RetainScopes(scopes: set<string>, now: Date)
      requires Valid()
      modifies this
      ensures Performed(Retain(scopes, now))
      ensures forall a: Alert :: Pending(pendingEvents, a) <==> a.scope in scopes && Pending(old(pendingEvents), a)
      ensures forall k :: k in acceptedFingerprints
                          <==> k in old(acceptedFingerprints)
                               && exists scope :: scope in scopes && (k == scope || HasPrefix(k, scope + "|"))
      ensures pendingEvents == map[] ==> AllToldOf(true)
    {
      ghost var before := Value();
      RetainIs(before, scopes, now);
      ForgetOthers(scopes, now);
      PerformingKeeps(Retain(scopes, now));
      hide RetainedOnly;
    }

    method ForgetOthers(scopes: set<string>, now: Date)
      modifies this
      ensures Value() == RetainedOnly(old(Value()), scopes, now)
      ensures pendingEvents == map[] ==> AllToldOf(true)
    {
      var existingDeadline := batchDeadline;
      var previous := pendingEvents;
      pendingEvents := map k | k in pendingEvents && pendingEvents[k].scope in scopes :: pendingEvents[k];
      acceptedFingerprints := map k | k in acceptedFingerprints && OfSomeScope(k, scopes) :: acceptedFingerprints[k];
      batchDeadline := if pendingEvents != map[] && existingDeadline.Some? && existingDeadline.value > now
                       then existingDeadline else None;
      if pendingEvents == map[] {
        Withdraw();
      } else if pendingEvents != previous {
        queries := queries + [now];
      }
    }

    /** A replaced summary carries every alert a caller waits for. */
    method HandleQueryReply(i: nat, summaryIsPending: bool)
      requires Valid() && i < |queries|
      modifies this
      ensures Performed(QueryReply(i, summaryIsPending))
      ensures forall call, a :: Carried(old(Value()), call, a) ==> Carried(Value(), call, a)
    {
      ghost var before := Value();
      ReplaceSummary(i, summaryIsPending);
      PerformingKeeps(QueryReply(i, summaryIsPending));
      forall call, a | Carried(before, call, a) ensures Carried(Value(), call, a) {
        ScheduledCarries(before.(queries := before.queries[..i] + before.queries[i + 1..]), before.queries[i], Itself,
                         call, a);
      }
    }

    method ReplaceSummary(i: nat, summaryIsPending: bool)
      requires i < |queries|
      modifies this
      ensures Value() == QueryAnswered(old(Value()), i, summaryIsPending)
    {
      var now := queries[i];
      queries := queries[..i] + queries[i + 1..];
      if pendingEvents == map[] { return; }
      if !summaryIsPending {
        batchDeadline := None;
        return;
      }
      SchedulePendingSummary(now, Itself);
    }

    /** Announces what is still pending again, in a fresh window. */
    method ClearDeliveredSummary(now: Date)
      requires Valid()
      modifies this
      ensures Performed(ClearDelivered(now))
      ensures forall call, a :: Carried(old(Value()), call, a) ==> Carried(Value(), call, a)
      ensures pendingEvents != map[] ==> batchDeadline == Some(now + AGGREGATION_WINDOW)
    {
      ghost var before := Value();
      if pendingEvents != map[] {
        batchDeadline := None;
        SchedulePendingSummary(now, Itself);
      }
      PerformingKeeps(ClearDelivered(now));
      forall call, a | Carried(before, call, a) ensures Carried(Value(), call, a) {
        ScheduledCarries(before.(batch := before.batch.(deadline := None)), now, Itself, call, a);
      }
    }

    method SuppressCurrentBatch()
      requires Valid()
      modifies this
      ensures Performed(Suppress)
      ensures forall a :: Pending(old(pendingEvents), a) ==> Accepted(Value().batch, a)
      ensures pendingEvents == map[] && AllToldOf(true)
    {
      acceptedFingerprints := acceptedFingerprints + Fingerprints(pendingEvents);
      pendingEvents := map[];
      batchDeadline := None;
      Withdraw();
      PerformingKeeps(Suppress);
    }

    method ClearEverything()
      requires Valid()
      modifies this
      ensures Performed(ClearAll)
      ensures pendingEvents == map[] && acceptedFingerprints == map[] && AllToldOf(false)
    {
      submissionGeneration := submissionGeneration + 1;
      pendingEvents := map[];
      acceptedFingerprints := map[];
      batchDeadline := None;
      FlushSubmissionCompletions(false);
      PerformingKeeps(ClearAll);
    }

    /** A superseded callback says nothing to anyone; the current one accepts
        its summary and answers every waiting caller with its own outcome. */
    method HandleAddReply(generation: nat, failed: bool)
      requires Valid() && generation in adds
      modifies this
      ensures Performed(AddReply(generation, failed))
      ensures generation != old(submissionGeneration) ==> Value() == old(Value()).(adds := adds)
      ensures generation == old(submissionGeneration) ==> AllToldOf(!failed)
      ensures generation == old(submissionGeneration) && !failed ==>
                forall a :: Pending(old(adds)[generation], a) ==> Accepted(Value().batch, a)
      ensures failed ==> acceptedFingerprints == old(acceptedFingerprints)
    {
      var summary := adds[generation];
      adds := adds - {generation};
      if generation == submissionGeneration {
        if !failed { acceptedFingerprints := acceptedFingerprints + Fingerprints(summary); }
        FlushSubmissionCompletions(!failed);
      }
      PerformingKeeps(AddReply(generation, failed));
    }

    // ------------------------------------------------------------- whole runs

    /** One event that can occur, delivered to the object. */
    method Perform(e: Event)
      requires Valid() && Enabled(Value(), e)
      modifies this
      ensures Performed(e)
    {
      match e {
        case Enqueue(call, alerts, now) => EnqueueAlerts(call, alerts, now);
        case Resolve(scope, now) => ResolveScope(scope, now);
        case Retain(scopes, now) => RetainScopes(scopes, now);
        case QueryReply(i, summaryIsPending) => HandleQueryReply(i, summaryIsPending);
        case ClearDelivered(now) => ClearDeliveredSummary(now);
        case Suppress => SuppressCurrentBatch();
        case ClearAll => ClearEverything();
        case AddReply(generation, failed) => HandleAddReply(generation, failed);
      }
    }
  }
}
