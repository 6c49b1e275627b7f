/** What the coordinator keeps in every interleaving of its operations with
    late and superseded callbacks. */
module CoordinatorSafety {
  import opened Base
  import opened Coordinator

  // ---------------------------------------------------------- completions

  function WaitingCalls(waiters: seq<Waiter>): seq<CallId> {
    if waiters == [] then []
    else
      var last := waiters[|waiters| - 1];
      WaitingCalls(waiters[..|waiters| - 1]) + if last.Caller? then [last.call] else []
  }

  function AnsweredCalls(answers: seq<Answer>): (r: seq<CallId>)
    ensures |r| == |answers| && forall i :: 0 <= i < |r| ==> r[i] == answers[i].call
  {
    seq(|answers|, i requires 0 <= i < |answers| => answers[i].call)
  }

  /** How often each call has been answered or waits. */
  function Books(s: State): multiset<CallId> {
    multiset(AnsweredCalls(s.answers)) + multiset(WaitingCalls(s.waiters))
  }

  lemma {:induction false} AnsweringWaiters(waiters: seq<Waiter>, submitted: bool)
    ensures AnsweredCalls(Answers(waiters, submitted)) == WaitingCalls(waiters)
  {
    if waiters != [] {
      AnsweringWaiters(waiters[..|waiters| - 1], submitted);
    }
  }

  lemma AnsweredTwice(a: seq<Answer>, b: seq<Answer>)
    ensures AnsweredCalls(a + b) == AnsweredCalls(a) + AnsweredCalls(b)
  {
  }

  lemma FlushedBooks(s: State, submitted: bool)
    ensures Books(Flushed(s, submitted)) == Books(s)
  {
    AnsweringWaiters(s.waiters, submitted);
    AnsweredTwice(s.answers, Answers(s.waiters, submitted));
  }

  function CallOf(w: Waiter): multiset<CallId> { if w.Caller? then multiset{w.call} else multiset{} }

  lemma ScheduledBooks(s: State, now: Date, w: Waiter)
    ensures Books(Scheduled(s, now, w)) == Books(s) + CallOf(w)
  {
    if s.batch.pending == map[] {
      AnsweredTwice(s.answers, Answers([w], true));
      AnsweringWaiters([w], true);
      assert [w][..0] == [];
    } else {
      assert (s.waiters + [w])[..|s.waiters|] == s.waiters;
    }
  }

  lemma AnsweredBooks(s: State, call: CallId, submitted: bool)
    ensures Books(s.(answers := s.answers + [Answer(call, submitted)])) == Books(s) + multiset{call}
  {
    AnsweredTwice(s.answers, [Answer(call, submitted)]);
    assert AnsweredCalls([Answer(call, submitted)]) == [call];
  }

  predicate SameBooks(s: State, t: State) { t.answers == s.answers && t.waiters == s.waiters }

  lemma EnqueuedBooks(s: State, call: CallId, alerts: seq<Alert>, now: Date)
    ensures Books(Enqueued(s, call, alerts, now)) == Books(s) + multiset{call}
  {
    var t := s.(issued := s.issued + {call});
    var fresh_ := Expired(s.batch, now);
    if alerts == [] {
      AnsweredBooks(t, call, true);
    } else if AddsAny(fresh_, alerts) {
      var added := AddedAll(fresh_, alerts);
      var deadline := if added.deadline.None? then Some(now + AGGREGATION_WINDOW) else added.deadline;
      ScheduledBooks(t.(batch := added.(deadline := deadline)), now, Caller(call));
    } else if AllAccepted(fresh_, alerts) {
      AnsweredBooks(t.(batch := fresh_), call, true);
    } else {
      ScheduledBooks(t.(batch := fresh_), now, Caller(call));
    }
  }

  lemma WithdrawnBooks(s: State, t: State)
    requires SameBooks(s, t)
    ensures Books(Withdrawn(t)) == Books(s)
  {
    FlushedBooks(t.(generation := t.generation + 1), true);
  }

  lemma ResolvedBooks(s: State, scope: string, now: Date)
    ensures Books(Resolved(s, scope, now)) == Books(s)
  {
    var left := Unresolved(s.batch, scope);
    WithdrawnBooks(s, s.(batch := left.(deadline := CarriedOver(left, s.batch.deadline, now))));
  }

  lemma RetainedBooks(s: State, scopes: set<string>, now: Date)
    ensures Books(RetainedOnly(s, scopes, now)) == Books(s)
  {
    var left := Retained(s.batch, scopes);
    WithdrawnBooks(s, s.(batch := left.(deadline := CarriedOver(left, s.batch.deadline, now))));
  }

  lemma AddFinishedBooks(s: State, generation: nat, failed: bool)
    requires generation in s.adds
    ensures Books(AddFinished(s, generation, failed)) == Books(s)
  {
    var taken := s.(adds := s.adds - {generation});
    FlushedBooks(if failed then taken else taken.(batch := MarkAccepted(s.batch, s.adds[generation])), !failed);
  }

  lemma QueryBooks(s: State, i: nat, summaryIsPending: bool)
    requires i < |s.queries|
    ensures Books(QueryAnswered(s, i, summaryIsPending)) == Books(s)
  {
    ScheduledBooks(s.(queries := s.queries[..i] + s.queries[i + 1..]), s.queries[i], Itself);
  }

  /** Only an enqueue adds to the books, and it adds its own call once. */
  lemma StepBooks(s: State, e: Event)
    ensures Books(Step(s, e)) == Books(s) + if Enabled(s, e) && e.Enqueue? then multiset{e.call} else multiset{}
  {
    if Enabled(s, e) {
      match e {
        case Enqueue(call, alerts, now) => EnqueuedBooks(s, call, alerts, now);
        case Resolve(scope, now) => ResolvedBooks(s, scope, now);
        case Retain(scopes, now) => RetainedBooks(s, scopes, now);
        case QueryReply(i, summaryIsPending) => QueryBooks(s, i, summaryIsPending);
        case ClearDelivered(now) => ScheduledBooks(s.(batch := s.batch.(deadline := None)), now, Itself);
        case Suppress =>
          WithdrawnBooks(s, s.(batch := MarkAccepted(s.batch, s.batch.pending).(pending := map[], deadline := None)));
        case ClearAll => FlushedBooks(s.(batch := EMPTY_BATCH, generation := s.generation + 1), false);
        case AddReply(generation, failed) => AddFinishedBooks(s, generation, failed);
      }
    }
  }

  lemma StepIssues(s: State, e: Event)
    ensures Step(s, e).issued == s.issued + if Enabled(s, e) && e.Enqueue? then {e.call} else {}
  {
  }

  /** Every call issued has been answered once or waits once, no other at all. */
  ghost predicate OnceEach(s: State) { forall call :: Books(s)[call] == if call in s.issued then 1 else 0 }

  lemma OneMoreCall(s: State, s': State, e: Event)
    requires OnceEach(s)
    requires Books(s') == Books(s) + if Enabled(s, e) && e.Enqueue? then multiset{e.call} else multiset{}
    requires s'.issued == s.issued + if Enabled(s, e) && e.Enqueue? then {e.call} else {}
    ensures OnceEach(s')
  {
    forall call ensures Books(s')[call] == if call in s'.issued then 1 else 0 {
      assert Books(s)[call] == if call in s.issued then 1 else 0;
    }
  }

  lemma OnceEachStep(s: State, e: Event)
    requires OnceEach(s)
    ensures OnceEach(Step(s, e))
  {
    StepBooks(s, e);
    StepIssues(s, e);
    OneMoreCall(s, Step(s, e), e);
  }

  /** From any persisted batch and in every interleaving each completion has run
      exactly once or waits exactly once; none is lost and none runs twice. */
  lemma {:induction false} CompletionsRunOnce(persisted: Batch, events: seq<Event>)
    ensures OnceEach(Run(Launched(persisted), events))
    decreases |events|
  {
    if events == [] {
      assert Books(Launched(persisted)) == multiset{};
    } else {
      CompletionsRunOnce(persisted, events[..|events| - 1]);
      OnceEachStep(Run(Launched(persisted), events[..|events| - 1]), events[|events| - 1]);
    }
  }

  // ------------------------------------------------------------- no stranding

  /** Whoever waits, the callback of the current submission is outstanding. */
  ghost predicate Attended(s: State) {
    && (s.waiters != [] ==> s.generation in s.adds)
    && forall g :: g in s.adds ==> g <= s.generation
  }

  lemma {:induction false} NobodyIsStranded(persisted: Batch, events: seq<Event>)
    ensures Attended(Run(Launched(persisted), events))
    decreases |events|
  {
    if events != [] {
      NobodyIsStranded(persisted, events[..|events| - 1]);
      AttendedStep(Run(Launched(persisted), events[..|events| - 1]), events[|events| - 1]);
    }
  }

  lemma ScheduledAttended(s: State, now: Date, w: Waiter)
    requires Attended(s)
    ensures Attended(Scheduled(s, now, w))
  {
  }

  lemma EnqueuedAttended(s: State, call: CallId, alerts: seq<Alert>, now: Date)
    requires Attended(s)
    ensures Attended(Enqueued(s, call, alerts, now))
  {
    hide AddsAny, AddedAll, AllAccepted, Scheduled;
    var t := s.(issued := s.issued + {call});
    var fresh_ := Expired(s.batch, now);
    var added := AddedAll(fresh_, alerts);
    var deadline := if added.deadline.None? then Some(now + AGGREGATION_WINDOW) else added.deadline;
    ScheduledAttended(t.(batch := fresh_), now, Caller(call));
    ScheduledAttended(t.(batch := added.(deadline := deadline)), now, Caller(call));
  }

  lemma AttendedStep(s: State, e: Event)
    requires Attended(s)
    ensures Attended(Step(s, e))
  {
    hide Enqueued, Scheduled;
    if Enabled(s, e) {
      match e {
        case Enqueue(call, alerts, now) => EnqueuedAttended(s, call, alerts, now);
        case QueryReply(i, _) =>
          ScheduledAttended(s.(queries := s.queries[..i] + s.queries[i + 1..]), s.queries[i], Itself);
        case ClearDelivered(now) => ScheduledAttended(s.(batch := s.batch.(deadline := None)), now, Itself);
        case other =>
      }
    }
  }

  /** A superseded callback answers nobody and accepts nothing. */
  lemma SupersededChangesNothing(s: State, generation: nat, failed: bool)
    requires generation in s.adds && generation != s.generation
    ensures Step(s, AddReply(generation, failed)) == s.(adds := s.adds - {generation})
  {
  }

  /** The reply of the current submission answers every waiting caller with its
      own outcome, so each waiter is at most one reply away from its answer. */
  lemma {:induction false} AnswersEveryone(waiters: seq<Waiter>, submitted: bool, call: CallId)
    ensures Answer(call, submitted) in Answers(waiters, submitted) <==> Caller(call) in waiters
    ensures forall a :: a in Answers(waiters, submitted) ==> a.submitted == submitted
  {
    if waiters != [] {
      var init := waiters[..|waiters| - 1];
      AnswersEveryone(init, submitted, call);
      assert waiters == init + [waiters[|waiters| - 1]];
    }
  }

  lemma CurrentReplyAnswersAll(s: State, failed: bool, call: CallId)
    requires Attended(s) && Caller(call) in s.waiters
    ensures Enabled(s, AddReply(s.generation, failed))
    ensures var s' := Step(s, AddReply(s.generation, failed)); s'.waiters == [] && Answer(call, !failed) in s'.answers
  {
    AnswersEveryone(s.waiters, !failed, call);
  }

  // ------------------------------------------------ what "submitted" promises

  predicate Accepted(b: Batch, a: Alert) { KeyOf(a) in b.accepted && b.accepted[KeyOf(a)] == a.fingerprint }

  predicate Pending(alerts: Alerts, a: Alert) { KeyOf(a) in alerts && alerts[KeyOf(a)] == a }

  /** The current submission carries the alert a caller waits for. */
  predicate Carried(s: State, call: CallId, a: Alert) {
    Caller(call) in s.waiters && Pending(s.batch.pending, a) && s.generation in s.adds && Pending(s.adds[s.generation], a)
  }

  predicate Unanswered(s: State, call: CallId) { forall submitted :: Answer(call, submitted) !in s.answers }

  /** The caller was told, and told "submitted" only if its alert was accepted. */
  predicate AnsweredTruly(s: State, call: CallId, a: Alert) {
    && Caller(call) !in s.waiters
    && (Answer(call, true) in s.answers <==> Answer(call, false) !in s.answers)
    && (Answer(call, true) in s.answers ==> Accepted(s.batch, a))
  }

  predicate Passed(deadline: Option<Date>, now: Date) { deadline.Some? && deadline.value <= now }

  /** What withdraws the alert itself: a batch expiring under an enqueue, a newer
      alert of its key, and resolving, dropping or clearing its scope. */
  predicate Withdraws(s: State, e: Event, a: Alert) {
    match e
    case Enqueue(_, alerts, now) =>
      alerts != [] && (Passed(s.batch.deadline, now) || exists x :: x in alerts && KeyOf(x) == KeyOf(a) && x != a)
    case Resolve(scope, _) => a.scope == scope
    case Retain(scopes, _) => a.scope !in scopes
    case ClearAll => true
    case other => false
  }

  lemma {:induction false} AddingKeepsPending(b: Batch, alerts: seq<Alert>, a: Alert)
    requires Pending(b.pending, a) && forall x :: x in alerts && KeyOf(x) == KeyOf(a) ==> x == a
    ensures Pending(AddedAll(b, alerts).pending, a) && AddedAll(b, alerts).accepted == b.accepted
    decreases |alerts|
  {
    if alerts != [] {
      var init := alerts[..|alerts| - 1];
      assert forall x :: x in init ==> x in alerts;
      AddingKeepsPending(b, init, a);
      assert alerts[|alerts| - 1] in alerts;
    }
  }

  lemma ScheduledCarries(s: State, now: Date, w: Waiter, call: CallId, a: Alert)
    requires Pending(s.batch.pending, a) && (Caller(call) in s.waiters || w == Caller(call))
    ensures Carried(Scheduled(s, now, w), call, a)
  {
    var s' := Scheduled(s, now, w);
    assert s'.waiters == s.waiters + [w];
    assert w == s'.waiters[|s.waiters|];
  }

  lemma EnqueueKeepsCarried(s: State, e: Event, call: CallId, a: Alert)
    requires Carried(s, call, a) && e.Enqueue? && Enabled(s, e) && !Withdraws(s, e, a)
    ensures Carried(Step(s, e), call, a)
  {
    if e.alerts != [] {
      var t := s.(issued := s.issued + {e.call});
      AddingKeepsPending(s.batch, e.alerts, a);
      var added := AddedAll(s.batch, e.alerts);
      var deadline := if added.deadline.None? then Some(e.now + AGGREGATION_WINDOW) else added.deadline;
      ScheduledCarries(t, e.now, Caller(e.call), call, a);
      ScheduledCarries(t.(batch := added.(deadline := deadline)), e.now, Caller(e.call), call, a);
    }
  }

  /** Unless the alert itself is withdrawn, the caller keeps waiting for a
      submission that carries it, or is answered; and it is told that its alert
      was submitted only when the alert has been accepted. */
  lemma SubmittedMeansAccepted(s: State, e: Event, call: CallId, a: Alert)
    requires Carried(s, call, a) && !Withdraws(s, e, a)
    requires Unanswered(s, call)
    ensures Carried(Step(s, e), call, a) || AnsweredTruly(Step(s, e), call, a)
  {
    if Enabled(s, e) {
      AnswersEveryone(s.waiters, true, call);
      AnswersEveryone(s.waiters, false, call);
      match e {
        case Enqueue(_, _, _) => EnqueueKeepsCarried(s, e, call, a);
        case QueryReply(i, _) =>
          ScheduledCarries(s.(queries := s.queries[..i] + s.queries[i + 1..]), s.queries[i], Itself, call, a);
        case ClearDelivered(now) => ScheduledCarries(s.(batch := s.batch.(deadline := None)), now, Itself, call, a);
        case Resolve(scope, now) => assert Pending(Unresolved(s.batch, scope).pending, a);
        case Retain(scopes, now) => assert Pending(Retained(s.batch, scopes).pending, a);
        case other =>
      }
    }
  }

  /** No event of the run withdraws the alert when its turn comes. */
  predicate NeverWithdrawn(s: State, events: seq<Event>, a: Alert)
    decreases |events|
  {
    events == []
    || (NeverWithdrawn(s, events[..|events| - 1], a)
        && !Withdraws(Run(s, events[..|events| - 1]), events[|events| - 1], a))
  }

  lemma CountedIfAnswered(answers: seq<Answer>, call: CallId)
    requires call !in AnsweredCalls(answers)
    ensures forall submitted :: Answer(call, submitted) !in answers
  {
    forall i | 0 <= i < |answers| ensures answers[i].call != call {
      assert AnsweredCalls(answers)[i] in AnsweredCalls(answers);
    }
  }

  lemma WaitingIsUnanswered(s: State, call: CallId)
    requires OnceEach(s) && Caller(call) in s.waiters
    ensures Unanswered(s, call)
  {
    WaitingIsCounted(s.waiters, call);
    assert Books(s)[call] <= 1 && multiset(WaitingCalls(s.waiters))[call] >= 1;
    assert call !in multiset(AnsweredCalls(s.answers));
    CountedIfAnswered(s.answers, call);
  }

  lemma {:induction false} WaitingIsCounted(waiters: seq<Waiter>, call: CallId)
    requires Caller(call) in waiters
    ensures call in WaitingCalls(waiters)
  {
    var init, last := waiters[..|waiters| - 1], waiters[|waiters| - 1];
    assert waiters == init + [last];
    if last != Caller(call) { WaitingIsCounted(init, call); }
  }

  lemma {:induction false} OnceEachRun(s: State, events: seq<Event>)
    requires OnceEach(s)
    ensures OnceEach(Run(s, events))
    decreases |events|
  {
    if events != [] {
      OnceEachRun(s, events[..|events| - 1]);
      OnceEachStep(Run(s, events[..|events| - 1]), events[|events| - 1]);
    }
  }

  /** Event `n` ended the wait of `call`, truthfully about `a`. */
  predicate AnsweredAt(s: State, events: seq<Event>, n: int, call: CallId, a: Alert) {
    0 <= n < |events|
    && var s', s1 := Step(Run(s, events[..n]), events[n]), Run(s, events[..n]);
       Unanswered(s1, call) && AnsweredTruly(s', call, a)
  }

  /** What becomes of a caller whose alert is never withdrawn, after any number
      of events: its alert is still carried, or at the `n`-th of them it was
      answered, with "submitted" only on acceptance of that very alert. */
  lemma {:induction false} CarriedUntilAnswered(s: State, events: seq<Event>, call: CallId, a: Alert)
    requires OnceEach(s) && Carried(s, call, a) && NeverWithdrawn(s, events, a)
    ensures Carried(Run(s, events), call, a) || exists n :: AnsweredAt(s, events, n, call, a)
    decreases |events|
  {
    if events != [] {
      var before, e := events[..|events| - 1], events[|events| - 1];
      CarriedUntilAnswered(s, before, call, a);
      var s1 := Run(s, before);
      if Carried(s1, call, a) {
        OnceEachRun(s, before);
        WaitingIsUnanswered(s1, call);
        SubmittedMeansAccepted(s1, e, call, a);
        assert Carried(Step(s1, e), call, a) || AnsweredAt(s, events, |before|, call, a);
      } else {
        var n :| AnsweredAt(s, before, n, call, a);
        assert events[..n] == before[..n] && events[n] == before[n];
        assert AnsweredAt(s, events, n, call, a);
      }
    }
  }

  lemma {:induction false} AddingInTurn(b: Batch, xs: seq<Alert>, ys: seq<Alert>)
    ensures AddedAll(b, xs + ys) == AddedAll(AddedAll(b, xs), ys)
    decreases |ys|
  {
    if ys == [] {
      assert xs + ys == xs;
    } else {
      var init, last := ys[..|ys| - 1], ys[|ys| - 1];
      AddingInTurn(b, xs, init);
      assert (xs + ys)[..|xs + ys| - 1] == xs + init;
    }
  }

  lemma {:induction false} AddingAcceptsNothing(b: Batch, alerts: seq<Alert>)
    ensures AddedAll(b, alerts).accepted == b.accepted && AddedAll(b, alerts).deadline == b.deadline
  {
    if alerts != [] {
      AddingAcceptsNothing(b, alerts[..|alerts| - 1]);
    }
  }

  /** No later alert of the list replaces the `i`-th. */
  predicate Lasts(alerts: seq<Alert>, i: nat) {
    i < |alerts| && forall j :: i < j < |alerts| && KeyOf(alerts[j]) == KeyOf(alerts[i]) ==> alerts[j] == alerts[i]
  }

  /** Once all are added, each alert that no later one replaced is pending or
      was accepted before. */
  lemma AddedIsKnown(b: Batch, alerts: seq<Alert>, i: nat)
    requires Lasts(alerts, i)
    ensures Pending(AddedAll(b, alerts).pending, alerts[i]) || Accepted(b, alerts[i])
  {
    hide KeyOf;
    var upTo, rest := alerts[..i + 1], alerts[i + 1..];
    assert alerts == upTo + rest && upTo[..i] == alerts[..i];
    AddingInTurn(b, upTo, rest);
    AddingAcceptsNothing(b, alerts[..i]);
    var b' := AddedAll(b, upTo);
    assert b' == Added(AddedAll(b, upTo[..i]), alerts[i]);
    if Pending(b'.pending, alerts[i]) {
      forall x | x in rest && KeyOf(x) == KeyOf(alerts[i]) ensures x == alerts[i] {
        var j :| 0 <= j < |rest| && rest[j] == x;
        assert alerts[i + 1 + j] == x;
      }
      AddingKeepsPending(b', rest, alerts[i]);
    }
  }

  /** Nothing was news: the batch is as it was. */
  lemma {:induction false} NothingAdded(b: Batch, alerts: seq<Alert>)
    requires !AddsAny(b, alerts)
    ensures AddedAll(b, alerts) == b
  {
    if alerts != [] {
      NothingAdded(b, alerts[..|alerts| - 1]);
    }
  }

  predicate AnsweredAsAccepted(s: State, s': State, call: CallId, alerts: seq<Alert>) {
    && s'.answers == s.answers + [Answer(call, true)] && s'.waiters == s.waiters
    && forall k :: 0 <= k < |alerts| ==> Accepted(s'.batch, alerts[k])
  }

  predicate Joined(s: State, s': State, call: CallId) {
    s'.answers == s.answers && s'.waiters == s.waiters + [Caller(call)]
  }

  /** A caller is answered at once only if all of its alerts had been accepted. */
  lemma EnqueueAnswersOrJoins(s: State, call: CallId, alerts: seq<Alert>, now: Date)
    requires Enabled(s, Enqueue(call, alerts, now))
    ensures var s' := Step(s, Enqueue(call, alerts, now));
            AnsweredAsAccepted(s, s', call, alerts) || Joined(s, s', call)
  {
    var fresh_ := Expired(s.batch, now);
    if AddsAny(fresh_, alerts) {
      NewsIsPending(fresh_, alerts);
    } else if !AllAccepted(fresh_, alerts) {
      UnacceptedIsPending(fresh_, alerts);
    }
  }

  /** After an enqueue of any alerts each of them that no later one of the list
      replaced has been accepted, or is carried by the current submission, for
      which the caller waits. */
  lemma EnqueueCarries(s: State, call: CallId, alerts: seq<Alert>, now: Date, i: nat)
    requires Enabled(s, Enqueue(call, alerts, now)) && Lasts(alerts, i)
    ensures var s' := Step(s, Enqueue(call, alerts, now));
            Carried(s', call, alerts[i]) || Accepted(s'.batch, alerts[i])
  {
    var t := s.(issued := s.issued + {call});
    var fresh_ := Expired(s.batch, now);
    var added := AddedAll(fresh_, alerts);
    AddedIsKnown(fresh_, alerts, i);
    AddingAcceptsNothing(fresh_, alerts);
    if Pending(added.pending, alerts[i]) {
      if AddsAny(fresh_, alerts) {
        var deadline := if added.deadline.None? then Some(now + AGGREGATION_WINDOW) else added.deadline;
        ScheduledCarries(t.(batch := added.(deadline := deadline)), now, Caller(call), call, alerts[i]);
      } else {
        NothingAdded(fresh_, alerts);
        ScheduledCarries(t.(batch := fresh_), now, Caller(call), call, alerts[i]);
      }
    }
  }

  lemma {:induction false} NewsIsPending(b: Batch, alerts: seq<Alert>)
    requires AddsAny(b, alerts)
    ensures AddedAll(b, alerts).pending != map[]
  {
    var init, last := alerts[..|alerts| - 1], alerts[|alerts| - 1];
    if Known(AddedAll(b, init), last) {
      NewsIsPending(b, init);
    } else {
      assert KeyOf(last) in AddedAll(b, alerts).pending;
    }
  }

  /** Nothing was news and yet something is not accepted: it is pending. */
  lemma {:induction false} UnacceptedIsPending(b: Batch, alerts: seq<Alert>)
    requires !AddsAny(b, alerts) && !AllAccepted(b, alerts)
    ensures b.pending != map[]
  {
    var init, last := alerts[..|alerts| - 1], alerts[|alerts| - 1];
    if AllAccepted(b, init) {
      NothingAdded(b, init);
      assert Known(b, last);
      assert forall k :: 0 <= k < |init| ==> alerts[k] == init[k];
      assert KeyOf(last) in b.pending;
    } else {
      UnacceptedIsPending(b, init);
    }
  }

  /** Alerts of other keys keep a carried alert exactly while its batch has not
      run past its deadline. */
  lemma EnqueueDropsExactlyWhenExpired(s: State, e: Event, call: CallId, a: Alert)
    requires Carried(s, call, a) && e.Enqueue? && Enabled(s, e) && e.alerts != []
    requires forall x :: x in e.alerts ==> KeyOf(x) != KeyOf(a)
    ensures Carried(Step(s, e), call, a) <==> !Passed(s.batch.deadline, e.now)
  {
    if Passed(s.batch.deadline, e.now) {
      AddingOthersOnly(Expired(s.batch, e.now), e.alerts, a);
    } else {
      EnqueueKeepsCarried(s, e, call, a);
    }
  }

  lemma {:induction false} AddingOthersOnly(b: Batch, alerts: seq<Alert>, a: Alert)
    requires KeyOf(a) !in b.pending && forall x :: x in alerts ==> KeyOf(x) != KeyOf(a)
    ensures KeyOf(a) !in AddedAll(b, alerts).pending
    decreases |alerts|
  {
    if alerts != [] {
      assert forall x :: x in alerts[..|alerts| - 1] ==> x in alerts;
      AddingOthersOnly(b, alerts[..|alerts| - 1], a);
      assert alerts[|alerts| - 1] in alerts;
    }
  }

  // -------------------------------------------------- what it does not promise

  const FIRST := Alert("a", NeedsForegroundRecovery, "1")
  const SECOND := Alert("b", NeedsForegroundRecovery, "2")

  lemma DistinctKeys()
    ensures KeyOf(FIRST) != KeyOf(SECOND)
  {
    assert KeyOf(FIRST)[0] == 'a' && KeyOf(SECOND)[0] == 'b';
  }

  lemma AddedOne(b: Batch, a: Alert)
    ensures AddedAll(b, [a]) == Added(b, a) && AddsAny(b, [a]) == !Known(b, a)
  {
    assert [a][..0] == [];
  }

  function JustFirst(): Alerts { map[KeyOf(FIRST) := FIRST] }

  function JustSecond(): Alerts { map[KeyOf(SECOND) := SECOND] }

  const AFTER_FIRST :=
    State(Batch(JustFirst(), map[], Some(30.0)), 1, [Caller(0)], map[1 := JustFirst()], [], {0}, [])

  const AFTER_SECOND :=
    State(Batch(JustSecond(), map[], Some(60.0)), 2, [Caller(0), Caller(1)], map[1 := JustFirst(), 2 := JustSecond()], [],
          {0, 1}, [])

  lemma FirstEnqueued()
    ensures Step(Launched(EMPTY_BATCH), Enqueue(0, [FIRST], 0.0)) == AFTER_FIRST
  {
    AddedOne(EMPTY_BATCH, FIRST);
  }

  lemma SecondEnqueued()
    ensures Step(AFTER_FIRST, Enqueue(1, [SECOND], 30.0)) == AFTER_SECOND
  {
    AddedOne(EMPTY_BATCH, SECOND);
    assert Expired(AFTER_FIRST.batch, 30.0) == EMPTY_BATCH;
  }

  lemma SecondAccepted()
    ensures var s := Step(AFTER_SECOND, AddReply(2, false));
            Answer(0, true) in s.answers && !Accepted(s.batch, FIRST) && !Pending(s.batch.pending, FIRST)
  {
    DistinctKeys();
    AnswersEveryone(AFTER_SECOND.waiters, true, 0);
    assert AFTER_SECOND.waiters[0] == Caller(0);
  }

  /** A caller whose alert expires with its batch before its callback came is
      told that it was submitted, by a submission that does not carry it. */
  lemma ExpiryLosesAWaitingAlert()
    ensures var s := Run(Launched(EMPTY_BATCH), [Enqueue(0, [FIRST], 0.0), Enqueue(1, [SECOND], 30.0), AddReply(2, false)]);
            Answer(0, true) in s.answers && !Accepted(s.batch, FIRST) && !Pending(s.batch.pending, FIRST)
  {
    var e0, e1, e2 := Enqueue(0, [FIRST], 0.0), Enqueue(1, [SECOND], 30.0), AddReply(2, false);
    FirstEnqueued();
    SecondEnqueued();
    SecondAccepted();
    assert Run(Launched(EMPTY_BATCH), [e0]) == AFTER_FIRST by { assert [e0][..0] == []; }
    assert Run(Launched(EMPTY_BATCH), [e0, e1]) == AFTER_SECOND by { assert [e0, e1][..1] == [e0]; }
    assert [e0, e1, e2][..2] == [e0, e1];
  }

  /** Resolving a scope forgets its alerts, but a successful callback already in
      flight accepts them again, and so mutes their recurrence, exactly when
      another scope kept the submission current. */
  lemma LateCallbackReaccepts(s: State, scope: string, now: Date, a: Alert)
    requires s.generation in s.adds && Pending(s.adds[s.generation], a) && a.scope == scope
    ensures var resolved := Step(s, Resolve(scope, now));
            var late := Step(resolved, AddReply(s.generation, false));
            !Accepted(resolved.batch, a)
            && (Accepted(late.batch, a) <==> Unresolved(s.batch, scope).pending != map[])
  {
    assert OfScope(KeyOf(a), scope) by {
      assert KeyOf(a) == (scope + "|") + KindName(a.kind);
    }
  }

  const BOTH := map[KeyOf(FIRST) := FIRST, KeyOf(SECOND) := SECOND]

  const AFTER_BOTH := State(Batch(BOTH, map[], Some(30.0)), 1, [Caller(0)], map[1 := BOTH], [], {0}, [])

  lemma BothEnqueued()
    ensures Step(Launched(EMPTY_BATCH), Enqueue(0, [FIRST, SECOND], 0.0)) == AFTER_BOTH
  {
    DistinctKeys();
    AddedOne(EMPTY_BATCH, FIRST);
    assert [FIRST, SECOND][..1] == [FIRST];
  }

  /** What is left of scope "a" after it was resolved: nothing pending, and the
      callback that carried its alert still to come. */
  lemma FirstResolved()
    ensures var s := Step(AFTER_BOTH, Resolve("a", 1.0));
            && s.batch.pending == JustSecond() && s.batch.deadline == Some(30.0)
            && s.generation == 1 && s.adds == AFTER_BOTH.adds && s.issued == {0}
            && !Accepted(s.batch, FIRST)
  {
    DistinctKeys();
    assert KeyOf(SECOND) in Unresolved(AFTER_BOTH.batch, "a").pending;
  }

  /** A run in which the recurrence of a resolved alert is muted: its caller is
      told that it was submitted although no submission will carry it. */
  lemma LateCallbackMutesRecurrence()
    ensures var events := [Enqueue(0, [FIRST, SECOND], 0.0), Resolve("a", 1.0), AddReply(1, false),
                           Enqueue(1, [FIRST], 2.0)];
            var s := Run(Launched(EMPTY_BATCH), events);
            && Answer(1, true) in s.answers && s.waiters == [] && s.adds == map[]
            && !Pending(s.batch.pending, FIRST)
  {
    hide Launched;
    var e0, e1 := Enqueue(0, [FIRST, SECOND], 0.0), Resolve("a", 1.0);
    var e2, e3 := AddReply(1, false), Enqueue(1, [FIRST], 2.0);
    BothEnqueued();
    assert Run(Launched(EMPTY_BATCH), [e0]) == AFTER_BOTH by { assert [e0][..0] == []; }
    var s1 := Step(AFTER_BOTH, e1);
    FirstResolved();
    DistinctKeys();
    assert Run(Launched(EMPTY_BATCH), [e0, e1]) == s1 by { assert [e0, e1][..1] == [e0]; }
    var s2 := Step(s1, e2);
    LateCallbackReaccepts(AFTER_BOTH, "a", 1.0, FIRST);
    assert Run(Launched(EMPTY_BATCH), [e0, e1, e2]) == s2 by { assert [e0, e1, e2][..2] == [e0, e1]; }
    assert Run(Launched(EMPTY_BATCH), [e0, e1, e2, e3]) == Step(s2, e3) by {
      assert [e0, e1, e2, e3][..3] == [e0, e1, e2];
    }
    assert s2.adds == map[] && s2.waiters == [] && s2.batch.pending == JustSecond();
    AddedOne(s2.batch, FIRST);
  }
}
