/** What each event does to the batch, the submissions and the callers, written
    out on keys, fingerprints and deadlines. */
module CoordinatorMeaning {
  import opened Base
  import opened Coordinator
  import opened CoordinatorSafety

  /** Alerts are told apart by scope and kind. */
  lemma KeyIs(scope: string, fingerprint: string)
    ensures KeyOf(Alert(scope, ConfirmedWaveReady, fingerprint)) == scope + "|" + "confirmedWaveReady"
    ensures KeyOf(Alert(scope, NeedsForegroundRecovery, fingerprint)) == scope + "|" + "needsForegroundRecovery"
    ensures KeyOf(Alert(scope, TerminalFailure, fingerprint)) == scope + "|" + "terminalFailure"
  {
  }

  /** The callers and nobody else are told, in the order in which they joined. */
  ghost predicate TellsAll(waiters: seq<Waiter>, submitted: bool, told: seq<Answer>) {
    && (forall i :: 0 <= i < |told| ==> told[i].submitted == submitted && Caller(told[i].call) in waiters)
    && (forall call :: Caller(call) in waiters ==> Answer(call, submitted) in told)
    && AnsweredCalls(told) == WaitingCalls(waiters)
  }

  lemma {:induction false} AnswersTellAll(waiters: seq<Waiter>, submitted: bool)
    ensures TellsAll(waiters, submitted, Answers(waiters, submitted))
  {
    forall call ensures Answer(call, submitted) in Answers(waiters, submitted) <==> Caller(call) in waiters
                ensures forall a :: a in Answers(waiters, submitted) ==> a.submitted == submitted
    {
      AnswersEveryone(waiters, submitted, call);
    }
    AnswersEveryone(waiters, submitted, 0);
    AnsweringWaiters(waiters, submitted);
    var told := Answers(waiters, submitted);
    forall i | 0 <= i < |told| ensures told[i].submitted == submitted && Caller(told[i].call) in waiters {
      assert told[i] in told && told[i] == Answer(told[i].call, submitted);
    }
  }

  /** Everyone waiting is told; the answers given before stay. */
  ghost predicate Flushes(s: State, s': State, submitted: bool) {
    && s'.waiters == [] && |s.answers| <= |s'.answers| && s'.answers[..|s.answers|] == s.answers
    && TellsAll(s.waiters, submitted, s'.answers[|s.answers|..])
  }

  lemma FlushedFlushes(s: State, submitted: bool)
    ensures Flushes(s, Flushed(s, submitted), submitted)
  {
    AnswersTellAll(s.waiters, submitted);
    assert Flushed(s, submitted).answers[|s.answers|..] == Answers(s.waiters, submitted);
  }

  /** A submission under the next generation carries what is pending and is what
      `w` waits for; its deadline is the batch's, or 30 seconds on. */
  predicate Submits(s: State, now: Date, w: Waiter, s': State) {
    && s'.generation == s.generation + 1 && s'.waiters == s.waiters + [w]
    && s'.adds == s.adds[s.generation + 1 := s.batch.pending]
    && s'.batch == s.batch.(deadline := if s.batch.deadline == None then Some(now + 30.0) else s.batch.deadline)
    && s'.queries == s.queries && s'.issued == s.issued && s'.answers == s.answers
  }

  lemma ScheduledIs(s: State, now: Date, w: Waiter)
    ensures s.batch.pending != map[] ==> Submits(s, now, w, Scheduled(s, now, w))
    ensures s.batch.pending == map[] ==>
              var told := match w case Caller(call) => [Answer(call, true)] case Itself => [];
              Scheduled(s, now, w) == s.(answers := s.answers + told)
  {
    assert [w][..0] == [];
    assert Answers([w], true) == match w case Caller(call) => [Answer(call, true)] case Itself => [];
  }

  // ------------------------------------------------------------------- enqueue

  /** Not accepted under its fingerprint, nor pending as it is. */
  predicate News(b: Batch, a: Alert) {
    && !(KeyOf(a) in b.accepted && b.accepted[KeyOf(a)] == a.fingerprint)
    && !(KeyOf(a) in b.pending && b.pending[KeyOf(a)] == a)
  }

  /** A batch past its deadline is begun anew; what was accepted stays so. */
  lemma ExpiredIs(b: Batch, now: Date)
    ensures Expired(b, now) == if b.deadline != None && b.deadline.value <= now then Batch(map[], b.accepted, None) else b
  {
  }

  /** An alert of this key that was not accepted under its fingerprint. */
  predicate Counts(b: Batch, alerts: seq<Alert>, i: int, k: Key) {
    0 <= i < |alerts| && KeyOf(alerts[i]) == k && !(k in b.accepted && b.accepted[k] == alerts[i].fingerprint)
  }

  predicate CountsLast(b: Batch, alerts: seq<Alert>, i: int, k: Key) {
    Counts(b, alerts, i, k) && forall j :: i < j < |alerts| ==> !Counts(b, alerts, j, k)
  }

  /** What is pending under key `k` once the alerts are added: the last of that
      key that counts, else what was pending before. */
  ghost predicate PendingAfter(b: Batch, alerts: seq<Alert>, k: Key, pending: Alerts) {
    || (exists i :: CountsLast(b, alerts, i, k) && k in pending && pending[k] == alerts[i])
    || ((forall i :: 0 <= i < |alerts| ==> !Counts(b, alerts, i, k))
        && (k in pending <==> k in b.pending) && (k in b.pending ==> pending[k] == b.pending[k]))
  }

  lemma {:induction false} AddedIs(b: Batch, alerts: seq<Alert>, k: Key)
    ensures AddedAll(b, alerts) == b.(pending := AddedAll(b, alerts).pending)
    ensures PendingAfter(b, alerts, k, AddedAll(b, alerts).pending)
  {
    if alerts != [] {
      var last := |alerts| - 1;
      AddedIs(b, alerts[..last], k);
      OneMoreAdded(b, alerts, AddedAll(b, alerts[..last]).pending, k);
    }
  }

  lemma OneMoreAdded(b: Batch, alerts: seq<Alert>, before: Alerts, k: Key)
    requires alerts != [] && PendingAfter(b, alerts[..|alerts| - 1], k, before)
    ensures PendingAfter(b, alerts, k, Added(b.(pending := before), alerts[|alerts| - 1]).pending)
  {
    hide KeyOf;
    var last := |alerts| - 1;
    var init := alerts[..last];
    var pending := Added(b.(pending := before), alerts[last]).pending;
    if Counts(b, alerts, last, k) {
      assert k in pending && pending[k] == alerts[last];
      assert CountsLast(b, alerts, last, k);
    } else {
      assert (k in pending <==> k in before) && (k in before ==> pending[k] == before[k]);
      assert forall i :: 0 <= i < last ==> Counts(b, alerts, i, k) == Counts(b, init, i, k);
      hide Counts, Added;
      if exists i :: CountsLast(b, init, i, k) && k in before && before[k] == init[i] {
        var i :| CountsLast(b, init, i, k) && k in before && before[k] == init[i];
        CountingInRange(b, init, i, k);
        assert CountsLast(b, alerts, i, k);
      }
    }
  }

  lemma CountingInRange(b: Batch, alerts: seq<Alert>, i: int, k: Key)
    requires Counts(b, alerts, i, k)
    ensures 0 <= i < |alerts|
  {
  }

  lemma KnownIs(b: Batch, a: Alert)
    ensures Known(b, a) == !News(b, a)
  {
    hide KeyOf;
  }

  predicate NewsInTurn(b: Batch, alerts: seq<Alert>, i: int) {
    0 <= i < |alerts| && News(AddedAll(b, alerts[..i]), alerts[i])
  }

  lemma {:induction false} AddsAnyIs(b: Batch, alerts: seq<Alert>)
    ensures AddsAny(b, alerts) <==> exists i :: NewsInTurn(b, alerts, i)
  {
    if alerts == [] {
      assert forall i :: !NewsInTurn(b, alerts, i);
    } else {
      AddsAnyIs(b, alerts[..|alerts| - 1]);
      OneMoreNews(b, alerts);
      hide NewsInTurn, AddsAny;
      var init, last := alerts[..|alerts| - 1], |alerts| - 1;
      if i :| NewsInTurn(b, init, i) { assert NewsInTurn(b, alerts, i); }
      if i :| NewsInTurn(b, alerts, i) && i != last { assert NewsInTurn(b, init, i); }
    }
  }

  lemma OneMoreNews(b: Batch, alerts: seq<Alert>)
    requires alerts != []
    ensures AddsAny(b, alerts) <==> AddsAny(b, alerts[..|alerts| - 1]) || NewsInTurn(b, alerts, |alerts| - 1)
    ensures forall i :: i != |alerts| - 1 ==> NewsInTurn(b, alerts, i) == NewsInTurn(b, alerts[..|alerts| - 1], i)
  {
    var init, last := alerts[..|alerts| - 1], alerts[|alerts| - 1];
    KnownIs(AddedAll(b, init), last);
    hide AddedAll, Known, News;
    forall i | i != |alerts| - 1 ensures NewsInTurn(b, alerts, i) == NewsInTurn(b, init, i) {
      if 0 <= i < |init| { assert init[..i] == alerts[..i]; }
    }
  }

  /** A caller with nothing to say, or whose alerts were all accepted, is told so
      at once; any other joins a submission of the batch, whose window is 30
      seconds from its first news. */
  lemma EnqueueIs(s: State, call: CallId, alerts: seq<Alert>, now: Date)
    requires Enabled(s, Enqueue(call, alerts, now))
    ensures var s' := Step(s, Enqueue(call, alerts, now));
            var t := s.(issued := s.issued + {call}, batch := if alerts == [] then s.batch else Expired(s.batch, now));
            var b := AddedAll(t.batch, alerts);
            if alerts == [] then s' == t.(answers := s.answers + [Answer(call, true)])
            else if exists i :: NewsInTurn(t.batch, alerts, i) then
              Submits(t.(batch := b), now, Caller(call), s')
            else if forall i :: 0 <= i < |alerts| ==> KeyOf(alerts[i]) in t.batch.accepted
                                                      && t.batch.accepted[KeyOf(alerts[i])] == alerts[i].fingerprint
            then s' == t.(answers := s.answers + [Answer(call, true)])
            else Submits(t, now, Caller(call), s')
  {
    if alerts != [] {
      var b := Expired(s.batch, now);
      AddsAnyIs(b, alerts);
      if AddsAny(b, alerts) {
        NewsIsPending(b, alerts);
      } else if !AllAccepted(b, alerts) {
        UnacceptedIsPending(b, alerts);
      }
    }
  }

  // ------------------------------------------------------ resolving, retaining

  /** A deadline ahead carries over to what is left. */
  predicate Carries(b: Batch, left: Batch, now: Date) {
    left.deadline == if left.pending != map[] && b.deadline != None && b.deadline.value > now then b.deadline else None
  }

  /** With nothing left everyone is told, under a new generation; else the pending
      requests may be asked for. */
  ghost predicate Settles(s: State, s': State, now: Date, asks: bool) {
    && s'.adds == s.adds && s'.issued == s.issued
    && if s'.batch.pending == map[] then
         s'.generation == s.generation + 1 && s'.queries == s.queries && Flushes(s, s', true)
       else
         && s'.generation == s.generation && s'.waiters == s.waiters && s'.answers == s.answers
         && s'.queries == if asks then s.queries + [now] else s.queries
  }

  /** Resolving a scope forgets its alerts, pending or accepted, and no others. */
  lemma ResolveIs(s: State, scope: string, now: Date)
    ensures var s' := Step(s, Resolve(scope, now));
            var b, b' := s.batch, s'.batch;
            && (forall k :: k in b'.pending <==> k in b.pending && b.pending[k].scope != scope)
            && (forall k :: k in b'.pending ==> b'.pending[k] == b.pending[k])
            && (forall k :: k in b'.accepted <==> k in b.accepted && k != scope && !HasPrefix(k, scope + "|"))
            && (forall k :: k in b'.accepted ==> b'.accepted[k] == b.accepted[k])
            && Carries(b, b', now) && Settles(s, s', now, true)
  {
    var left := Unresolved(s.batch, scope);
    var kept := s.(batch := left.(deadline := CarriedOver(left, s.batch.deadline, now)));
    FlushedFlushes(kept.(generation := s.generation + 1), true);
    assert forall k: Key :: HasPrefix(k, scope + "|") <==> scope + "|" <= k;
  }

  /** Retaining some scopes forgets the alerts of all others; a summary is asked
      about only if that changed it. */
  lemma RetainIs(s: State, scopes: set<string>, now: Date)
    ensures var s' := Step(s, Retain(scopes, now));
            var b, b' := s.batch, s'.batch;
            && (forall k :: k in b'.pending <==> k in b.pending && b.pending[k].scope in scopes)
            && (forall k :: k in b'.pending ==> b'.pending[k] == b.pending[k])
            && (forall k :: k in b'.accepted <==>
                  k in b.accepted && exists scope :: scope in scopes && (k == scope || HasPrefix(k, scope + "|")))
            && (forall k :: k in b'.accepted ==> b'.accepted[k] == b.accepted[k])
            && Carries(b, b', now)
            && Settles(s, s', now, exists k :: k in b.pending && b.pending[k].scope !in scopes)
  {
    hide QueryAnswered, TellsAll;
    var left := Retained(s.batch, scopes);
    var kept := s.(batch := left.(deadline := CarriedOver(left, s.batch.deadline, now)));
    FlushedFlushes(kept.(generation := s.generation + 1), true);
    forall k
      ensures OfSomeScope(k, scopes) <==> exists scope :: scope in scopes && (k == scope || HasPrefix(k, scope + "|"))
    {
      if OfSomeScope(k, scopes) {
        var scope :| scope in scopes && OfScope(k, scope);
        assert scope in scopes && (k == scope || HasPrefix(k, scope + "|"));
      }
      if scope :| scope in scopes && (k == scope || HasPrefix(k, scope + "|")) { assert OfScope(k, scope); }
    }
    if forall k :: k in s.batch.pending ==> s.batch.pending[k].scope in scopes { assert left.pending == s.batch.pending; }
  }

  // ----------------------------------------------------------------- callbacks

  /** A summary not delivered yet is replaced by one of what is pending; of one
      delivered only the deadline is forgotten. */
  lemma QueryReplyIs(s: State, i: nat, summaryIsPending: bool)
    requires i < |s.queries|
    ensures var s' := Step(s, QueryReply(i, summaryIsPending));
            var t := s.(queries := s.queries[..i] + s.queries[i + 1..]);
            if s.batch.pending == map[] then s' == t
            else if !summaryIsPending then s' == t.(batch := s.batch.(deadline := None))
            else Submits(t, s.queries[i], Itself, s')
  {
  }

  lemma ClearDeliveredIs(s: State, now: Date)
    ensures var s' := Step(s, ClearDelivered(now));
            if s.batch.pending == map[] then s' == s
            else Submits(s.(batch := s.batch.(deadline := None)), now, Itself, s')
  {
  }

  /** Every alert of the summary is accepted under its fingerprint; other keys
      keep what they had. */
  ghost predicate Accepts(accepted: map<Key, string>, summary: Alerts, accepted': map<Key, string>) {
    && (forall k :: k in accepted' <==> k in accepted || k in summary)
    && (forall k :: k in summary ==> accepted'[k] == summary[k].fingerprint)
    && (forall k :: k in accepted && k !in summary ==> accepted'[k] == accepted[k])
  }

  /** The app in front stands in for the alert: what is pending counts as accepted. */
  lemma SuppressIs(s: State)
    ensures var s' := Step(s, Suppress);
            && Accepts(s.batch.accepted, s.batch.pending, s'.batch.accepted)
            && s'.batch.pending == map[] && s'.batch.deadline == None && s'.generation == s.generation + 1
            && s'.adds == s.adds && s'.queries == s.queries && s'.issued == s.issued && Flushes(s, s', true)
  {
    FlushedFlushes(s, true);
    var cleared := MarkAccepted(s.batch, s.batch.pending).(pending := map[], deadline := None);
    FlushedFlushes(s.(batch := cleared, generation := s.generation + 1), true);
  }

  lemma ClearAllIs(s: State)
    ensures var s' := Step(s, ClearAll);
            && s'.batch == Batch(map[], map[], None) && s'.generation == s.generation + 1
            && s'.adds == s.adds && s'.queries == s.queries && s'.issued == s.issued && Flushes(s, s', false)
  {
    FlushedFlushes(s.(batch := EMPTY_BATCH, generation := s.generation + 1), false);
  }

  /** Only the callback of the current generation tells anyone anything; a
      success accepts just what its submission carried. */
  lemma AddReplyIs(s: State, generation: nat, failed: bool)
    requires generation in s.adds
    ensures var s' := Step(s, AddReply(generation, failed));
            && s'.adds == s.adds - {generation} && s'.generation == s.generation && s'.queries == s.queries
            && s'.issued == s.issued
            && s'.batch.pending == s.batch.pending && s'.batch.deadline == s.batch.deadline
            && if generation != s.generation then
                 s'.waiters == s.waiters && s'.answers == s.answers && s'.batch == s.batch
               else
                 && Flushes(s, s', !failed)
                 && if failed then s'.batch == s.batch
                    else Accepts(s.batch.accepted, s.adds[generation], s'.batch.accepted)
  {
    var taken := s.(adds := s.adds - {generation});
    FlushedFlushes(if failed then taken else taken.(batch := MarkAccepted(s.batch, s.adds[generation])), !failed);
  }
}
