/** The "transfers sent" announcement: acknowledged at most once per batch id
    between revocations, and never lost to an acknowledgement of receipts. */
module OutboxAnnouncements {
  import opened Base
  import opened OutboxTypes
  import opened OutboxTransitions
  import opened OutboxInvariant
  import opened OutboxOperations
  import opened OutboxSelection
  import opened OutboxReachable
  import opened OutboxProtocol

  /** The event acknowledges the announcement of batch `id`. */
  predicate Announces(y: System, e: Event, id: string, cfg: Config) {
    e.Change? && e.persisted && e.mutation.AcknowledgeAnnouncement? && e.mutation.batchId == id
    && Mutate(y.store, e.mutation, cfg).Success?
  }

  /** The event drops what is remembered about `id`: its scope is revoked, by
      prefix of the id, or the store is removed. */
  predicate Forgets(e: Event, id: string) {
    e.Change? && e.persisted
    && (e.mutation.RemoveAll? || (e.mutation.RevokeScope? && ScopePrefix(e.mutation.network, e.mutation.account) <= id))
  }

  function Announcements(y: System, events: seq<Event>, id: string, cfg: Config): nat {
    if events == [] then 0
    else
      var before := events[..|events| - 1];
      Announcements(y, before, id, cfg)
      + (if Announces(Run(y, before, cfg), events[|events| - 1], id, cfg) then 1 else 0)
  }

  lemma SweepsKeepAnnounced(s: Snapshot, endpoint: string, height: UInt64, now: Date, attemptId: string, verify: bool)
    requires Choose(s, endpoint, height, now, attemptId, verify).Success?
    ensures Choose(s, endpoint, height, now, attemptId, verify).value.0.announced == s.announced
  {
    hide Location, FirstIndex;
    assert MarkNeedingResign(ExpireItems(s, height, endpoint, now), height, endpoint, now).announced == s.announced;
  }

  lemma RecordsKeepAnnounced(s: Snapshot, a: Attempt, reply: Reply, rank: nat -> int, draws: nat -> int)
    requires Record(s, a.sel, a.height, a.now, reply, rank, draws).Success?
    ensures Record(s, a.sel, a.height, a.now, reply, rank, draws).value.announced == s.announced
  {
  }

  lemma MutationKeepsAnnounced(y: System, m: Mutation, id: string, cfg: Config)
    requires Mutate(y.store, m, cfg).Success? && id in y.store.announced && !Forgets(Change(m, true), id)
    ensures id in Mutate(y.store, m, cfg).value.announced
  {
  }

  lemma AnnouncedStays(y: System, e: Event, id: string, cfg: Config)
    requires id in y.store.announced && !Forgets(e, id)
    ensures id in Apply(y, e, cfg).store.announced
  {
    match e
    case Change(m, persisted) =>
      if persisted && Mutate(y.store, m, cfg).Success? { MutationKeepsAnnounced(y, m, id, cfg); }
    case Select(height, attemptId, verify, persisted) =>
      if y.phase.Inspected? && persisted {
        var r := Choose(y.store, y.phase.endpoint, height, y.phase.now, attemptId, verify);
        if r.Success? { SweepsKeepAnnounced(y.store, y.phase.endpoint, height, y.phase.now, attemptId, verify); }
      }
    case Finish(reply, rank, draws, persisted) =>
      if y.phase.Sending? && persisted {
        var a := y.phase.attempt;
        if Record(y.store, a.sel, a.height, a.now, reply, rank, draws).Success? {
          RecordsKeepAnnounced(y.store, a, reply, rank, draws);
        }
      }
    case _ =>
  }

  lemma AnnouncesOnlyNew(y: System, e: Event, id: string, cfg: Config)
    requires SystemInv(y, cfg) && Announces(y, e, id, cfg)
    ensures id !in y.store.announced && id in Apply(y, e, cfg).store.announced
  {
    hide FirstIndex, Choose, Stage;
    var bi := BatchIndex(y.store.batches, id).value;
    assert y.store.batches[bi].sentPending.Some?;
  }

  /** Between revocations the announcement of a batch id is acknowledged at most
      once, however often the record is pruned and staged again. */
  lemma {:induction false} AnnouncedAtMostOnce(y: System, events: seq<Event>, id: string, cfg: Config)
    requires SystemInv(y, cfg) && AllAdmissible(events, cfg)
    requires forall i :: 0 <= i < |events| ==> !Forgets(events[i], id)
    ensures SystemInv(Run(y, events, cfg), cfg)
    ensures Announcements(y, events, id, cfg) <= (if id in y.store.announced then 0 else 1)
    ensures Announcements(y, events, id, cfg) > 0 || id in y.store.announced ==> id in Run(y, events, cfg).store.announced
    decreases |events|
  {
    if events != [] {
      var before, e := events[..|events| - 1], events[|events| - 1];
      AnnouncedAtMostOnce(y, before, id, cfg);
      var y1 := Run(y, before, cfg);
      EventKeeps(y1, e, cfg);
      if id in y1.store.announced { AnnouncedStays(y1, e, id, cfg); }
      if Announces(y1, e, id, cfg) { AnnouncesOnlyNew(y1, e, id, cfg); }
    }
  }

  /** A batch owing the announcement survives every acknowledgement of receipts
      with the announcement still pending. */
  lemma PendingAnnouncementSurvives(s: Snapshot, ids: set<string>, owner: Owner, i: nat)
    requires Inv(s, owner) && i < |s.batches| && s.batches[i].sentPending.Some?
    ensures exists b' :: b' in Acknowledge(s, ids).batches && b'.batchId == s.batches[i].batchId
                         && b'.sentPending == s.batches[i].sentPending
  {
    var b := s.batches[i];
    forall r | r in s.receipts && r.batchId == b.batchId ensures !Terminal(r.outcome) {
      assert HasItem(s.batches, r);
      var a, j :| AboutItem(s.batches, r, a, j);
      assert BatchOk(s.batches[i], owner);
      assert a == i;
    }
    AcknowledgeMembers(s, ids, b);
  }
}
