/** What the history kept by the step system means in terms of the events
    themselves: when a sent payload was selected, what was paused by then, and
    what counts as left alone. */
module OutboxHistory {
  import opened Base
  import opened OutboxTypes
  import opened OutboxTransitions
  import opened OutboxInvariant
  import opened OutboxReachable
  import opened OutboxProtocol
  import opened OutboxMeaning

  ghost function After(events: seq<Event>, n: nat, cfg: Config): System
    requires n <= |events|
  {
    Run(INITIAL, events[..n], cfg)
  }

  lemma AfterNext(events: seq<Event>, n: nat, cfg: Config)
    requires n < |events|
    ensures After(events, n + 1, cfg) == Apply(After(events, n, cfg), events[n], cfg)
  {
    hide Apply;
    assert events[..n + 1][..n] == events[..n];
  }

  // -------------------------------------------------------------------- pauses

  /** A receipt of a terminal outcome for the batch came with the step. */
  ghost predicate PausesBatch(s: Snapshot, s': Snapshot, batchId: string) {
    exists r :: r in s'.receipts && r !in s.receipts && r.batchId == batchId
                && (r.outcome == Rejected || r.outcome == Expired || r.outcome == NeedsResign)
  }

  /** The step is an arm or a recovery of the batch that was carried out. */
  ghost predicate RearmsBatch(s: Snapshot, e: Event, batchId: string, cfg: Config) {
    && e.Change? && e.persisted && Mutate(s, e.mutation, cfg).Success?
    && ((e.mutation.Arm? && e.mutation.batchId == batchId) || (e.mutation.Recover? && e.mutation.batchId == batchId))
  }

  lemma PausedAfterStep(y: System, e: Event, cfg: Config, batchId: string)
    ensures var y' := Apply(y, e, cfg);
            batchId in y'.paused
            <==> (batchId in y.paused || PausesBatch(y.store, y'.store, batchId)) && !RearmsBatch(y.store, e, batchId, cfg)
  {
    hide Mutate, Choose, Record, RecordCancelled, RecoverInterrupted, NextEndpoint, Lookup;
    var s, s' := y.store, Apply(y, e, cfg).store;
    assert batchId in NewlyPaused(s, s') <==> PausesBatch(s, s', batchId) by { NewlyPausedIs(s, s', batchId); }
    assert batchId !in NewlyPaused(s, s) by { NewlyPausedIs(s, s, batchId); }
    hide NewlyPaused, PausesBatch;
  }

  lemma NewlyPausedIs(s: Snapshot, s': Snapshot, batchId: string)
    ensures batchId in NewlyPaused(s, s') <==> PausesBatch(s, s', batchId)
  {
  }

  ghost predicate PausesAt(events: seq<Event>, n: nat, batchId: string, cfg: Config)
    requires n < |events|
  {
    PausesBatch(After(events, n, cfg).store, After(events, n + 1, cfg).store, batchId)
  }

  ghost predicate RearmsAt(events: seq<Event>, n: nat, batchId: string, cfg: Config)
    requires n < |events|
  {
    RearmsBatch(After(events, n, cfg).store, events[n], batchId, cfg)
  }

  /** Paused and not armed or recovered since. */
  ghost predicate StaysPaused(events: seq<Event>, n: nat, batchId: string, cfg: Config)
    requires n < |events|
  {
    PausesAt(events, n, batchId, cfg) && forall m :: n <= m < |events| ==> !RearmsAt(events, m, batchId, cfg)
  }

  lemma SamePast(events: seq<Event>, e: Event, n: nat, batchId: string, cfg: Config)
    requires n < |events|
    ensures PausesAt(events + [e], n, batchId, cfg) == PausesAt(events, n, batchId, cfg)
    ensures RearmsAt(events + [e], n, batchId, cfg) == RearmsAt(events, n, batchId, cfg)
  {
    hide Run;
    assert (events + [e])[..n] == events[..n] && (events + [e])[..n + 1] == events[..n + 1];
  }

  /** The batches the history counts as paused are those paused by a terminal
      outcome and neither armed nor recovered since. */
  lemma {:induction false} PausedIs(events: seq<Event>, cfg: Config, batchId: string)
    ensures batchId in Run(INITIAL, events, cfg).paused
            <==> exists n :: 0 <= n < |events| && StaysPaused(events, n, batchId, cfg)
    decreases |events|
  {
    hide Apply, PausesBatch, RearmsBatch;
    if events != [] {
      var last := |events| - 1;
      var before, e := events[..last], events[last];
      PausedIs(before, cfg, batchId);
      PausedAfterStep(Run(INITIAL, before, cfg), e, cfg, batchId);
      AfterNext(events, last, cfg);
      assert events[..|events|] == events && before + [e] == events;
      forall n: nat | n < last
        ensures PausesAt(events, n, batchId, cfg) == PausesAt(before, n, batchId, cfg)
        ensures RearmsAt(events, n, batchId, cfg) == RearmsAt(before, n, batchId, cfg)
      {
        SamePast(before, e, n, batchId, cfg);
      }
      var was, now := Run(INITIAL, before, cfg), Run(INITIAL, events, cfg);
      assert batchId in now.paused
             <==> (batchId in was.paused || PausesAt(events, last, batchId, cfg)) && !RearmsAt(events, last, batchId, cfg);
      hide PausesAt, RearmsAt, Run;
      if n: nat :| n < last && StaysPaused(before, n, batchId, cfg) && !RearmsAt(events, last, batchId, cfg) {
        assert StaysPaused(events, n, batchId, cfg);
      }
      if n: nat :| n < last && StaysPaused(events, n, batchId, cfg) {
        assert StaysPaused(before, n, batchId, cfg);
      }
      if PausesAt(events, last, batchId, cfg) && !RearmsAt(events, last, batchId, cfg) {
        assert StaysPaused(events, last, batchId, cfg);
      }
    }
  }

  // ---------------------------------------------------------------- selections

  /** Event `n` is the selection that began the attempt. */
  ghost predicate SelectedBy(events: seq<Event>, n: nat, a: Attempt, cfg: Config)
    requires n < |events|
  {
    var y := After(events, n + 1, cfg);
    events[n].Select? && events[n].height == a.height && y.phase == Chosen(a.(live := true, quiet := true))
    && y.paused == a.paused
  }

  ghost predicate Selected(events: seq<Event>, a: Attempt, cfg: Config) {
    exists n :: 0 <= n < |events| && SelectedBy(events, n, a, cfg)
  }

  lemma SelectedStays(events: seq<Event>, e: Event, a: Attempt, a': Attempt, cfg: Config)
    requires Selected(events, a, cfg) && a' == a.(live := a'.live, quiet := a'.quiet)
    ensures Selected(events + [e], a', cfg)
  {
    hide Run;
    var n :| 0 <= n < |events| && SelectedBy(events, n, a, cfg);
    assert (events + [e])[..n + 1] == events[..n + 1];
    assert SelectedBy(events + [e], n, a', cfg);
  }

  ghost predicate AllSelected(y: System, events: seq<Event>, cfg: Config) {
    && (y.phase.Chosen? || y.phase.Sending? ==> Selected(events, y.phase.attempt, cfg))
    && forall i :: 0 <= i < |y.wire| ==> Selected(events, y.wire[i].attempt, cfg)
  }

  /** A step either selects or carries the attempt on. */
  lemma AttemptAfterStep(y: System, e: Event, cfg: Config)
    ensures var y' := Apply(y, e, cfg);
            && (y'.phase.Chosen? || y'.phase.Sending? ==>
                  || ((y.phase.Chosen? || y.phase.Sending?)
                      && y'.phase.attempt == y.phase.attempt.(live := y'.phase.attempt.live,
                                                              quiet := y'.phase.attempt.quiet))
                  || (e.Select? && y'.phase.Chosen? && y'.phase.attempt.height == e.height && y'.phase.attempt.live
                      && y'.phase.attempt.quiet && y'.phase.attempt.paused == y'.paused))
            && (y'.wire == y.wire
                || (e.Send? && y.phase.Chosen? && y'.wire == y.wire + [Sent(y.run, y.phase.attempt)]))
  {
    hide Mutate, Choose, Record, RecordCancelled, RecoverInterrupted, NextEndpoint, Lookup, NewlyPaused;
  }

  lemma {:induction false} EveryAttemptWasSelected(events: seq<Event>, cfg: Config)
    ensures AllSelected(Run(INITIAL, events, cfg), events, cfg)
    decreases |events|
  {
    hide Apply;
    if events != [] {
      var last := |events| - 1;
      var before, e := events[..last], events[last];
      EveryAttemptWasSelected(before, cfg);
      assert before + [e] == events && events[..|events|] == events;
      var y, y' := Run(INITIAL, before, cfg), Run(INITIAL, events, cfg);
      AttemptAfterStep(y, e, cfg);
      hide Run, Selected;
      if y'.phase.Chosen? || y'.phase.Sending? {
        var a := y'.phase.attempt;
        if (y.phase.Chosen? || y.phase.Sending?) && a == y.phase.attempt.(live := a.live, quiet := a.quiet) {
          SelectedStays(before, e, y.phase.attempt, a, cfg);
        } else {
          SelectedNow(events, last, y', cfg);
        }
      }
      forall i | 0 <= i < |y'.wire| ensures Selected(events, y'.wire[i].attempt, cfg) {
        var a := y'.wire[i].attempt;
        SelectedStays(before, e, a, a, cfg);
      }
    }
  }

  lemma SelectedNow(events: seq<Event>, last: nat, y: System, cfg: Config)
    requires last + 1 == |events| && y == Run(INITIAL, events, cfg) && events[last].Select? && y.phase.Chosen?
    requires y.phase.attempt.height == events[last].height && y.phase.attempt.live && y.phase.attempt.quiet
    requires y.phase.attempt.paused == y.paused
    ensures Selected(events, y.phase.attempt, cfg)
  {
    hide Run;
    assert events[..last + 1] == events;
    assert SelectedBy(events, last, y.phase.attempt, cfg);
  }

  /** Every payload sent belongs to a selection before which each terminal
      outcome of its batch was followed by an arm or a recovery of that batch. */
  lemma EverySentPayloadWasUnpaused(events: seq<Event>, cfg: Config, i: nat)
    requires AllAdmissible(events, cfg) && i < |Run(INITIAL, events, cfg).wire|
    ensures var a := Run(INITIAL, events, cfg).wire[i].attempt;
            exists n :: 0 <= n < |events| && SelectedBy(events, n, a, cfg)
              && forall p :: 0 <= p <= n && PausesAt(events, p, a.sel.batchId, cfg) ==>
                   exists m :: p <= m <= n && RearmsAt(events, m, a.sel.batchId, cfg)
  {
    hide Run, PausesAt, RearmsAt;
    EveryAttemptWasSelected(events, cfg);
    EverySentPayloadWasDue(events, cfg, i);
    var a := Run(INITIAL, events, cfg).wire[i].attempt;
    var n :| 0 <= n < |events| && SelectedBy(events, n, a, cfg);
    var past := events[..n + 1];
    PausedIs(past, cfg, a.sel.batchId);
    forall p | 0 <= p <= n && PausesAt(events, p, a.sel.batchId, cfg)
      ensures exists m :: p <= m <= n && RearmsAt(events, m, a.sel.batchId, cfg)
    {
      SamePrefix(events, n, p, a.sel.batchId, cfg);
      assert !StaysPaused(past, p, a.sel.batchId, cfg);
      var m :| p <= m < |past| && RearmsAt(past, m, a.sel.batchId, cfg);
      SamePrefix(events, n, m, a.sel.batchId, cfg);
    }
  }

  lemma SamePrefix(events: seq<Event>, n: nat, m: nat, batchId: string, cfg: Config)
    requires m <= n < |events|
    ensures PausesAt(events[..n + 1], m, batchId, cfg) == PausesAt(events, m, batchId, cfg)
    ensures RearmsAt(events[..n + 1], m, batchId, cfg) == RearmsAt(events, m, batchId, cfg)
  {
    hide Run;
    assert events[..n + 1][..m] == events[..m] && events[..n + 1][..m + 1] == events[..m + 1];
  }

  // ---------------------------------------------------- acceptances, left alone

  /** The send itself, or an update that neither arms nor recovers the batch. */
  predicate LeavesAlone(e: Event, batchId: string) {
    e.Send? || (e.Change? && !(e.mutation.Arm? && e.mutation.batchId == batchId)
                && !(e.mutation.Recover? && e.mutation.batchId == batchId))
  }

  /** An attempt left alone, its record stored throughout, stays as selected. */
  lemma {:induction false} LeftAlone(y: System, later: seq<Event>, cfg: Config)
    requires y.phase.Chosen? || y.phase.Sending?
    requires y.phase.attempt.live && y.phase.attempt.quiet
    requires forall i :: 0 <= i < |later| ==> LeavesAlone(later[i], y.phase.attempt.sel.batchId)
    requires forall n :: 0 <= n <= |later| ==>
               Lookup(Run(y, later[..n], cfg).store, SelectedKey(y.phase.attempt.sel)).Some?
    ensures var y' := Run(y, later, cfg);
            (y'.phase.Chosen? || y'.phase.Sending?) && y'.phase.attempt == y.phase.attempt
    decreases |later|
  {
    if later != [] {
      var last := |later| - 1;
      assert later[..|later|] == later;
      assert forall n :: 0 <= n <= last ==> later[..last][..n] == later[..n];
      LeftAlone(y, later[..last], cfg);
      assert Lookup(Run(y, later, cfg).store, SelectedKey(y.phase.attempt.sel)).Some?;
      LeftAloneStep(Run(y, later[..last], cfg), later[last], cfg);
    }
  }

  lemma LeftAloneStep(y: System, e: Event, cfg: Config)
    requires (y.phase.Chosen? || y.phase.Sending?) && y.phase.attempt.live
    requires LeavesAlone(e, y.phase.attempt.sel.batchId)
    requires Lookup(Apply(y, e, cfg).store, SelectedKey(y.phase.attempt.sel)).Some?
    ensures var y' := Apply(y, e, cfg);
            (y'.phase.Chosen? || y'.phase.Sending?) && y'.phase.attempt == y.phase.attempt
  {
    hide Mutate, Lookup, NewlyPaused;
  }

  /** Once a selection is sent, with its record stored throughout and its batch
      neither armed nor recovered meanwhile, every acceptance of it is recorded,
      whatever the reply, the shuffle and the draws. */
  lemma LeftAloneIsRecorded(earlier: seq<Event>, select: Event, later: seq<Event>, cfg: Config, equivalent: bool,
                            code: int, message: string, rank: nat -> int, draws: nat -> int)
    requires AllAdmissible(earlier + [select] + later, cfg) && select.Select?
    requires Run(INITIAL, earlier, cfg).phase.Inspected? && select.height + 69_120 < 0x1_0000_0000_0000_0000
    requires Apply(Run(INITIAL, earlier, cfg), select, cfg).phase.Chosen?
    requires var sel := Apply(Run(INITIAL, earlier, cfg), select, cfg).phase.attempt.sel;
             && (forall i :: 0 <= i < |later| ==> LeavesAlone(later[i], sel.batchId))
             && forall n :: 0 <= n <= |later| ==>
                  Lookup(Run(Apply(Run(INITIAL, earlier, cfg), select, cfg), later[..n], cfg).store, SelectedKey(sel)).Some?
    requires Run(INITIAL, earlier + [select] + later, cfg).phase.Sending?
    ensures var a := Apply(Run(INITIAL, earlier, cfg), select, cfg).phase.attempt;
            RecordAccepted(Run(INITIAL, earlier + [select] + later, cfg).store, a.sel.item.itemId, equivalent,
                           select.height, code, message, a.now, rank, draws).Success?
  {
    hide Choose, RecordAccepted;
    var y := Run(INITIAL, earlier, cfg);
    var begun := Apply(y, select, cfg);
    assert begun.phase.attempt.live && begun.phase.attempt.quiet && begun.phase.attempt.height == select.height;
    hide Apply;
    LeftAlone(begun, later, cfg);
    assert Run(INITIAL, earlier + [select], cfg) == begun by {
      assert (earlier + [select])[..|earlier|] == earlier;
    }
    RunConcat(INITIAL, earlier + [select], later, cfg);
    CanonicalExpiryIs(select.height);
    hide Run;
    AcceptanceIsAlwaysRecorded(earlier + [select] + later, cfg, equivalent, code, message, rank, draws);
  }
}
