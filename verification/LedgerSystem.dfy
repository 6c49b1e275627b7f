/** Any number of handlers, replaced ones included, on shared transports: the
    theorems for every interleaving of their events. */
module LedgerSystem {
  import opened Base
  import opened Ledger
  import opened LedgerSafety

  datatype System = System(handlers: map<HandlerId, Handler>, owners: Owners)

  const INITIAL := System(map[], map[])

  datatype SystemEvent = Create(id: HandlerId, transport: TransportId) | At(id: HandlerId, event: Event, world: World)

  predicate Possible(y: System, e: SystemEvent) {
    match e
    case Create(id, _) => id !in y.handlers
    case At(id, event, _) => id in y.handlers && Enabled(y.handlers[id], event)
  }

  /** A refused claim asks the present owner to retry its close. */
  function Nudged(y: System, transport: TransportId): System {
    if transport in y.owners && y.owners[transport] in y.handlers then
      var o := y.owners[transport];
      y.(handlers := y.handlers[o := ScheduleCloseRetry(y.handlers[o], y.owners)])
    else y
  }

  /** What is not possible does not happen. */
  function Next(y: System, e: SystemEvent): System {
    if !Possible(y, e) then y
    else
      match e
      case Create(id, transport) => y.(handlers := y.handlers[id := NewHandler(id, transport)])
      case At(id, event, world) =>
        var a := Step(y.handlers[id], y.owners, event, world);
        var stepped := System(y.handlers[id := a.h], a.owners);
        if a.contested then Nudged(stepped, a.h.transport) else stepped
  }

  function Run(y: System, events: seq<SystemEvent>): System {
    if events == [] then y else Next(Run(y, events[..|events| - 1]), events[|events| - 1])
  }

  // -------------------------------------------------------------- the invariant

  ghost predicate HandlerInv(y: System, id: HandlerId)
    requires id in y.handlers
  {
    y.handlers[id].id == id && Inv(y.handlers[id], y.owners)
  }

  ghost predicate SystemInv(y: System) { forall id :: id in y.handlers ==> HandlerInv(y, id) }

  lemma NewHandlerIsIdle(id: HandlerId, transport: TransportId, owners: Owners)
    ensures Inv(NewHandler(id, transport), owners)
  {
  }

  lemma NudgedKeeps(y: System, transport: TransportId)
    requires SystemInv(y)
    ensures SystemInv(Nudged(y, transport))
  {
    if transport in y.owners && y.owners[transport] in y.handlers {
      var o := y.owners[transport];
      assert HandlerInv(y, o);
      RetryKeeps(y.handlers[o], y.owners);
      forall id | id in Nudged(y, transport).handlers ensures HandlerInv(Nudged(y, transport), id) {
        assert id in y.handlers && HandlerInv(y, id);
      }
    }
  }

  lemma NextKeeps(y: System, e: SystemEvent)
    requires SystemInv(y)
    ensures SystemInv(Next(y, e))
  {
    if Possible(y, e) {
      match e {
        case Create(id, transport) =>
          NewHandlerIsIdle(id, transport, y.owners);
          forall other | other in Next(y, e).handlers ensures HandlerInv(Next(y, e), other) {
            assert other != id ==> HandlerInv(y, other);
          }
        case At(id, event, world) =>
          assert HandlerInv(y, id);
          var h := y.handlers[id];
          StepKeeps(h, y.owners, event, world);
          var a := Step(h, y.owners, event, world);
          var stepped := System(y.handlers[id := a.h], a.owners);
          forall other | other in stepped.handlers ensures HandlerInv(stepped, other) {
            if other != id {
              assert HandlerInv(y, other);
              OthersKeepTheirTransport(h, y.owners, a.owners, y.handlers[other]);
            }
          }
          NudgedKeeps(stepped, a.h.transport);
      }
    }
  }

  lemma {:induction false} EveryInterleavingIsSafe(events: seq<SystemEvent>)
    ensures SystemInv(Run(INITIAL, events))
    decreases |events|
  {
    if events != [] {
      EveryInterleavingIsSafe(events[..|events| - 1]);
      NextKeeps(Run(INITIAL, events[..|events| - 1]), events[|events| - 1]);
    }
  }

  // ---------------------------------------------------------------- the theorems

  /** Whatever is interleaved, a handler starts a connect, disconnect or scan
      only with no exchange task alive and no SDK callback outstanding; the
      task starts an exchange, or the app switch its reconnect, only with no
      callback outstanding. */
  lemma StartsAreExclusive(events: seq<SystemEvent>, id: HandlerId, i: nat)
    requires id in Run(INITIAL, events).handlers && i < |Run(INITIAL, events).handlers[id].history.starts|
    ensures var s := Run(INITIAL, events).handlers[id].history.starts[i];
            s.outstanding == {} && (s.taskAlive ==> s.kind.Exchange? || s.kind.Reconnect?)
  {
    EveryInterleavingIsSafe(events);
    assert HandlerInv(Run(INITIAL, events), id);
  }

  /** Two handlers never both have an operation outstanding on one transport,
      nor one an operation while the other scans or waits for permission. */
  lemma OneHandlerPerTransport(events: seq<SystemEvent>, a: HandlerId, b: HandlerId)
    requires a in Run(INITIAL, events).handlers && b in Run(INITIAL, events).handlers && a != b
    requires Run(INITIAL, events).handlers[a].transport == Run(INITIAL, events).handlers[b].transport
    ensures var y := Run(INITIAL, events);
            && !(UsesTransport(y.handlers[a]) && UsesTransport(y.handlers[b]))
            && (y.handlers[a].history.outstanding == {} || y.handlers[b].history.outstanding == {})
  {
    EveryInterleavingIsSafe(events);
    var y := Run(INITIAL, events);
    assert HandlerInv(y, a) && HandlerInv(y, b);
    if !UsesTransport(y.handlers[a]) {
      IdleHasNothingOutstanding(y.handlers[a]);
    } else {
      IdleHasNothingOutstanding(y.handlers[b]);
    }
  }

  /** Every channel call is answered exactly once or held in exactly one slot. */
  lemma CallsAreAnsweredOnce(events: seq<SystemEvent>, id: HandlerId, call: CallId)
    requires id in Run(INITIAL, events).handlers && call in Run(INITIAL, events).handlers[id].history.issued
    ensures var h := Run(INITIAL, events).handlers[id];
            && (call in h.history.answers <==> !Held(h, call))
            && NoDuplicates(h.history.answers)
            && (h.permissionResult == Some(call) ==> h.link.callbackResult != Some(call))
            && (h.permissionResult == Some(call) ==> h.exchange.result != Some(call))
            && (h.link.callbackResult == Some(call) ==> h.exchange.result != Some(call))
  {
    EveryInterleavingIsSafe(events);
    assert HandlerInv(Run(INITIAL, events), id);
  }

  lemma NudgedGrows(y: System, transport: TransportId, id: HandlerId)
    requires id in y.handlers
    ensures id in Nudged(y, transport).handlers && Silent(y.handlers[id], Nudged(y, transport).handlers[id])
  {
  }

  /** A command goes out only for a call that is still unanswered. */
  lemma SendsForUnanswered(y: System, e: SystemEvent, id: HandlerId)
    requires SystemInv(y) && id in y.handlers
    ensures id in Next(y, e).handlers
    ensures var h, h' := y.handlers[id], Next(y, e).handlers[id];
            && Grows(h, h')
            && (h'.history.apdus == h.history.apdus
                || exists call :: h'.history.apdus == h.history.apdus + [call] && call !in h.history.answers)
  {
    hide Sending, Step, Released;
    if Possible(y, e) && e.At? {
      var h := y.handlers[e.id];
      assert HandlerInv(y, e.id);
      var a := Step(h, y.owners, e.event, e.world);
      NudgedGrows(System(y.handlers[e.id := a.h], a.owners), a.h.transport, id);
      if e.event.TaskSends? && e.id == id {
        assert Held(h, h.exchange.task.value.call);
      }
    }
  }

  /** Once a call has been answered, be it by cancellation, disconnect or close,
      it is not answered again and no further command of it is sent. */
  lemma {:induction false} AnsweredCallsStaySilent(y: System, later: seq<SystemEvent>, id: HandlerId, call: CallId)
    requires SystemInv(y) && id in y.handlers && call in y.handlers[id].history.answers
    ensures SystemInv(Run(y, later)) && id in Run(y, later).handlers
    ensures var h, h' := y.handlers[id], Run(y, later).handlers[id];
            && Grows(h, h') && |h.history.apdus| <= |h'.history.apdus|
            && call !in h'.history.answers[|h.history.answers|..]
            && call !in h'.history.apdus[|h.history.apdus|..]
    decreases |later|
  {
    if later != [] {
      var before := later[..|later| - 1];
      AnsweredCallsStaySilent(y, before, id, call);
      var z := Run(y, before);
      NextKeeps(z, later[|later| - 1]);
      SendsForUnanswered(z, later[|later| - 1], id);
      StillSilent(y.handlers[id].history, z.handlers[id].history, Run(y, later).handlers[id].history, call);
    }
    assert HandlerInv(Run(y, later), id);
    AnsweredOnce(y.handlers[id].history.answers, Run(y, later).handlers[id].history.answers, call);
  }

  /** A command sent after `call` was answered is not one of its. */
  lemma StillSilent(h: History, h1: History, h2: History, call: CallId)
    requires call in h.answers && h.answers <= h1.answers && |h.apdus| <= |h1.apdus| && call !in h1.apdus[|h.apdus|..]
    requires h2.apdus == h1.apdus || exists sent :: h2.apdus == h1.apdus + [sent] && sent !in h1.answers
    ensures |h.apdus| <= |h2.apdus| && call !in h2.apdus[|h.apdus|..]
  {
    if h2.apdus != h1.apdus {
      var sent :| h2.apdus == h1.apdus + [sent] && sent !in h1.answers;
      assert h2.apdus[|h.apdus|..] == h1.apdus[|h.apdus|..] + [sent];
      assert call in h1.answers;
    }
  }

  lemma AnsweredOnce(earlier: seq<CallId>, answers: seq<CallId>, call: CallId)
    requires earlier <= answers && call in earlier && NoDuplicates(answers)
    ensures call !in answers[|earlier|..]
  {
    forall i | |earlier| <= i < |answers| ensures answers[i] != call {
      var j :| 0 <= j < |earlier| && earlier[j] == call;
      assert answers[j] == call;
    }
  }

  /** A closing handler has answered every call it was ever given. */
  lemma ClosingAnswersEverything(events: seq<SystemEvent>, id: HandlerId, call: CallId)
    requires id in Run(INITIAL, events).handlers && Run(INITIAL, events).handlers[id].closing.isClosing
    requires call in Run(INITIAL, events).handlers[id].history.issued
    ensures call in Run(INITIAL, events).handlers[id].history.answers
  {
    EveryInterleavingIsSafe(events);
    assert HandlerInv(Run(INITIAL, events), id);
  }

  /** Cancelling answers the connect or exchange in progress at once, while the
      SDK may still hold its callback. */
  lemma CancellingAnswersAtOnce(y: System, id: HandlerId, cancel: CallId, call: CallId, w: World)
    requires SystemInv(y) && id in y.handlers && cancel !in y.handlers[id].history.issued
    requires var h := y.handlers[id];
             h.exchange.result == Some(call) || (h.link.connectPending && h.link.callbackResult == Some(call))
    ensures var h' := Next(y, At(id, Call(cancel, CancelSigning), w)).handlers[id];
            && call in h'.history.answers && cancel in h'.history.answers
            && h'.history.outstanding == y.handlers[id].history.outstanding
  {
    hide SlotsInv, CancelPreparation, TaskStep, Closed;
    var h := y.handlers[id];
    assert HandlerInv(y, id);
    HandleKeeps(h, y.owners, cancel, CancelSigning, w);
    CancelKeeps(h, y.owners, true);
    var c := CancelExchange(h, true);
    assert Held(h, call) && call in h.history.issued && call in c.history.issued;
    assert c.link.callbackResult == h.link.callbackResult || c.link.callbackResult.None? by {
      CancelledResult(h);
    }
    assert !Held(c, call);
  }

  lemma CancelledResult(h: Handler)
    ensures var c := CancelExchange(h, true);
            c.link.callbackResult == h.link.callbackResult || c.link.callbackResult.None?
  {
  }

  /** A connect refused because another, closing handler owns the transport has
      that owner retry its close. */
  lemma RefusedConnectNudgesOwner(y: System, id: HandlerId, owner: HandlerId, call: CallId, valid: bool, w: World)
    requires SystemInv(y) && id in y.handlers && owner in y.handlers && call !in y.handlers[id].history.issued
    requires var h, o := y.handlers[id], y.handlers[owner];
             && owner != id && !h.closing.isClosing && h.permissionResult == None && h.exchange.task == None
             && !h.link.callbackPending
             && h.transport in y.owners && y.owners[h.transport] == owner && o.transport == h.transport
             && o.closing.isClosing
    ensures var y' := Next(y, At(id, Call(call, ConnectCall(valid)), w));
            && y'.owners == y.owners && call in y'.handlers[id].history.answers
            && y'.handlers[id].history.starts == y.handlers[id].history.starts
            && y'.handlers[owner] == y.handlers[owner].(closing := y.handlers[owner].closing.(retryScheduled := true))
  {
    assert HandlerInv(y, owner) && HandlerInv(y, id);
  }

  /** An event touches no other handler, except that the owner of a transport it
      asked for in vain retries its close. */
  lemma OthersStay(y: System, id: HandlerId, e: Event, w: World, other: HandlerId)
    requires other in y.handlers && other != id && Possible(y, At(id, e, w))
    ensures other in Next(y, At(id, e, w)).handlers
    ensures var a := Step(y.handlers[id], y.owners, e, w);
            var g, g' := y.handlers[other], Next(y, At(id, e, w)).handlers[other];
            if a.contested && a.h.transport in a.owners && a.owners[a.h.transport] == other
               && g.closing.isClosing && g.transport in a.owners && a.owners[g.transport] == g.id
            then g' == g.(closing := g.closing.(retryScheduled := true))
            else g' == g
  {
    hide Step;
  }
}
