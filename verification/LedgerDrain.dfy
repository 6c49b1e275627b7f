/** A link whose connect was cancelled is never used again: until it is seen down
    or its disconnect succeeds, nothing but a disconnect starts on the handler. */
module LedgerDrain {
  import opened Base
  import opened Ledger
  import opened LedgerSafety
  import opened LedgerMeaning
  import opened LedgerSystem

  /** The link is cut off, and no scan is wanted either. */
  predicate Blocked(h: Handler) { h.link.needsDisconnect && !h.discovery.requested }

  /** The transport reports that the link is down. */
  predicate SeesItDown(e: Event, w: World) { !w.connected || (e.DrainCallback? && !e.failed) }

  predicate StartsOnlyDisconnects(h: Handler, h': Handler) {
    h.history.starts <= h'.history.starts
    && forall i :: |h.history.starts| <= i < |h'.history.starts| ==>
         h'.history.starts[i].kind in {DrainDisconnect, CloseDisconnect}
  }

  lemma BlockedCall(h: Handler, owners: Owners, call: CallId, m: Method, w: World)
    requires Inv(h, owners) && Enabled(h, Call(call, m)) && Blocked(h) && w.connected
    ensures var h' := Step(h, owners, Call(call, m), w).h; Blocked(h') && StartsOnlyDisconnects(h, h')
  {
    hide Step, Handle, Conserved, ExclusiveStarts, UsesTransport;
    CallIsHandled(h, owners, call, m, w);
    match m
    case RequestPermissions => PermissionsIs(h, owners, call, w);
    case StartDiscoveryCall => StartDiscoveryIs(h, owners, call, w);
    case ConnectCall(valid) => ConnectIs(h, owners, call, valid, w);
    case DisconnectCall => DisconnectIs(h, owners, call, w);
    case ExchangeCall(kind, valid) => ExchangeIs(h, owners, call, kind, valid, w);
    case _ => OtherCallsAre(h, owners, call, w);
  }

  lemma BlockedSlot(h: Handler, owners: Owners, e: Event, w: World)
    requires Inv(h, owners) && Enabled(h, e) && OfSlots(e) && Blocked(h) && w.connected
    ensures var h' := Step(h, owners, e, w).h; Blocked(h') && StartsOnlyDisconnects(h, h')
  {
  }

  lemma BlockedTask(h: Handler, owners: Owners, e: Event, w: World)
    requires Inv(h, owners) && Blocked(h) && Enabled(h, e)
    ensures !OfTask(e)
  {
  }

  lemma BlockedClose(h: Handler, owners: Owners, w: World)
    requires Inv(h, owners) && Blocked(h)
    ensures var h' := Step(h, owners, Close, w).h; Blocked(h') && StartsOnlyDisconnects(h, h')
  {
    assert h.exchange.task == None;
    hide Step, Inv;
    CloseIs(h, owners, w);
  }

  /** One step of a handler cut off starts nothing but a disconnect of that link
      and leaves it cut off. */
  lemma BlockedStep(h: Handler, owners: Owners, e: Event, w: World)
    requires Inv(h, owners) && Enabled(h, e) && Blocked(h) && !SeesItDown(e, w)
    ensures var h' := Step(h, owners, e, w).h; Blocked(h') && StartsOnlyDisconnects(h, h')
  {
    if e.Call? {
      BlockedCall(h, owners, e.call, e.action, w);
    } else if OfSlots(e) {
      BlockedSlot(h, owners, e, w);
    } else if OfTask(e) {
      BlockedTask(h, owners, e, w);
    } else if e.Close? {
      BlockedClose(h, owners, w);
    } else {
      hide Handle, TaskStep, SlotStep, Closed;
    }
  }

  // -------------------------------------------------------------- cancellation

  /** While a connect is under way no scan is wanted. */
  predicate Undistracted(h: Handler) { h.link.connectPending ==> !h.discovery.requested }

  lemma UndistractedCall(h: Handler, owners: Owners, call: CallId, m: Method, w: World)
    requires h.link.connectPending ==> h.link.callbackPending && !h.discovery.requested
    requires call !in h.history.issued
    ensures Undistracted(Step(h, owners, Call(call, m), w).h)
  {
    hide Step, Handle;
    assert Step(h, owners, Call(call, m), w) == Handle(h, owners, call, m, w) by { CallIsHandled(h, owners, call, m, w); }
    match m
    case RequestPermissions => PermissionsIs(h, owners, call, w);
    case StartDiscoveryCall => StartDiscoveryIs(h, owners, call, w);
    case ConnectCall(valid) => ConnectIs(h, owners, call, valid, w);
    case DisconnectCall => DisconnectIs(h, owners, call, w);
    case ExchangeCall(kind, valid) => ExchangeIs(h, owners, call, kind, valid, w);
    case _ => OtherCallsAre(h, owners, call, w);
  }

  lemma CallIsHandled(h: Handler, owners: Owners, call: CallId, m: Method, w: World)
    requires call !in h.history.issued
    ensures Step(h, owners, Call(call, m), w) == Handle(h, owners, call, m, w)
  {
    hide Handle;
  }

  lemma UndistractedClose(h: Handler, owners: Owners, w: World)
    requires Undistracted(h)
    ensures Undistracted(Step(h, owners, Close, w).h)
  {
    hide Step;
    CloseIs(h, owners, w);
  }

  lemma UndistractedSlot(h: Handler, owners: Owners, e: Event, w: World)
    requires Enabled(h, e) && (OfSlots(e) || OfTask(e)) && Undistracted(h)
    ensures Undistracted(Step(h, owners, e, w).h)
  {
  }

  lemma UndistractedStep(h: Handler, owners: Owners, e: Event, w: World)
    requires Inv(h, owners) && Enabled(h, e) && Undistracted(h)
    ensures Undistracted(Step(h, owners, e, w).h)
  {
    assert OneSlot(h);
    if e.Call? {
      UndistractedCall(h, owners, e.call, e.action, w);
    } else if OfSlots(e) || OfTask(e) {
      UndistractedSlot(h, owners, e, w);
    } else if e.Close? {
      UndistractedClose(h, owners, w);
    } else {
      hide Inv;
    }
  }

  /** A step cancels a pending connect: its call is let go, its callback not in. */
  predicate CancelsConnect(h: Handler, h': Handler) {
    h.link.connectPending && h.link.callbackResult.Some? && h'.link.connectPending && h'.link.callbackResult.None?
  }

  /** What a step must do to cut the link off. */
  predicate CutsOff(h: Handler, h': Handler) { h'.link.needsDisconnect && StartsOnlyDisconnects(h, h') }

  lemma CancelByCall(h: Handler, owners: Owners, call: CallId, m: Method, w: World)
    requires h.link.callbackPending && call !in h.history.issued
    requires CancelsConnect(h, Step(h, owners, Call(call, m), w).h)
    ensures CutsOff(h, Step(h, owners, Call(call, m), w).h)
  {
    CallIsHandled(h, owners, call, m, w);
    hide Step, Handle, CancelExchange;
    match m
    case RequestPermissions => PermissionsIs(h, owners, call, w);
    case StartDiscoveryCall => StartDiscoveryIs(h, owners, call, w);
    case ConnectCall(valid) => ConnectIs(h, owners, call, valid, w);
    case DisconnectCall => DisconnectIs(h, owners, call, w);
    case ExchangeCall(kind, valid) => ExchangeIs(h, owners, call, kind, valid, w);
    case _ => OtherCallsAre(h, owners, call, w);
  }

  lemma CancelBySlot(h: Handler, owners: Owners, e: Event, w: World)
    requires h.link.callbackPending && Enabled(h, e) && OfSlots(e) && CancelsConnect(h, Step(h, owners, e, w).h)
    ensures CutsOff(h, Step(h, owners, e, w).h)
  {
    hide Step, Enabled;
    match e
    case LinkLost(generation) => LinkLostIs(h, owners, generation, w);
    case QueryDeadline(generation) => QueryDeadlineIs(h, owners, generation, w);
    case PermissionDeadline => PermissionDeadlineIs(h, owners, w);
    case BluetoothChanged(state) => BluetoothIs(h, owners, state, w);
    case Listen => ListenIs(h, owners, w);
    case Unlisten => ListenIs(h, owners, w);
    case ScanStopped(generation) => ScanStoppedIs(h, owners, generation, w);
  }

  lemma CancelByClose(h: Handler, owners: Owners, w: World)
    requires h.link.callbackPending && CancelsConnect(h, Step(h, owners, Close, w).h)
    requires Owns(owners, h)
    ensures CutsOff(h, Step(h, owners, Close, w).h)
  {
    hide Step;
    CloseIs(h, owners, w);
  }

  lemma CancelByTask(h: Handler, owners: Owners, e: Event, w: World)
    requires Enabled(h, e) && OfTask(e)
    ensures !CancelsConnect(h, Step(h, owners, e, w).h)
  {
    if e.TaskEnds? {
      TaskEndsInTurn(h, owners, e.succeeded, w);
      hide Step;
      FreedIs(h, e.succeeded);
      RetiredIs(TaskFreed(h, e.succeeded), w);
    }
  }

  lemma CancelByCallback(h: Handler, owners: Owners, e: Event, w: World)
    requires Enabled(h, e) && !OfTask(e) && !OfSlots(e) && !e.Call? && !e.Close?
    requires UserDisconnect in h.history.outstanding ==> !h.link.connectPending
    ensures !CancelsConnect(h, Step(h, owners, e, w).h)
  {
    hide Handle, TaskStep, SlotStep, Closed;
  }

  lemma CancelBlocks(h: Handler, owners: Owners, e: Event, w: World)
    requires Inv(h, owners) && Enabled(h, e) && Undistracted(h) && CancelsConnect(h, Step(h, owners, e, w).h)
    ensures var h' := Step(h, owners, e, w).h; Blocked(h') && StartsOnlyDisconnects(h, h')
  {
    UndistractedStep(h, owners, e, w);
    assert h.link.callbackPending && Owns(owners, h) && UserDisconnect !in h.history.outstanding;
    hide Step, Inv;
    if e.Call? {
      CancelByCall(h, owners, e.call, e.action, w);
    } else if OfSlots(e) {
      CancelBySlot(h, owners, e, w);
    } else if e.Close? {
      CancelByClose(h, owners, w);
    } else if OfTask(e) {
      CancelByTask(h, owners, e, w);
      assert false;
    } else {
      CancelByCallback(h, owners, e, w);
      assert false;
    }
  }

  // ------------------------------------------------------- every interleaving

  ghost predicate AllUndistracted(y: System) { forall id :: id in y.handlers ==> Undistracted(y.handlers[id]) }

  /** What another handler's events may change of a handler: a scheduled retry. */
  lemma NextOf(y: System, e: SystemEvent, id: HandlerId)
    requires id in y.handlers
    ensures id in Next(y, e).handlers
    ensures var h, h' := y.handlers[id], Next(y, e).handlers[id];
            if Possible(y, e) && e.At? && e.id == id then
              h' == Step(h, y.owners, e.event, e.world).h.(closing := h'.closing)
            else h' == h.(closing := h'.closing)
  {
    hide Step;
  }

  lemma {:induction false} EveryHandlerIsUndistracted(events: seq<SystemEvent>)
    ensures AllUndistracted(Run(INITIAL, events))
    decreases |events|
  {
    if events != [] {
      var before, e := events[..|events| - 1], events[|events| - 1];
      var y := Run(INITIAL, before);
      EveryHandlerIsUndistracted(before);
      EveryInterleavingIsSafe(before);
      hide Run, Step, Inv;
      forall id | id in Next(y, e).handlers ensures Undistracted(Next(y, e).handlers[id]) {
        if id in y.handlers {
          NextOf(y, e, id);
          if Possible(y, e) && e.At? && e.id == id {
            assert HandlerInv(y, id);
            UndistractedStep(y.handlers[id], y.owners, e.event, e.world);
          }
        }
      }
    }
  }

  lemma BlockedNext(y: System, e: SystemEvent, id: HandlerId)
    requires SystemInv(y) && id in y.handlers && Blocked(y.handlers[id])
    requires e.At? && e.id == id ==> !SeesItDown(e.event, e.world)
    ensures id in Next(y, e).handlers
    ensures var h, h' := y.handlers[id], Next(y, e).handlers[id]; Blocked(h') && StartsOnlyDisconnects(h, h')
  {
    hide Step, Inv;
    NextOf(y, e, id);
    if Possible(y, e) && e.At? && e.id == id {
      assert HandlerInv(y, id);
      BlockedStep(y.handlers[id], y.owners, e.event, e.world);
    }
  }

  lemma {:induction false} BlockedThroughout(y: System, later: seq<SystemEvent>, id: HandlerId)
    requires SystemInv(y) && id in y.handlers && Blocked(y.handlers[id])
    requires forall i :: 0 <= i < |later| && later[i].At? && later[i].id == id ==>
               !SeesItDown(later[i].event, later[i].world)
    ensures SystemInv(Run(y, later)) && id in Run(y, later).handlers
    ensures var h, h' := y.handlers[id], Run(y, later).handlers[id]; Blocked(h') && StartsOnlyDisconnects(h, h')
    decreases |later|
  {
    if later != [] {
      var before, e := later[..|later| - 1], later[|later| - 1];
      BlockedThroughout(y, before, id);
      var z := Run(y, before);
      hide Next, Run, SystemInv, Blocked;
      BlockedNext(z, e, id);
      NextKeeps(z, e);
      assert Run(y, later) == Next(z, e) by { LastOf(y, later); }
    }
  }

  lemma LastOf(y: System, later: seq<SystemEvent>)
    requires later != []
    ensures Run(y, later) == Next(Run(y, later[..|later| - 1]), later[|later| - 1])
  {
  }

  /** Whatever is interleaved: from the step that cancels a pending connect on,
      and until the handler sees its link down or a disconnect of it succeeds,
      every SDK call it starts is a disconnect. */
  lemma CancelledLinkIsNeverUsed(earlier: seq<SystemEvent>, cancel: SystemEvent, later: seq<SystemEvent>)
    requires cancel.At? && Possible(Run(INITIAL, earlier), cancel)
    requires var h := Run(INITIAL, earlier).handlers[cancel.id];
             h.link.connectPending && h.link.callbackResult != None
    requires var h' := Next(Run(INITIAL, earlier), cancel).handlers[cancel.id];
             h'.link.connectPending && h'.link.callbackResult == None
    requires forall i :: 0 <= i < |later| && later[i].At? && later[i].id == cancel.id ==>
               later[i].world.connected && !(later[i].event.DrainCallback? && !later[i].event.failed)
    ensures cancel.id in Run(Next(Run(INITIAL, earlier), cancel), later).handlers
    ensures var h, h' := Run(INITIAL, earlier).handlers[cancel.id],
                         Run(Next(Run(INITIAL, earlier), cancel), later).handlers[cancel.id];
            && h'.link.needsDisconnect && h.history.starts <= h'.history.starts
            && forall i :: |h.history.starts| <= i < |h'.history.starts| ==>
                 h'.history.starts[i].kind == DrainDisconnect || h'.history.starts[i].kind == CloseDisconnect
  {
    var y, id := Run(INITIAL, earlier), cancel.id;
    EveryHandlerIsUndistracted(earlier);
    EveryInterleavingIsSafe(earlier);
    PossibleAt(y, cancel);
    hide Run, Step, Inv, Next, Enabled;
    assert HandlerInv(y, id);
    NextOf(y, cancel, id);
    CancelBlocks(y.handlers[id], y.owners, cancel.event, cancel.world);
    NextKeeps(y, cancel);
    BlockedThroughout(Next(y, cancel), later, id);
  }

  lemma PossibleAt(y: System, e: SystemEvent)
    requires e.At? && Possible(y, e)
    ensures e.id in y.handlers && Enabled(y.handlers[e.id], e.event)
  {
  }
}
