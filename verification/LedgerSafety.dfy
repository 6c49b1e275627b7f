/** What every interleaving of channel calls, SDK callbacks, link losses,
    timeouts and closes keeps, for any number of handlers and transports. */
module LedgerSafety {
  import opened Base
  import opened Ledger

  // ------------------------------------------------------ one handler's slots

  /** The SDK calls the slots say are outstanding. */
  predicate Matches(h: Handler) {
    && (Connect in h.history.outstanding <==> h.link.connectPending)
    && (h.link.callbackPending && !h.link.connectPending
        <==> UserDisconnect in h.history.outstanding || DrainDisconnect in h.history.outstanding)
    && !(UserDisconnect in h.history.outstanding && DrainDisconnect in h.history.outstanding)
    && (CloseDisconnect in h.history.outstanding <==> h.closing.disconnectPending)
    && (Exchange in h.history.outstanding <==> h.exchange.task.Some? && h.exchange.task.value.wait.OnExchange?)
    && (Reconnect in h.history.outstanding <==> h.exchange.task.Some? && h.exchange.task.value.wait.OnReconnect?)
    && Scan !in h.history.outstanding
  }

  /** At most one of the task, a transport callback and a closing disconnect. */
  predicate OneSlot(h: Handler) {
    && (h.link.connectPending ==> h.link.callbackPending)
    && !(h.exchange.task.Some? && h.link.callbackPending)
    && !(h.exchange.task.Some? && h.closing.disconnectPending)
    && !(h.link.callbackPending && h.closing.disconnectPending)
    && (h.link.needsDisconnect ==> h.exchange.task.None?)
    && (h.closing.disconnectPending ==> h.closing.isClosing)
  }

  predicate ResultsHeld(h: Handler) {
    && (h.link.callbackResult.Some? ==> h.link.connectPending || UserDisconnect in h.history.outstanding)
    && (h.link.connectPending && h.link.callbackResult.None? ==> h.link.needsDisconnect || h.closing.isClosing)
    && (h.link.connectPending && h.link.needsDisconnect ==> h.link.callbackResult.None?)
    && (UserDisconnect in h.history.outstanding ==> !h.link.needsDisconnect)
    && (UserDisconnect in h.history.outstanding ==> h.link.callbackResult.Some? || h.closing.isClosing)
    && (h.exchange.result.Some? ==>
          h.exchange.task.Some? && h.exchange.task.value.generation == h.exchange.generation
          && !h.exchange.task.value.cancelled && h.exchange.task.value.call == h.exchange.result.value)
    && (h.exchange.task.Some? && h.exchange.result.None? ==> h.exchange.task.value.cancelled)
  }

  predicate NothingHeld(h: Handler) {
    h.permissionResult.None? && h.link.callbackResult.None? && h.exchange.result.None?
  }

  predicate ClosedSlots(h: Handler) {
    && (h.closing.isClosing ==> NothingHeld(h) && !h.discovery.requested)
    && (h.discovery.active ==> h.discovery.requested)
    && (h.closing.awaitsTask || h.closing.retryScheduled ==> h.closing.isClosing)
  }

  /** Anything the handler does on the transport, or waits for, needs it. */
  predicate UsesTransport(h: Handler) {
    h.exchange.task.Some? || h.link.callbackPending || h.closing.disconnectPending || h.permissionResult.Some?
    || h.discovery.requested || h.discovery.active
  }

  predicate Held(h: Handler, call: CallId) {
    h.permissionResult == Some(call) || h.link.callbackResult == Some(call) || h.exchange.result == Some(call)
  }

  /** Each call issued is answered exactly once, or held in exactly one slot. */
  ghost predicate Conserved(h: Handler) {
    && NoDuplicates(h.history.answers)
    && (forall call :: call in h.history.issued <==> call in h.history.answers || Held(h, call))
    && (forall call :: !(call in h.history.answers && Held(h, call)))
    && (h.permissionResult.Some? ==> h.permissionResult != h.link.callbackResult)
    && (h.permissionResult.Some? ==> h.permissionResult != h.exchange.result)
    && (h.link.callbackResult.Some? ==> h.link.callbackResult != h.exchange.result)
  }

  /** No SDK call but the task's own starts while the task is alive, and none
      at all while another is outstanding. */
  predicate ExclusiveStart(s: Start) {
    s.outstanding == {} && (s.taskAlive ==> s.kind.Exchange? || s.kind.Reconnect?)
  }

  ghost predicate ExclusiveStarts(h: Handler) {
    forall i :: 0 <= i < |h.history.starts| ==> ExclusiveStart(h.history.starts[i])
  }

  ghost predicate SlotsInv(h: Handler, owners: Owners) {
    && Matches(h) && OneSlot(h) && ResultsHeld(h) && ClosedSlots(h)
    && (UsesTransport(h) ==> Owns(owners, h))
  }

  ghost predicate Inv(h: Handler, owners: Owners) {
    SlotsInv(h, owners) && Conserved(h) && ExclusiveStarts(h)
  }

  lemma IdleHasNothingOutstanding(h: Handler)
    requires Matches(h) && OneSlot(h)
    requires h.exchange.task.None? && !h.link.callbackPending && !h.closing.disconnectPending
    ensures h.history.outstanding == {}
  {
    forall k ensures k !in h.history.outstanding {
      match k
      case Connect =>
      case UserDisconnect =>
      case DrainDisconnect =>
      case CloseDisconnect =>
      case Exchange =>
      case Reconnect =>
      case Scan =>
    }
  }

  // ---------------------------------------------------------- keeping the books

  predicate SameBooks(h: Handler, h': Handler) {
    && h'.history.answers == h.history.answers && h'.history.issued == h.history.issued
    && h'.permissionResult == h.permissionResult
    && h'.link.callbackResult == h.link.callbackResult && h'.exchange.result == h.exchange.result
  }

  lemma SameBooksConserved(h: Handler, h': Handler)
    requires Conserved(h) && SameBooks(h, h')
    ensures Conserved(h')
  {
    assert forall call :: Held(h', call) == Held(h, call);
  }

  lemma NoDuplicatesSnoc(xs: seq<CallId>, x: CallId)
    requires NoDuplicates(xs) && x !in xs
    ensures NoDuplicates(xs + [x])
  {
  }

  predicate EmptiesSlotOf(h: Handler, h': Handler, call: CallId) {
    && h'.permissionResult == (if h.permissionResult == Some(call) then None else h.permissionResult)
    && h'.link.callbackResult == (if h.link.callbackResult == Some(call) then None else h.link.callbackResult)
    && h'.exchange.result == (if h.exchange.result == Some(call) then None else h.exchange.result)
  }

  lemma AnsweringHeld(h: Handler, h': Handler, call: CallId)
    requires Conserved(h) && Held(h, call) && EmptiesSlotOf(h, h', call)
    requires h'.history.issued == h.history.issued && h'.history.answers == h.history.answers + [call]
    ensures Conserved(h')
  {
    NoDuplicatesSnoc(h.history.answers, call);
    assert forall c :: Held(h', c) <==> Held(h, c) && c != call;
  }

  lemma ReturningNew(h: Handler, call: CallId)
    requires Conserved(h) && call !in h.history.issued
    ensures Conserved(Returned(h, call))
  {
    var h' := Returned(h, call);
    NoDuplicatesSnoc(h.history.answers, call);
    forall c ensures c in h'.history.issued <==> c in h'.history.answers || Held(h', c) {
      assert c in h.history.issued <==> c in h.history.answers || Held(h, c);
    }
    assert forall c :: Held(h', c) == Held(h, c);
  }

  predicate FillsOneSlot(h: Handler, h': Handler, call: CallId) {
    || (h.permissionResult.None? && h'.permissionResult == Some(call)
        && h'.link.callbackResult == h.link.callbackResult && h'.exchange.result == h.exchange.result)
    || (h.link.callbackResult.None? && h'.link.callbackResult == Some(call)
        && h'.permissionResult == h.permissionResult && h'.exchange.result == h.exchange.result)
    || (h.exchange.result.None? && h'.exchange.result == Some(call)
        && h'.permissionResult == h.permissionResult && h'.link.callbackResult == h.link.callbackResult)
  }

  lemma HoldingNew(h: Handler, h': Handler, call: CallId)
    requires Conserved(h) && call !in h.history.issued && FillsOneSlot(h, h', call)
    requires h'.history.answers == h.history.answers && h'.history.issued == h.history.issued + {call}
    ensures Conserved(h')
  {
    assert !Held(h, call) && call !in h.history.answers;
    forall c ensures c in h'.history.issued <==> c in h'.history.answers || Held(h', c) {
      assert c in h.history.issued <==> c in h.history.answers || Held(h, c);
    }
    forall c ensures !(c in h'.history.answers && Held(h', c)) {
      assert !(c in h.history.answers && Held(h, c));
    }
  }

  // ------------------------------------------------------------ what steps keep

  /** What cancelling leaves alone. */
  predicate SameButCancelled(h: Handler, h': Handler) {
    && h'.history.issued == h.history.issued && h'.id == h.id && h'.transport == h.transport
    && h'.closing.isClosing == h.closing.isClosing
    && h'.link.callbackPending == h.link.callbackPending && h'.closing.disconnectPending == h.closing.disconnectPending
    && h'.exchange.task.Some? == h.exchange.task.Some? && h'.history.outstanding == h.history.outstanding
    && h'.permissionResult == h.permissionResult && h'.discovery.requested == h.discovery.requested
  }

  lemma CancelledConnectKeeps(h: Handler, owners: Owners)
    requires Inv(h, owners)
    ensures Inv(CancelledConnect(h), owners) && SameButCancelled(h, CancelledConnect(h))
    ensures h.link.connectPending ==> CancelledConnect(h).link.callbackResult.None?
  {
    if h.link.connectPending && h.link.callbackResult.Some? {
      AnsweringHeld(h, CancelledConnect(h), h.link.callbackResult.value);
    }
  }

  lemma NextPreparationKeeps(h: Handler, owners: Owners)
    requires Inv(h, owners)
    ensures var p := h.(exchange := h.exchange.(preparation := h.exchange.preparation + 1));
            Inv(p, owners) && SameButCancelled(h, p) && p.link.connectPending == h.link.connectPending
  {
    SameBooksConserved(h, h.(exchange := h.exchange.(preparation := h.exchange.preparation + 1)));
  }

  lemma CancelPreparationKeeps(h: Handler, owners: Owners)
    requires Inv(h, owners)
    ensures Inv(CancelPreparation(h), owners) && SameButCancelled(h, CancelPreparation(h))
    ensures h.link.connectPending ==> CancelPreparation(h).link.callbackResult.None?
  {
    NextPreparationKeeps(h, owners);
    CancelledConnectKeeps(h.(exchange := h.exchange.(preparation := h.exchange.preparation + 1)), owners);
  }

  lemma CancelRequestKeeps(h: Handler, owners: Owners)
    requires Inv(h, owners)
    ensures Inv(CancelRequest(h), owners) && SameButCancelled(h, CancelRequest(h))
    ensures CancelRequest(h).exchange.result.None?
    ensures CancelRequest(h).link.callbackResult == h.link.callbackResult
  {
    if h.exchange.result.Some? {
      AnsweringHeld(h, CancelRequest(h), h.exchange.result.value);
    }
  }

  lemma CancelKeeps(h: Handler, owners: Owners, preparation: bool)
    requires Inv(h, owners)
    ensures Inv(CancelExchange(h, preparation), owners) && SameButCancelled(h, CancelExchange(h, preparation))
    ensures CancelExchange(h, preparation).exchange.result.None?
    ensures preparation && h.link.connectPending ==> CancelExchange(h, preparation).link.callbackResult.None?
  {
    if preparation { CancelPreparationKeeps(h, owners); }
    CancelRequestKeeps(if preparation then CancelPreparation(h) else h, owners);
  }

  lemma StopDiscoveryKeeps(h: Handler, owners: Owners, clearRequest: bool)
    requires Inv(h, owners)
    ensures Inv(StopDiscovery(h, clearRequest), owners) && SameBooks(h, StopDiscovery(h, clearRequest))
  {
    SameBooksConserved(h, StopDiscovery(h, clearRequest));
  }

  lemma StartedKeepsExclusive(h: Handler, k: Kind)
    requires ExclusiveStarts(h) && h.history.outstanding == {}
    requires h.exchange.task.Some? ==> k.Exchange? || k.Reconnect?
    ensures ExclusiveStarts(Started(h, k)) && SameBooks(h, Started(h, k))
  {
  }

  lemma BeginDiscoveryKeeps(h: Handler, owners: Owners, w: World)
    requires Inv(h, owners) && !h.closing.isClosing
    ensures Inv(BeginDiscovery(h, w), owners) && SameBooks(h, BeginDiscovery(h, w))
  {
    if h.exchange.task.None? && !h.link.callbackPending {
      IdleHasNothingOutstanding(h);
      var scanning := h.(discovery := h.discovery.(active := true, generation := h.discovery.generation + 1));
      StartedKeepsExclusive(scanning, Scan);
    }
    SameBooksConserved(h, BeginDiscovery(h, w));
  }

  lemma DrainKeeps(h: Handler, owners: Owners, w: World)
    requires Inv(h, owners) && Owns(owners, h) && !h.closing.disconnectPending && h.exchange.task.None?
    ensures Inv(Drain(h, w), owners) && SameBooks(h, Drain(h, w))
  {
    if !h.link.callbackPending && w.connected {
      IdleHasNothingOutstanding(h);
      StartedKeepsExclusive(h.(link := h.link.(callbackPending := true)), DrainDisconnect);
    }
    SameBooksConserved(h, Drain(h, w));
  }

  lemma FinishClosingKeeps(h: Handler, owners: Owners, w: World)
    requires Inv(h, owners) && h.closing.isClosing
    ensures Inv(FinishClosing(h, owners, w).h, FinishClosing(h, owners, w).owners)
  {
    if h.exchange.task.None? && !h.link.callbackPending && !h.closing.disconnectPending && w.connected {
      IdleHasNothingOutstanding(h);
      StartedKeepsExclusive(h.(closing := h.closing.(disconnectPending := true)), CloseDisconnect);
    }
    SameBooksConserved(h, FinishClosing(h, owners, w).h);
  }

  lemma FinishPermissionKeeps(h: Handler, owners: Owners)
    requires Inv(h, owners)
    ensures Inv(FinishPermission(h), owners) && FinishPermission(h).permissionResult.None?
  {
    if h.permissionResult.Some? {
      AnsweringHeld(h, FinishPermission(h), h.permissionResult.value);
    } else {
      SameBooksConserved(h, FinishPermission(h));
    }
  }

  lemma ReturningKeeps(h: Handler, owners: Owners, call: CallId)
    requires Inv(h, owners) && call !in h.history.issued
    ensures Inv(Returned(h, call), owners)
  {
    ReturningNew(h, call);
  }

  // ------------------------------------------------------------ channel calls

  lemma ClaimKeeps(h: Handler, owners: Owners)
    requires Inv(h, owners) && Claimed(owners, h).Some?
    ensures Inv(h, Claimed(owners, h).value) && Owns(Claimed(owners, h).value, h)
  {
  }

  lemma AccessKeeps(h: Handler, owners: Owners, call: CallId, w: World)
    requires Inv(h, owners) && call !in h.history.issued
    ensures var access := TransportForOperation(h, owners, call, w);
            match access
            case Granted(h', owners') =>
              h' == h && Inv(h, owners') && Owns(owners', h) && !h.closing.isClosing && !h.link.needsDisconnect
            case Refused(after) => Inv(after.h, after.owners)
  {
    if h.closing.isClosing || Claimed(owners, h).None? {
      ReturningKeeps(h, owners, call);
    } else {
      ClaimKeeps(h, owners);
      var owners' := Claimed(owners, h).value;
      if h.link.needsDisconnect {
        DrainKeeps(h, owners', w);
        ReturningKeeps(Drain(h, w), owners', call);
      }
    }
  }

  lemma RequestPermissionsKeeps(h: Handler, owners: Owners, call: CallId, w: World)
    requires Inv(h, owners) && call !in h.history.issued
    ensures var a := RequestPermissions_(h, owners, call, w); Inv(a.h, a.owners)
  {
    hide TransportForOperation;
    ReturningKeeps(h, owners, call);
    AccessKeeps(h, owners, call, w);
    if h.permissionResult.None? {
      var held := Issued(h, call).(permissionResult := Some(call));
      HoldingNew(h, held, call);
      assert ExclusiveStarts(held);
    }
  }

  lemma SameSlots(h: Handler, h': Handler, owners: Owners)
    requires Inv(h, owners) && SameBooks(h, h')
    requires h' == h.(discovery := h'.discovery)
    requires h'.discovery.requested ==> !h.closing.isClosing && Owns(owners, h)
    requires h'.discovery.active ==> h'.discovery.requested
    ensures Inv(h', owners)
  {
    SameBooksConserved(h, h');
  }

  lemma DiscoverKeeps(h: Handler, owners: Owners, call: CallId, w: World)
    requires Inv(h, owners) && !h.closing.isClosing && Owns(owners, h) && call !in h.history.issued
    ensures Inv(Returned(Discover(RequestDiscovery(h), w), call), owners)
  {
    var requested := RequestDiscovery(h);
    SameSlots(h, requested, owners);
    match requested.discovery.bluetooth {
      case PoweredOn => BeginDiscoveryKeeps(requested, owners, w);
      case Unsettled =>
      case _ => SameSlots(requested, requested.(discovery := requested.discovery.(requested := false)), owners);
    }
    ReturningKeeps(Discover(requested, w), owners, call);
  }

  lemma StartDiscoveryKeeps(h: Handler, owners: Owners, call: CallId, w: World)
    requires Inv(h, owners) && call !in h.history.issued
    ensures var a := StartDiscovery(h, owners, call, w); Inv(a.h, a.owners)
  {
    ReturningKeeps(h, owners, call);
    AccessKeeps(h, owners, call, w);
    var access := TransportForOperation(h, owners, call, w);
    if access.Granted? {
      ReturningKeeps(h, access.owners, call);
      DiscoverKeeps(h, access.owners, call, w);
    }
  }

  lemma ConnectingKeeps(h: Handler, owners: Owners, call: CallId)
    requires Inv(h, owners) && Owns(owners, h) && !h.closing.isClosing && !h.link.needsDisconnect
    requires h.exchange.task.None? && !h.link.callbackPending && call !in h.history.issued
    ensures Inv(Started(ConnectingTo(h, call), Connect), owners)
  {
    StopDiscoveryKeeps(h, owners, true);
    IdleHasNothingOutstanding(h);
    var c := ConnectingTo(h, call);
    HoldingNew(StopDiscovery(h, true), c, call);
    StartedKeepsExclusive(c, Connect);
    SameBooksConserved(c, Started(c, Connect));
  }

  lemma ConnectKeeps(h: Handler, owners: Owners, call: CallId, valid: bool, w: World)
    requires Inv(h, owners) && call !in h.history.issued
    ensures var a := ConnectDevice(h, owners, call, valid, w); Inv(a.h, a.owners)
  {
    ReturningKeeps(h, owners, call);
    AccessKeeps(h, owners, call, w);
    var access := TransportForOperation(h, owners, call, w);
    if access.Granted? && h.exchange.task.None? && !h.link.callbackPending {
      ReturningKeeps(h, access.owners, call);
      ConnectingKeeps(h, access.owners, call);
    }
  }

  lemma LeavingKeeps(h: Handler, owners: Owners)
    requires Inv(h, owners)
    ensures Inv(h.(link := h.link.(connectedDevice := false)), owners)
  {
    SameBooksConserved(h, h.(link := h.link.(connectedDevice := false)));
  }

  lemma DisconnectingKeeps(h: Handler, owners: Owners, call: CallId)
    requires Inv(h, owners) && Owns(owners, h) && !h.closing.isClosing && !h.link.needsDisconnect
    requires h.exchange.task.None? && !h.link.callbackPending && call !in h.history.issued
    ensures Inv(Started(DisconnectingWith(h, call), UserDisconnect), owners)
  {
    IdleHasNothingOutstanding(h);
    var c := DisconnectingWith(h, call);
    HoldingNew(h, c, call);
    StartedKeepsExclusive(c, UserDisconnect);
    SameBooksConserved(c, Started(c, UserDisconnect));
  }

  lemma DisconnectKeeps(h: Handler, owners: Owners, call: CallId, w: World)
    requires Inv(h, owners) && call !in h.history.issued
    ensures var a := DisconnectDevice(h, owners, call, w); Inv(a.h, a.owners)
  {
    AccessKeeps(h, owners, call, w);
    var access := TransportForOperation(h, owners, call, w);
    if access.Granted? {
      CancelKeeps(h, access.owners, true);
      var cancelled := CancelExchange(h, true);
      ReturningKeeps(cancelled, access.owners, call);
      LeavingKeeps(cancelled, access.owners);
      var left := cancelled.(link := cancelled.link.(connectedDevice := false));
      ReturningKeeps(left, access.owners, call);
      if cancelled.exchange.task.None? && !cancelled.link.callbackPending {
        assert !h.link.connectPending;
        CancelSparesIdleLink(h);
        DisconnectingKeeps(left, access.owners, call);
      }
    }
  }

  /** Cancelling marks a connection for disconnect only while it is connecting. */
  lemma CancelSparesIdleLink(h: Handler)
    requires !h.link.connectPending
    ensures CancelExchange(h, true).link.needsDisconnect == h.link.needsDisconnect
  {
  }

  lemma ExchangeKeeps(h: Handler, owners: Owners, call: CallId, kind: TaskKind)
    requires Inv(h, owners) && Owns(owners, h) && !h.closing.isClosing && !h.link.needsDisconnect
    requires !h.link.callbackPending && call !in h.history.issued
    ensures Inv(StartExchange(h, call, kind), owners)
  {
    if h.exchange.task.Some? {
      ReturningKeeps(h, owners, call);
    } else {
      IdleHasNothingOutstanding(h);
      HoldingNew(h, StartExchange(h, call, kind), call);
    }
  }

  lemma BeginExchangeKeeps(h: Handler, owners: Owners, call: CallId, kind: TaskKind, valid: bool, w: World)
    requires Inv(h, owners) && call !in h.history.issued
    ensures var a := BeginExchange(h, owners, call, kind, valid, w); Inv(a.h, a.owners)
  {
    ReturningKeeps(h, owners, call);
    AccessKeeps(h, owners, call, w);
    var access := TransportForOperation(h, owners, call, w);
    if access.Granted? {
      ReturningKeeps(h, access.owners, call);
      if !h.link.callbackPending { ExchangeKeeps(h, access.owners, call, kind); }
    }
  }

  lemma HandleKeeps(h: Handler, owners: Owners, call: CallId, m: Method, w: World)
    requires Inv(h, owners) && call !in h.history.issued
    ensures var a := Handle(h, owners, call, m, w); Inv(a.h, a.owners)
  {
    ReturningKeeps(h, owners, call);
    match m {
      case RequestPermissions => RequestPermissionsKeeps(h, owners, call, w);
      case StartDiscoveryCall => StartDiscoveryKeeps(h, owners, call, w);
      case StopDiscoveryCall =>
        StopDiscoveryKeeps(h, owners, true);
        ReturningKeeps(StopDiscovery(h, true), owners, call);
      case ConnectCall(valid) => ConnectKeeps(h, owners, call, valid, w);
      case DisconnectCall => DisconnectKeeps(h, owners, call, w);
      case ExchangeCall(kind, valid) => BeginExchangeKeeps(h, owners, call, kind, valid, w);
      case CancelSigning =>
        CancelKeeps(h, owners, true);
        ReturningKeeps(CancelExchange(h, true), owners, call);
      case OtherCall =>
    }
  }

  // ------------------------------------------------------ callbacks and timers

  lemma ConnectSettledKeeps(h: Handler, owners: Owners)
    requires Inv(h, owners) && Connect in h.history.outstanding
    ensures h.link.callbackResult.None? ==> Inv(ConnectSettled(h), owners)
    ensures h.link.callbackResult.Some? ==> Inv(Answered(ConnectSettled(h), h.link.callbackResult.value), owners)
  {
    if h.link.callbackResult.None? {
      SameBooksConserved(h, ConnectSettled(h));
    } else {
      var call := h.link.callbackResult.value;
      AnsweringHeld(h, Answered(ConnectSettled(h), call), call);
    }
  }

  lemma ConnectFinishedKeeps(h: Handler, owners: Owners, failed: bool, w: World)
    requires Inv(h, owners) && Connect in h.history.outstanding
    ensures var a := ConnectFinished(h, owners, failed, w); Inv(a.h, a.owners)
  {
    ConnectSettledKeeps(h, owners);
    var settled := ConnectSettled(h);
    if settled.closing.isClosing {
      FinishClosingKeeps(settled, owners, w);
    } else if settled.link.needsDisconnect {
      DrainKeeps(settled, owners, w);
    } else {
      ConnectedKeeps(Answered(settled, h.link.callbackResult.value), owners);
    }
  }

  /** The connect callback answers the call held for it. */
  lemma ConnectFinishedTells(h: Handler, owners: Owners, failed: bool, w: World)
    requires Inv(h, owners) && Connect in h.history.outstanding
    ensures Step(h, owners, ConnectCallback(failed), w) == ConnectFinished(h, owners, failed, w)
    ensures var h' := ConnectFinished(h, owners, failed, w).h;
            && (h.link.callbackResult.Some? ==> h.link.callbackResult.value in h'.history.answers)
            && !h'.link.connectPending && h'.link.callbackResult.None?
  {
  }

  lemma ConnectedKeeps(h: Handler, owners: Owners)
    requires Inv(h, owners)
    ensures Inv(h.(link := h.link.(connectedDevice := true)), owners)
  {
    SameBooksConserved(h, h.(link := h.link.(connectedDevice := true)));
  }

  lemma DisconnectFinishedKeeps(h: Handler, owners: Owners, w: World)
    requires Inv(h, owners) && UserDisconnect in h.history.outstanding
    ensures var a := DisconnectFinished(h, owners, w); Inv(a.h, a.owners)
  {
    var settled := DisconnectSettled(h);
    if h.link.callbackResult.None? {
      SameBooksConserved(h, settled);
      assert Inv(settled, owners);
      FinishClosingKeeps(settled, owners, w);
    } else {
      AnsweringHeld(h, Answered(settled, h.link.callbackResult.value), h.link.callbackResult.value);
    }
  }

  lemma DrainFinishedKeeps(h: Handler, owners: Owners, failed: bool, w: World)
    requires Inv(h, owners) && DrainDisconnect in h.history.outstanding
    ensures var a := DrainFinished(h, owners, failed, w); Inv(a.h, a.owners)
  {
    var back := CalledBack(h, DrainDisconnect);
    var settled := back.(link := back.link.(callbackPending := false, needsDisconnect := failed && w.connected));
    SameBooksConserved(h, settled);
    assert Inv(settled, owners);
    if settled.closing.isClosing { FinishClosingKeeps(settled, owners, w); }
  }

  lemma CloseFinishedKeeps(h: Handler, owners: Owners, failed: bool, w: World)
    requires Inv(h, owners) && CloseDisconnect in h.history.outstanding
    ensures var a := CloseFinished(h, owners, failed, w); Inv(a.h, a.owners)
  {
    SameBooksConserved(h, CloseFinished(h, owners, failed, w).h);
  }

  lemma LinkLostKeeps(h: Handler, owners: Owners, generation: nat)
    requires Inv(h, owners)
    ensures Inv(LinkLost_(h, generation), owners)
  {
    LeavingKeeps(h, owners);
    CancelKeeps(h.(link := h.link.(connectedDevice := false)), owners, false);
  }

  lemma QueryTimedOutKeeps(h: Handler, owners: Owners, generation: nat)
    requires Inv(h, owners)
    ensures Inv(QueryTimedOut(h, generation), owners)
  {
    var late := h.(exchange := h.exchange.(queryRequiresDisconnect := true), link := h.link.(connectedDevice := false));
    SameBooksConserved(h, late);
    assert Inv(late, owners);
    CancelKeeps(late, owners, true);
  }

  lemma BluetoothSettledKeeps(h: Handler, owners: Owners, state: Bluetooth, w: World)
    requires Inv(h, owners)
    ensures Inv(BluetoothSettled(h, state, w), owners)
  {
    var changed := h.(discovery := h.discovery.(bluetooth := state));
    SameSlots(h, changed, owners);
    FinishPermissionKeeps(changed, owners);
    var answered := if w.authorization.NotDetermined? then changed else FinishPermission(changed);
    if answered.discovery.requested {
      BeginDiscoveryKeeps(answered, owners, w);
      StopDiscoveryKeeps(answered, owners, true);
    }
  }

  lemma ListenKeeps(h: Handler, owners: Owners, w: World)
    requires Inv(h, owners)
    ensures Inv(Listening(h, w), owners)
  {
    var listening := h.(discovery := h.discovery.(listening := true));
    SameSlots(h, listening, owners);
    if listening.discovery.requested { BeginDiscoveryKeeps(listening, owners, w); }
  }

  lemma ClosedIdleKeeps(h: Handler, owners: Owners)
    requires Inv(h, owners) && h.permissionResult.None? && h.exchange.result.None? && !h.discovery.requested
    ensures Inv(ClosedIdle(h), owners) && ClosedIdle(h).closing.isClosing
  {
    if h.link.callbackResult.Some? {
      AnsweringHeld(h, ClosedIdle(h), h.link.callbackResult.value);
    } else {
      SameBooksConserved(h, ClosedIdle(h));
    }
  }

  lemma AwaitTaskOrFinishKeeps(h: Handler, owners: Owners, w: World)
    requires Inv(h, owners) && h.closing.isClosing
    ensures var a := AwaitTaskOrFinish(h, owners, w); Inv(a.h, a.owners)
  {
    FinishClosingKeeps(h, owners, w);
    SameBooksConserved(h, h.(closing := h.closing.(awaitsTask := true)));
  }

  lemma ClosedKeeps(h: Handler, owners: Owners, w: World)
    requires Inv(h, owners)
    ensures var a := Closed(h, owners, w); Inv(a.h, a.owners)
  {
    if !h.closing.isClosing {
      FinishPermissionKeeps(h, owners);
      var settled := FinishPermission(h);
      if Owns(owners, h) {
        var stopped := StopDiscovery(settled, true);
        StopDiscoveryKeeps(settled, owners, true);
        CancelKeeps(stopped, owners, true);
        ClosedIdleKeeps(CancelExchange(stopped, true), owners);
        AwaitTaskOrFinishKeeps(ClosedIdle(CancelExchange(stopped, true)), owners, w);
      } else {
        SameBooksConserved(settled, settled.(closing := settled.closing.(isClosing := true)));
      }
    }
  }

  /** A closing handler holds no call, so it has answered all it was given. */
  lemma ClosedHoldsNothing(h: Handler)
    requires Conserved(h) && ClosedSlots(h) && h.closing.isClosing
    ensures forall call :: call in h.history.issued ==> call in h.history.answers
  {
    assert forall call :: !Held(h, call);
  }

  lemma CloseResumesKeeps(h: Handler, owners: Owners, w: World)
    requires Inv(h, owners) && h.closing.isClosing
    ensures var a := CloseResumed(h, owners, w); Inv(a.h, a.owners)
    ensures var a := CloseRetried(h, owners, w); Inv(a.h, a.owners)
  {
    SameBooksConserved(h, h.(closing := h.closing.(awaitsTask := false)));
    FinishClosingKeeps(h.(closing := h.closing.(awaitsTask := false)), owners, w);
    SameBooksConserved(h, h.(closing := h.closing.(retryScheduled := false)));
    FinishClosingKeeps(h.(closing := h.closing.(retryScheduled := false)), owners, w);
  }

  // ---------------------------------------------------------- the exchange task

  lemma RunningTaskHasNothingOutstanding(h: Handler)
    requires Matches(h) && OneSlot(h) && h.exchange.task.Some? && h.exchange.task.value.wait.Running?
    ensures h.history.outstanding == {}
  {
    forall k ensures k !in h.history.outstanding {
      match k
      case Connect =>
      case UserDisconnect =>
      case DrainDisconnect =>
      case CloseDisconnect =>
      case Exchange =>
      case Reconnect =>
      case Scan =>
    }
  }

  lemma TaskSendsKeeps(h: Handler, owners: Owners)
    requires Inv(h, owners) && Enabled(h, TaskSends)
    ensures Inv(Sending(h), owners)
  {
    RunningTaskHasNothingOutstanding(h);
    var waiting := WithWait(h, OnExchange);
    waiting := waiting.(history := waiting.history.(apdus := h.history.apdus + [h.exchange.task.value.call]));
    StartedKeepsExclusive(waiting, Exchange);
    SameBooksConserved(h, Started(waiting, Exchange));
  }

  lemma TaskReconnectsKeeps(h: Handler, owners: Owners)
    requires Inv(h, owners) && Enabled(h, TaskReconnects)
    ensures Inv(Reconnecting(h), owners)
  {
    RunningTaskHasNothingOutstanding(h);
    var waiting := WithWait(h, OnReconnect);
    waiting := waiting.(link := waiting.link.(generation := h.link.generation + 1));
    StartedKeepsExclusive(waiting, Reconnect);
    SameBooksConserved(h, Started(waiting, Reconnect));
  }

  lemma TaskResumesKeeps(h: Handler, owners: Owners, k: Kind)
    requires Inv(h, owners) && h.exchange.task.Some? && k in h.history.outstanding && (k.Exchange? || k.Reconnect?)
    ensures Inv(Resumed(h, k), owners)
  {
    SameBooksConserved(h, Resumed(h, k));
  }

  lemma TaskReconnectedKeeps(h: Handler, owners: Owners, failed: bool)
    requires Inv(h, owners) && Enabled(h, TaskReconnected(failed))
    ensures Inv(Reconnected(h, failed), owners)
  {
    TaskResumesKeeps(h, owners, Reconnect);
    ConnectedKeeps(Resumed(h, Reconnect), owners);
  }

  lemma TaskFreedKeeps(h: Handler, owners: Owners, succeeded: bool)
    requires Inv(h, owners) && h.exchange.task.Some? && h.exchange.task.value.wait.Running?
    ensures Inv(TaskFreed(h, succeeded), owners)
  {
    if h.exchange.result.Some? {
      AnsweringHeld(h, TaskFreed(h, succeeded), h.exchange.result.value);
    } else {
      SameBooksConserved(h, TaskFreed(h, succeeded));
    }
  }

  lemma RetireLinkKeeps(h: Handler, owners: Owners, w: World)
    requires Inv(h, owners) && Owns(owners, h) && h.exchange.task.None? && !h.link.callbackPending
             && !h.closing.disconnectPending
    ensures Inv(RetireLink(h, w), owners)
  {
    var retired := h.(exchange := h.exchange.(queryRequiresDisconnect := false),
                      link := h.link.(needsDisconnect := w.connected));
    SameBooksConserved(h, retired);
    IdleHasNothingOutstanding(h);
    assert Inv(retired, owners);
    DrainKeeps(retired, owners, w);
  }

  lemma TaskEndsKeeps(h: Handler, owners: Owners, succeeded: bool, w: World)
    requires Inv(h, owners) && Enabled(h, TaskEnds(succeeded))
    ensures Inv(TaskEnded(h, succeeded, w), owners)
  {
    TaskFreedKeeps(h, owners, succeeded);
    RetireLinkKeeps(TaskFreed(h, succeeded), owners, w);
  }

  /** The end of the task answers its call and starts at most a drain. */
  lemma TaskEndedTells(h: Handler, owners: Owners, succeeded: bool, w: World)
    requires Inv(h, owners) && Enabled(h, TaskEnds(succeeded))
    ensures Step(h, owners, TaskEnds(succeeded), w) == After(TaskEnded(h, succeeded, w), owners, false)
    ensures var h' := TaskEnded(h, succeeded, w);
            && (h.exchange.result.Some? ==> h.exchange.result.value in h'.history.answers)
            && h'.exchange.task.None? && h'.exchange.result.None?
            && (h'.history.starts == h.history.starts
                || h'.history.starts == h.history.starts + [Start(DrainDisconnect, false, {})])
  {
    TaskFreedKeeps(h, owners, succeeded);
    if !h.link.callbackPending { IdleHasNothingOutstanding(TaskFreed(h, succeeded)); }
  }

  lemma TaskStepKeeps(h: Handler, owners: Owners, e: Event, w: World)
    requires Inv(h, owners) && Enabled(h, e) && OfTask(e)
    ensures Inv(TaskStep(h, e, w), owners)
  {
    match e {
      case TaskSends => TaskSendsKeeps(h, owners);
      case TaskReceives => TaskResumesKeeps(h, owners, Exchange);
      case TaskReconnects => TaskReconnectsKeeps(h, owners);
      case TaskReconnected(failed) => TaskReconnectedKeeps(h, owners, failed);
      case TaskEnds(succeeded) => TaskEndsKeeps(h, owners, succeeded, w);
    }
  }

  lemma SlotStepKeeps(h: Handler, owners: Owners, e: Event, w: World)
    requires Inv(h, owners) && OfSlots(e)
    ensures Inv(SlotStep(h, e, w), owners)
  {
    match e {
      case LinkLost(generation) => LinkLostKeeps(h, owners, generation);
      case QueryDeadline(generation) => QueryTimedOutKeeps(h, owners, generation);
      case PermissionDeadline => FinishPermissionKeeps(h, owners);
      case BluetoothChanged(state) => BluetoothSettledKeeps(h, owners, state, w);
      case Listen => ListenKeeps(h, owners, w);
      case Unlisten =>
        SameSlots(h, h.(discovery := h.discovery.(listening := false)), owners);
        StopDiscoveryKeeps(h.(discovery := h.discovery.(listening := false)), owners, true);
      case ScanStopped(generation) => SameSlots(h, ScanEnded(h, generation), owners);
    }
  }

  /** Every event keeps the slots, the books and the exclusion of starts. */
  lemma StepKeeps(h: Handler, owners: Owners, e: Event, w: World)
    requires Inv(h, owners) && Enabled(h, e)
    ensures var a := Step(h, owners, e, w); Inv(a.h, a.owners)
  {
    if OfTask(e) {
      TaskStepKeeps(h, owners, e, w);
    } else if OfSlots(e) {
      SlotStepKeeps(h, owners, e, w);
    } else {
      match e {
        case Call(call, m) => HandleKeeps(h, owners, call, m, w);
        case ConnectCallback(failed) => ConnectFinishedKeeps(h, owners, failed, w);
        case UserDisconnectCallback(_) => DisconnectFinishedKeeps(h, owners, w);
        case DrainCallback(failed) => DrainFinishedKeeps(h, owners, failed, w);
        case CloseCallback(failed) => CloseFinishedKeeps(h, owners, failed, w);
        case Close => ClosedKeeps(h, owners, w);
        case CloseResumes => CloseResumesKeeps(h, owners, w);
        case CloseRetryTimer => CloseResumesKeeps(h, owners, w);
      }
    }
  }

  // ------------------------------------------------------- beside other handlers

  /** Another handler's step never takes a transport away. */
  lemma OthersKeepTheirTransport(h: Handler, owners: Owners, owners': Owners, g: Handler)
    requires OwnersFrom(owners, owners', h) && g.id != h.id && Inv(g, owners)
    ensures Inv(g, owners')
  {
    if Owns(owners, g) { assert Owns(owners', g); }
  }

  lemma RetryKeeps(h: Handler, owners: Owners)
    requires Inv(h, owners)
    ensures Inv(ScheduleCloseRetry(h, owners), owners)
  {
    SameBooksConserved(h, ScheduleCloseRetry(h, owners));
  }
}
