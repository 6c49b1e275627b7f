/** What each event does to the handler's fields, to the registry and to the
    calls made, written out on the fields themselves. */
module LedgerMeaning {
  import opened Base
  import opened Ledger

  /** A handler begins idle, with nothing held, asked for or cut off. */
  lemma NewHandlerIs(id: HandlerId, transport: TransportId)
    ensures var h := NewHandler(id, transport);
            && h.id == id && h.transport == transport && h.permissionResult == None
            && !h.closing.isClosing && !h.closing.awaitsTask && !h.closing.disconnectPending
            && !h.closing.retryScheduled && !h.closing.automaticRetryUsed
            && !h.discovery.listening && h.discovery.bluetooth == Unsettled && !h.discovery.requested
            && !h.discovery.active && !h.link.connectedDevice && !h.link.connectPending
            && !h.link.needsDisconnect && !h.link.callbackPending && h.link.callbackResult == None
            && h.exchange.task == None && h.exchange.result == None && !h.exchange.recoversFromDisconnect
            && !h.exchange.queryRequiresDisconnect && h.history == History({}, [], [], {}, [])
  {
  }

  /** The calls made in a step: at most one into the SDK, the channel calls taken
      in, and the answers given. */
  predicate Books(h: Handler, h': Handler, started: Option<Kind>, taken: set<CallId>, told: seq<CallId>) {
    && h'.history.issued == h.history.issued + taken && h'.history.answers == h.history.answers + told
    && h'.history.apdus == h.history.apdus
    && match started
       case None => h'.history.starts == h.history.starts && h'.history.outstanding == h.history.outstanding
       case Some(k) =>
         && h'.history.starts == h.history.starts + [Start(k, h.exchange.task != None, h.history.outstanding)]
         && h'.history.outstanding == h.history.outstanding + (if k == Scan then {} else {k})
  }

  /** The fields of `h'` are those of `g`; only the books differ. */
  predicate Fields(h': Handler, g: Handler) { h' == g.(history := h'.history) }

  function OneCall(call: Option<CallId>): seq<CallId> { if call == None then [] else [call.value] }

  predicate OwnedByOther(h: Handler, owners: Owners) { h.transport in owners && owners[h.transport] != h.id }

  /** The transport is free for a new operation of the handler. */
  predicate Free(h: Handler, owners: Owners) {
    !h.closing.isClosing && !OwnedByOther(h, owners) && !h.link.needsDisconnect
  }

  /** Answered at once, with nothing else changed but perhaps the registry. */
  predicate AtOnce(h: Handler, owners: Owners, call: CallId, a: After) {
    Fields(a.h, h) && Books(h, a.h, None, {call}, [call]) && a.owners == owners && !a.contested
  }

  /** Refused: closing, owned by another handler, or cut off. In the last case the
      cancelled link is disconnected if that is not under way yet. */
  predicate RefusedTo(h: Handler, owners: Owners, call: CallId, w: World, a: After) {
    if h.closing.isClosing then AtOnce(h, owners, call, a)
    else if OwnedByOther(h, owners) then AtOnce(h, owners, call, a.(contested := false)) && a.contested
    else
      && h.link.needsDisconnect && a.owners == owners[h.transport := h.id] && !a.contested
      && if h.link.callbackPending then Fields(a.h, h) && Books(h, a.h, None, {call}, [call])
         else if w.connected then
           Fields(a.h, h.(link := h.link.(callbackPending := true))) && Books(h, a.h, Some(DrainDisconnect), {call}, [call])
         else Fields(a.h, h.(link := h.link.(needsDisconnect := false))) && Books(h, a.h, None, {call}, [call])
  }

  /** A prompt is shown, and the call held for it, only while the authorization
      is undetermined and nothing else is going on. */
  lemma PermissionsIs(h: Handler, owners: Owners, call: CallId, w: World)
    ensures var a := Handle(h, owners, call, RequestPermissions, w);
            if h.closing.isClosing || h.permissionResult != None || h.exchange.task != None || h.link.callbackPending
               || h.discovery.requested || w.authorization != NotDetermined
            then AtOnce(h, owners, call, a)
            else if !Free(h, owners) then RefusedTo(h, owners, call, w, a)
            else Fields(a.h, h.(permissionResult := Some(call))) && Books(h, a.h, None, {call}, [])
                 && a.owners == owners[h.transport := h.id] && !a.contested
  {
  }

  /** Scanning needs a granted permission; it starts at once if Bluetooth is on
      and Dart listens, and waits if Bluetooth has not settled. */
  lemma StartDiscoveryIs(h: Handler, owners: Owners, call: CallId, w: World)
    ensures var a := Handle(h, owners, call, StartDiscoveryCall, w);
            if h.permissionResult != None || h.exchange.task != None || h.link.callbackPending
            then AtOnce(h, owners, call, a)
            else if !Free(h, owners) then RefusedTo(h, owners, call, w, a)
            else
              && a.owners == owners[h.transport := h.id] && !a.contested
              && if w.authorization == Denied then Fields(a.h, h) && Books(h, a.h, None, {call}, [call])
                 else if h.discovery.bluetooth == PoweredOn && h.discovery.listening && w.available then
                   && Fields(a.h, h.(discovery := h.discovery.(requested := true, active := true,
                                                               generation := h.discovery.generation + 2)))
                   && Books(h, a.h, Some(Scan), {call}, [call])
                 else
                   && Fields(a.h, h.(discovery := h.discovery.(
                                       requested := h.discovery.bluetooth in {PoweredOn, Unsettled}, active := false,
                                       generation := h.discovery.generation + 1)))
                   && Books(h, a.h, None, {call}, [call])
  {
  }

  /** A connect starts only on a free transport with no task and no callback. */
  lemma ConnectIs(h: Handler, owners: Owners, call: CallId, valid: bool, w: World)
    ensures var a := Handle(h, owners, call, ConnectCall(valid), w);
            if h.permissionResult != None || h.exchange.task != None || h.link.callbackPending
            then AtOnce(h, owners, call, a)
            else if !Free(h, owners) then RefusedTo(h, owners, call, w, a)
            else if !valid then AtOnce(h, owners[h.transport := h.id], call, a)
            else
              && a.owners == owners[h.transport := h.id] && !a.contested
              && Fields(a.h, h.(discovery := h.discovery.(requested := false, active := false,
                                                          generation := h.discovery.generation + 1),
                                link := h.link.(connectPending := true, callbackPending := true,
                                                callbackResult := Some(call), generation := h.link.generation + 1)))
              && Books(h, a.h, Some(Connect), {call}, [])
  {
  }

  /** What cancelling does to the fields: a connect in progress is answered and
      cut off under a new generation, an exchange in progress is answered, its
      generation out of date, its task told to stop. */
  predicate CancelledTo(h: Handler, preparation: bool, g: Handler) {
    var connecting := preparation && h.link.connectPending && h.link.callbackResult != None;
    && g == h.(link := g.link, exchange := g.exchange, history := g.history)
    && g.link == (if connecting then h.link.(needsDisconnect := true, generation := h.link.generation + 1,
                                             connectedDevice := false, callbackResult := None)
                  else h.link)
    && g.exchange.preparation == h.exchange.preparation + (if preparation then 1 else 0)
    && g.exchange == (if h.exchange.result == None then h.exchange.(preparation := g.exchange.preparation)
                      else h.exchange.(preparation := g.exchange.preparation, result := None,
                                       generation := h.exchange.generation + 1,
                                       task := if h.exchange.task == None then None
                                               else Some(h.exchange.task.value.(cancelled := true))))
    && Books(h, g, None, {}, (if connecting then OneCall(h.link.callbackResult) else []) + OneCall(h.exchange.result))
  }

  lemma CancelIs(h: Handler, preparation: bool)
    ensures CancelledTo(h, preparation, CancelExchange(h, preparation))
  {
  }

  lemma TaskOutlivesCancel(h: Handler)
    ensures var c := CancelExchange(h, true);
            (c.exchange.task == None <==> h.exchange.task == None) && c.link.callbackPending == h.link.callbackPending
            && c.id == h.id && c.transport == h.transport
  {
  }

  /** Disconnecting cancels what is in progress; it starts a disconnect only once
      nothing is outstanding and the link is up. */
  lemma DisconnectIs(h: Handler, owners: Owners, call: CallId, w: World)
    ensures var a := Handle(h, owners, call, DisconnectCall, w);
            if !Free(h, owners) then RefusedTo(h, owners, call, w, a)
            else
              var c := CancelExchange(h, true);
              && CancelledTo(h, true, c) && a.owners == owners[h.transport := h.id] && !a.contested
              && if h.exchange.task != None || h.link.callbackPending
                 then Fields(a.h, c) && Books(c, a.h, None, {call}, [call])
                 else if !w.connected
                 then Fields(a.h, c.(link := c.link.(connectedDevice := false))) && Books(c, a.h, None, {call}, [call])
                 else Fields(a.h, c.(link := c.link.(connectedDevice := false, callbackPending := true,
                                                     callbackResult := Some(call))))
                      && Books(c, a.h, Some(UserDisconnect), {call}, [])
  {
    hide Silent;
    hide CancelExchange, CancelledTo;
    assert Handle(h, owners, call, DisconnectCall, w) == DisconnectDevice(h, owners, call, w) by { hide DisconnectDevice; }
    hide Handle;
    CancelIs(h, true);
    TaskOutlivesCancel(h);
  }

  /** An exchange begins only on a connected device whose link is up, with no
      task alive and no callback outstanding. */
  lemma ExchangeIs(h: Handler, owners: Owners, call: CallId, kind: TaskKind, valid: bool, w: World)
    ensures var a := Handle(h, owners, call, ExchangeCall(kind, valid), w);
            if h.permissionResult != None || h.link.callbackPending then AtOnce(h, owners, call, a)
            else if !Free(h, owners) then RefusedTo(h, owners, call, w, a)
            else if !h.link.connectedDevice || !w.connected || !valid || h.exchange.task != None
            then AtOnce(h, owners[h.transport := h.id], call, a)
            else
              && a.owners == owners[h.transport := h.id] && !a.contested
              && Fields(a.h, h.(exchange := h.exchange.(
                                  result := Some(call), generation := h.exchange.generation + 1,
                                  recoversFromDisconnect := kind == AppSwitch,
                                  task := Some(ExchangeTask(call, h.exchange.generation + 1, kind, h.exchange.preparation,
                                                            false, Running)))))
              && Books(h, a.h, None, {call}, [])
  {
  }

  lemma OtherCallsAre(h: Handler, owners: Owners, call: CallId, w: World)
    ensures AtOnce(h, owners, call, Handle(h, owners, call, OtherCall, w))
    ensures var a := Handle(h, owners, call, StopDiscoveryCall, w);
            AtOnce(h.(discovery := h.discovery.(requested := false, active := false,
                                                generation := h.discovery.generation + 1)), owners, call, a)
    ensures var a := Handle(h, owners, call, CancelSigning, w);
            var c := CancelExchange(h, true);
            CancelledTo(h, true, c) && AtOnce(c, owners, call, a)
  {
    CancelIs(h, true);
  }

  // ------------------------------------------------------- callbacks and timers

  /** Closing ends once nothing is outstanding: without a link the transport is
      released, else one last disconnect starts. */
  predicate FinishesClosing(h: Handler, owners: Owners, w: World, a: After) {
    && !a.contested
    && if !(h.transport in owners && owners[h.transport] == h.id) || h.exchange.task != None || h.link.callbackPending
          || h.closing.disconnectPending
       then a.h == h && a.owners == owners
       else if !w.connected then a.h == h && a.owners == owners - {h.transport}
       else Fields(a.h, h.(closing := h.closing.(disconnectPending := true)))
            && Books(h, a.h, Some(CloseDisconnect), {}, []) && a.owners == owners
  }

  lemma FinishClosingIs(h: Handler, owners: Owners, w: World)
    ensures FinishesClosing(h, owners, w, FinishClosing(h, owners, w))
  {
  }

  /** A cancelled link is disconnected once its callback is in, if it is up. */
  predicate Drains(h: Handler, w: World, g: Handler) {
    if h.link.callbackPending then g == h
    else if !w.connected then g == h.(link := h.link.(needsDisconnect := false))
    else Fields(g, h.(link := h.link.(callbackPending := true))) && Books(h, g, Some(DrainDisconnect), {}, [])
  }

  lemma DrainIs(h: Handler, w: World)
    ensures Drains(h, w, Drain(h, w))
  {
  }

  /** The connect calls back: while closing it finishes that, for a cancelled
      connect it disconnects, else it answers its call, the device connected
      unless it failed. */
  lemma ConnectCallbackIs(h: Handler, owners: Owners, failed: bool, w: World)
    requires Enabled(h, ConnectCallback(failed))
    ensures var b := h.(history := h.history.(outstanding := h.history.outstanding - {Connect}));
            var g := b.(link := h.link.(connectPending := false, callbackPending := false, callbackResult := None));
            var a := Step(h, owners, ConnectCallback(failed), w);
            if !h.link.connectPending then a == After(b, owners, false)
            else if h.closing.isClosing then FinishesClosing(g, owners, w, a)
            else if h.link.needsDisconnect then Drains(g, w, a.h) && a.owners == owners && !a.contested
            else
              && Fields(a.h, g.(link := g.link.(connectedDevice := h.link.connectedDevice || !failed)))
              && Books(g, a.h, None, {}, OneCall(h.link.callbackResult)) && a.owners == owners && !a.contested
  {
  }

  lemma DisconnectCallbackIs(h: Handler, owners: Owners, failed: bool, w: World)
    requires Enabled(h, UserDisconnectCallback(failed))
    ensures var b := h.(history := h.history.(outstanding := h.history.outstanding - {UserDisconnect}));
            var g := b.(link := h.link.(callbackPending := false, callbackResult := None));
            var a := Step(h, owners, UserDisconnectCallback(failed), w);
            if !h.link.callbackPending then a == After(b, owners, false)
            else if h.closing.isClosing then FinishesClosing(g, owners, w, a)
            else Fields(a.h, g) && Books(g, a.h, None, {}, OneCall(h.link.callbackResult)) && a.owners == owners
                 && !a.contested
  {
  }

  /** A drain that failed on a link still up leaves it cut off. */
  lemma DrainCallbackIs(h: Handler, owners: Owners, failed: bool, w: World)
    requires Enabled(h, DrainCallback(failed))
    ensures var g := h.(history := h.history.(outstanding := h.history.outstanding - {DrainDisconnect}),
                        link := h.link.(callbackPending := false, needsDisconnect := failed && w.connected));
            var a := Step(h, owners, DrainCallback(failed), w);
            if h.closing.isClosing then FinishesClosing(g, owners, w, a) else a == After(g, owners, false)
  {
  }

  /** The last disconnect releases the transport unless it failed on a live link;
      one retry is then scheduled on its own account. */
  lemma CloseCallbackIs(h: Handler, owners: Owners, failed: bool, w: World)
    requires Enabled(h, CloseCallback(failed))
    ensures var g := h.(history := h.history.(outstanding := h.history.outstanding - {CloseDisconnect}),
                        closing := h.closing.(disconnectPending := false));
            var a := Step(h, owners, CloseCallback(failed), w);
            var owned := h.transport in owners && owners[h.transport] == h.id;
            if !failed || !w.connected then a == After(g, if owned then owners - {h.transport} else owners, false)
            else
              && a.owners == owners && !a.contested
              && a.h == g.(closing := g.closing.(
                             automaticRetryUsed := true,
                             retryScheduled := h.closing.retryScheduled
                                               || (!h.closing.automaticRetryUsed && h.closing.isClosing && owned)))
  {
  }

  lemma RetryIs(h: Handler, owners: Owners)
    ensures ScheduleCloseRetry(h, owners)
            == h.(closing := h.closing.(retryScheduled := h.closing.retryScheduled
                                        || (h.closing.isClosing && h.transport in owners && owners[h.transport] == h.id)))
  {
  }

  /** The loss of an older link is ignored; of the present one, it cancels the
      exchange in progress unless the app switch expects it. */
  lemma LinkLostIs(h: Handler, owners: Owners, generation: nat, w: World)
    requires Enabled(h, LinkLost(generation))
    ensures var a := Step(h, owners, LinkLost(generation), w);
            var g := h.(link := h.link.(connectedDevice := false));
            && a.owners == owners && !a.contested
            && if generation != h.link.generation then a.h == h
               else if h.exchange.recoversFromDisconnect then a.h == g
               else CancelledTo(g, false, a.h)
  {
    CancelIs(h.(link := h.link.(connectedDevice := false)), false);
  }

  /** A query out of time is cancelled, and its link retired once its task ends. */
  lemma QueryDeadlineIs(h: Handler, owners: Owners, generation: nat, w: World)
    requires Enabled(h, QueryDeadline(generation))
    ensures var a := Step(h, owners, QueryDeadline(generation), w);
            && a.owners == owners && !a.contested
            && if generation != h.exchange.generation || h.exchange.result == None then a.h == h
               else CancelledTo(h.(exchange := h.exchange.(queryRequiresDisconnect := true),
                                   link := h.link.(connectedDevice := false)), true, a.h)
  {
    CancelIs(h.(exchange := h.exchange.(queryRequiresDisconnect := true), link := h.link.(connectedDevice := false)), true);
  }

  lemma PermissionDeadlineIs(h: Handler, owners: Owners, w: World)
    ensures var a := Step(h, owners, PermissionDeadline, w);
            Fields(a.h, h.(permissionResult := None)) && Books(h, a.h, None, {}, OneCall(h.permissionResult))
            && a.owners == owners && !a.contested
  {
  }

  /** A scan starts when one is asked for and Bluetooth, Dart, the task slot and
      the transport let it. */
  predicate Scans(h: Handler, w: World) {
    && h.discovery.requested && !h.discovery.active && h.discovery.listening
    && h.exchange.task == None && !h.link.callbackPending && w.available
  }

  predicate ScansTo(h: Handler, w: World, h': Handler, told: seq<CallId>) {
    if Scans(h, w) then
      Fields(h', h.(discovery := h.discovery.(active := true, generation := h.discovery.generation + 1)))
      && Books(h, h', Some(Scan), {}, told)
    else Fields(h', h) && Books(h, h', None, {}, told)
  }

  /** Bluetooth settling ends a permission prompt and starts, or stops, a scan. */
  lemma BluetoothIs(h: Handler, owners: Owners, state: Bluetooth, w: World)
    ensures var a := Step(h, owners, BluetoothChanged(state), w);
            var told := if w.authorization == NotDetermined then [] else OneCall(h.permissionResult);
            var g := h.(discovery := h.discovery.(bluetooth := state),
                        permissionResult := if w.authorization == NotDetermined then h.permissionResult else None);
            && a.owners == owners && !a.contested
            && match state
               case PoweredOn => ScansTo(g, w, a.h, told)
               case Unsettled => Fields(a.h, g) && Books(h, a.h, None, {}, told)
               case _ =>
                 Books(h, a.h, None, {}, told)
                 && Fields(a.h, if !h.discovery.requested then g
                                else g.(discovery := g.discovery.(requested := false, active := false,
                                                                  generation := h.discovery.generation + 1)))
  {
  }

  lemma ListenIs(h: Handler, owners: Owners, w: World)
    ensures var a := Step(h, owners, Listen, w);
            var g := h.(discovery := h.discovery.(listening := true));
            && a.owners == owners && !a.contested
            && (if h.discovery.bluetooth == PoweredOn then ScansTo(g, w, a.h, []) else a.h == g)
    ensures var a := Step(h, owners, Unlisten, w);
            a == After(h.(discovery := h.discovery.(listening := false, requested := false, active := false,
                                                    generation := h.discovery.generation + 1)), owners, false)
  {
  }

  lemma ScanStoppedIs(h: Handler, owners: Owners, generation: nat, w: World)
    ensures Step(h, owners, ScanStopped(generation), w)
            == After(if generation != h.discovery.generation then h
                     else h.(discovery := h.discovery.(requested := false, active := false)), owners, false)
  {
  }

  /** Closing answers the permission call, the exchange and the transport call in
      progress, in that order, stops scanning, and finishes once no task runs. */
  lemma CloseIs(h: Handler, owners: Owners, w: World)
    ensures var a := Step(h, owners, Close, w);
            var owned := h.transport in owners && owners[h.transport] == h.id;
            if h.closing.isClosing then a == After(h, owners, false)
            else if !owned then
              Fields(a.h, h.(permissionResult := None, closing := h.closing.(isClosing := true)))
              && Books(h, a.h, None, {}, OneCall(h.permissionResult)) && a.owners == owners && !a.contested
            else
              exists p, c, g :: ClosesTo(h, p, c, g)
                && if h.exchange.task == None then FinishesClosing(g, owners, w, a)
                   else a == After(g.(closing := g.closing.(awaitsTask := true)), owners, false)
  {
    CloseInTurn(h, owners, w);
    hide Step, FinishClosing, CancelExchange, FinishesClosing, CancelledTo;
    if !h.closing.isClosing && h.transport in owners && owners[h.transport] == h.id {
      var p := StopDiscovery(FinishPermission(h), true);
      var c := CancelExchange(p, true);
      var g := ClosedIdle(c);
      CancelIs(p, true);
      assert ClosesTo(h, p, c, g);
      FinishClosingIs(g, owners, w);
    }
  }

  lemma CloseInTurn(h: Handler, owners: Owners, w: World)
    ensures Step(h, owners, Close, w) == Closed(h, owners, w)
  {
    hide Closed;
  }

  /** The three stages of closing an owner: prompt and scan, operations, link. */
  predicate ClosesTo(h: Handler, p: Handler, c: Handler, g: Handler) {
    && Fields(p, h.(permissionResult := None,
                    discovery := h.discovery.(requested := false, active := false,
                                              generation := h.discovery.generation + 1)))
    && Books(h, p, None, {}, OneCall(h.permissionResult))
    && CancelledTo(p, true, c)
    && Fields(g, c.(closing := c.closing.(isClosing := true),
                    link := c.link.(callbackResult := None, connectedDevice := false)))
    && Books(c, g, None, {}, OneCall(c.link.callbackResult))
  }

  lemma CloseGoesOn(h: Handler, owners: Owners, w: World)
    ensures Enabled(h, CloseResumes) ==>
              FinishesClosing(h.(closing := h.closing.(awaitsTask := false)), owners, w, Step(h, owners, CloseResumes, w))
    ensures Enabled(h, CloseRetryTimer) ==>
              FinishesClosing(h.(closing := h.closing.(retryScheduled := false)), owners, w,
                              Step(h, owners, CloseRetryTimer, w))
  {
    hide Handle, TaskStep, SlotStep, ConnectFinished, DisconnectFinished, DrainFinished, CloseFinished, Closed;
  }

  /** When the SDK can call back and when a timer can fire. */
  lemma EnabledIs(h: Handler, call: CallId, m: Method, failed: bool, generation: nat)
    ensures Enabled(h, Call(call, m)) <==> call !in h.history.issued
    ensures Enabled(h, ConnectCallback(failed)) <==> Connect in h.history.outstanding
    ensures Enabled(h, UserDisconnectCallback(failed)) <==> UserDisconnect in h.history.outstanding
    ensures Enabled(h, DrainCallback(failed)) <==> DrainDisconnect in h.history.outstanding
    ensures Enabled(h, CloseCallback(failed)) <==> CloseDisconnect in h.history.outstanding
    ensures Enabled(h, LinkLost(generation)) <==> generation <= h.link.generation
    ensures Enabled(h, QueryDeadline(generation)) <==>
              generation <= h.exchange.generation && (h.exchange.task == None || h.exchange.task.value.kind != Sequence)
    ensures Enabled(h, CloseResumes) <==> h.closing.awaitsTask && h.exchange.task == None
    ensures Enabled(h, CloseRetryTimer) <==> h.closing.retryScheduled
    ensures Enabled(h, Close) && Enabled(h, PermissionDeadline) && Enabled(h, Listen) && Enabled(h, Unlisten)
    ensures Enabled(h, ScanStopped(generation))
  {
  }

  /** What the exchange task may do next: nothing after its cancellation but end. */
  lemma TaskEnabledIs(h: Handler, failed: bool, succeeded: bool, state: Bluetooth)
    ensures Enabled(h, BluetoothChanged(state))
    ensures h.exchange.task == None ==>
              !Enabled(h, TaskSends) && !Enabled(h, TaskReceives) && !Enabled(h, TaskReconnects)
              && !Enabled(h, TaskReconnected(failed)) && !Enabled(h, TaskEnds(succeeded))
    ensures h.exchange.task != None ==>
              var t := h.exchange.task.value;
              && (Enabled(h, TaskSends) <==> t.wait == Running && !t.cancelled)
              && (Enabled(h, TaskReceives) <==> Exchange in h.history.outstanding)
              && (Enabled(h, TaskReconnects) <==>
                    t.wait == Running && !t.cancelled && t.kind == AppSwitch && t.preparation == h.exchange.preparation)
              && (Enabled(h, TaskReconnected(failed)) <==> Reconnect in h.history.outstanding)
              && (Enabled(h, TaskEnds(succeeded)) <==> t.wait == Running && !(succeeded && t.cancelled))
  {
  }

  // ------------------------------------------------------------ the exchange task

  /** The task's own steps: one command or one reconnect at a time. */
  lemma TaskStepsAre(h: Handler, owners: Owners, w: World, failed: bool)
    requires h.exchange.task != None
    ensures var t := h.exchange.task.value;
            && (Enabled(h, TaskSends) ==>
                  var a := Step(h, owners, TaskSends, w);
                  && Fields(a.h, h.(exchange := h.exchange.(task := Some(t.(wait := OnExchange)))))
                  && a.h.history == h.history.(
                       apdus := h.history.apdus + [t.call], outstanding := h.history.outstanding + {Exchange},
                       starts := h.history.starts + [Start(Exchange, true, h.history.outstanding)])
                  && a.owners == owners && !a.contested)
            && (Enabled(h, TaskReceives) ==>
                  Step(h, owners, TaskReceives, w)
                  == After(h.(exchange := h.exchange.(task := Some(t.(wait := Running))),
                              history := h.history.(outstanding := h.history.outstanding - {Exchange})), owners, false))
            && (Enabled(h, TaskReconnects) ==>
                  var a := Step(h, owners, TaskReconnects, w);
                  && Fields(a.h, h.(exchange := h.exchange.(task := Some(t.(wait := OnReconnect))),
                                    link := h.link.(generation := h.link.generation + 1)))
                  && Books(h, a.h, Some(Reconnect), {}, []) && a.owners == owners && !a.contested)
            && (Enabled(h, TaskReconnected(failed)) ==>
                  Step(h, owners, TaskReconnected(failed), w)
                  == After(h.(exchange := h.exchange.(task := Some(t.(wait := Running))),
                              link := h.link.(connectedDevice := h.link.connectedDevice || !failed),
                              history := h.history.(outstanding := h.history.outstanding - {Reconnect})), owners, false))
  {
  }

  /** The end of the task answers its call unless that was answered before; a
      query that ran out of time then has its link retired. */
  lemma TaskEndsIs(h: Handler, owners: Owners, succeeded: bool, w: World)
    requires Enabled(h, TaskEnds(succeeded))
    ensures var a := Step(h, owners, TaskEnds(succeeded), w);
            var t := h.exchange.task.value;
            var answers := t.generation == h.exchange.generation && h.exchange.result != None;
            var device := h.link.connectedDevice || (succeeded && t.kind == AppSwitch);
            exists g ::
              && Fields(g, h.(exchange := h.exchange.(task := None, recoversFromDisconnect := false,
                                                      result := if answers then None else h.exchange.result),
                              link := h.link.(connectedDevice := device)))
              && Books(h, g, None, {}, if answers then OneCall(h.exchange.result) else [])
              && a.owners == owners && !a.contested
              && if !h.exchange.queryRequiresDisconnect then a.h == g
                 else Drains(g.(exchange := g.exchange.(queryRequiresDisconnect := false),
                                link := g.link.(needsDisconnect := w.connected)), w, a.h)
  {
    hide Step, TaskFreed, RetireLink, Drains;
    TaskEndsInTurn(h, owners, succeeded, w);
    FreedIs(h, succeeded);
    RetiredIs(TaskFreed(h, succeeded), w);
  }

  lemma TaskEndsInTurn(h: Handler, owners: Owners, succeeded: bool, w: World)
    requires Enabled(h, TaskEnds(succeeded))
    ensures Step(h, owners, TaskEnds(succeeded), w) == After(RetireLink(TaskFreed(h, succeeded), w), owners, false)
  {
    hide TaskFreed, RetireLink;
  }

  lemma FreedIs(h: Handler, succeeded: bool)
    requires h.exchange.task != None
    ensures var g, t := TaskFreed(h, succeeded), h.exchange.task.value;
            var answers := t.generation == h.exchange.generation && h.exchange.result != None;
            && Fields(g, h.(exchange := h.exchange.(task := None, recoversFromDisconnect := false,
                                                    result := if answers then None else h.exchange.result),
                            link := h.link.(connectedDevice := h.link.connectedDevice
                                                               || (succeeded && t.kind == AppSwitch))))
            && Books(h, g, None, {}, if answers then OneCall(h.exchange.result) else [])
  {
  }

  lemma RetiredIs(g: Handler, w: World)
    ensures if !g.exchange.queryRequiresDisconnect then RetireLink(g, w) == g
            else Drains(g.(exchange := g.exchange.(queryRequiresDisconnect := false),
                           link := g.link.(needsDisconnect := w.connected)), w, RetireLink(g, w))
  {
  }
}
