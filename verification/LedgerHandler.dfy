/** The handler as the object it is: its methods change the fields in place,
    keep the invariant of LedgerSafety.dfy, and perform the steps it speaks of. */
module LedgerHandler {
  import opened Base
  import opened Ledger
  import opened LedgerSafety

  /** The process-wide registry of transport owners. */
  class TransportOwnership {
    var owners: Owners

    constructor ()
      ensures owners == map[]
    {
      owners := map[];
    }

    method Claim(transport: TransportId, owner: HandlerId) returns (claimed: bool)
      modifies this
      ensures claimed <==> !(transport in old(owners) && old(owners)[transport] != owner)
      ensures owners == if claimed then old(owners)[transport := owner] else old(owners)
    {
      if transport in owners && owners[transport] != owner { return false; }
      owners := owners[transport := owner];
      return true;
    }

    method Release(transport: TransportId, owner: HandlerId)
      modifies this
      ensures owners == if transport in old(owners) && old(owners)[transport] == owner then old(owners) - {transport}
                        else old(owners)
    {
      if !(transport in owners && owners[transport] == owner) { return; }
      owners := owners - {transport};
    }
  }

  class LedgerMobileHandler {
    const id: HandlerId
    const transport: TransportId
    const ownership: TransportOwnership
    var closing: Closing
    var permissionResult: Option<CallId>
    var discovery: Discovery
    var link: Link
    var exchange: ExchangeSlot
    // The calls made to the SDK and to Dart, which is what the theorems speak of.
    ghost var history: History

    ghost function State(): Handler
      reads this
    {
      Handler(id, transport, closing, permissionResult, discovery, link, exchange, history)
    }

    /** The slots match what the SDK has outstanding, no two operations overlap,
        every call is answered once or held once, and every start so far was
        exclusive. */
    ghost predicate Valid()
      reads this, ownership
    {
      Inv(State(), ownership.owners)
    }

    /** The handler performed `e`, which the theorems speak of. */
    twostate predicate Performed(e: Event, w: World, contested: bool)
      reads this, ownership
    {
      && Valid() && Enabled(old(State()), e)
      && After(State(), ownership.owners, contested) == Step(old(State()), old(ownership.owners), e, w)
    }

    /** Exactly one SDK call started, alone: with no task alive and no other
        callback outstanding. */
    twostate predicate StartedAlone(k: Kind)
      reads this
    {
      history.starts == old(history.starts) + [Start(k, false, {})]
    }

    twostate predicate NothingStarted()
      reads this
    {
      history.starts == old(history.starts)
    }

    /** The call, if there is one, has been answered. */
    ghost predicate Told(call: Option<CallId>)
      reads this
    {
      call.Some? ==> call.value in history.answers
    }

    constructor (id: HandlerId, transport: TransportId, ownership: TransportOwnership)
      ensures State() == NewHandler(id, transport) && this.ownership == ownership && Valid()
    {
      this.id, this.transport, this.ownership := id, transport, ownership;
      closing := Closing(false, false, false, false, false);
      permissionResult := None;
      discovery := Discovery(false, Unsettled, false, false, 0);
      link := Link(false, 0, false, false, false, None);
      exchange := ExchangeSlot(None, None, 0, false, false, 0);
      history := History({}, [], [], {}, []);
    }

    // ----------------------------------------------------- effects outside

    /** Runs the result callback of a call that was held. */
    method Answer(call: CallId)
      modifies this`history
      ensures State() == Answered(old(State()), call)
    {
      history := history.(answers := history.answers + [call]);
    }

    /** Runs the result callback of the call being handled. */
    method Return(call: CallId)
      modifies this`history
      ensures State() == Returned(old(State()), call)
    {
      history := history.(issued := history.issued + {call}, answers := history.answers + [call]);
    }

    /** Calls into the SDK. */
    method StartCall(k: Kind)
      modifies this`history
      ensures State() == Started(old(State()), k)
    {
      history := history.(starts := history.starts + [Start(k, exchange.task.Some?, history.outstanding)],
                          outstanding := if k.Scan? then history.outstanding else history.outstanding + {k});
    }

    // -------------------------------------------------------------- helpers

    /** Answers the exchange in progress at once and, with `preparation`, the
        connect in progress; what the SDK has outstanding stays outstanding. */
    method CancelExchangeOperation(preparation: bool)
      modifies this
      ensures State() == CancelExchange(old(State()), preparation)
      ensures old(Valid()) ==>
                && Valid() && history.outstanding == old(history.outstanding)
                && Told(old(exchange.result)) && exchange.result.None?
                && (preparation && link.connectPending ==> Told(old(link.callbackResult)) && link.callbackResult.None?)
    {
      hide Answered, Silent;
      if Valid() { CancelKeeps(State(), ownership.owners, preparation); }
      if preparation {
        exchange := exchange.(preparation := exchange.preparation + 1);
        if link.connectPending && link.callbackResult.Some? {
          var pending := link.callbackResult.value;
          link := link.(needsDisconnect := true, generation := link.generation + 1, connectedDevice := false,
                        callbackResult := None);
          Answer(pending);
        }
      }
      if exchange.result.None? { return; }
      var pending := exchange.result.value;
      exchange := exchange.(generation := exchange.generation + 1, result := None);
      if exchange.task.Some? { exchange := exchange.(task := Some(exchange.task.value.(cancelled := true))); }
      Answer(pending);
    }

    method StopDiscoveryOperation(clearRequest: bool)
      modifies this
      ensures State() == StopDiscovery(old(State()), clearRequest)
    {
      discovery := discovery.(generation := discovery.generation + 1, active := false);
      if clearRequest { discovery := discovery.(requested := false); }
    }

    method BeginDiscoveryOperation(w: World)
      modifies this
      ensures State() == BeginDiscovery(old(State()), w)
    {
      if !(discovery.requested && !discovery.active && discovery.listening) { return; }
      if !(exchange.task.None? && !link.callbackPending) { return; }
      if !w.available { return; }
      discovery := discovery.(active := true, generation := discovery.generation + 1);
      StartCall(Scan);
    }

    /** Answers whoever waits for the permission prompt. */
    method FinishPermissionRequest()
      modifies this
      ensures State() == FinishPermission(old(State()))
      ensures Told(old(permissionResult)) && permissionResult.None?
    {
      var result := permissionResult;
      permissionResult := None;
      if result.Some? { Answer(result.value); }
    }

    /** Disconnects a link whose connect was cancelled, alone. */
    method DrainCancelledConnection(w: World)
      modifies this
      ensures State() == Drain(old(State()), w)
      ensures old(Valid() && Owns(ownership.owners, State()) && !closing.disconnectPending && exchange.task.None?) ==>
                && Valid()
                && (if !old(link.callbackPending) && w.connected then StartedAlone(DrainDisconnect) else NothingStarted())
    {
      if Valid() && Owns(ownership.owners, State()) && !closing.disconnectPending && exchange.task.None? {
        DrainKeeps(State(), ownership.owners, w);
      }
      if link.callbackPending { return; }
      if !w.connected {
        link := link.(needsDisconnect := false);
        return;
      }
      link := link.(callbackPending := true);
      StartCall(DrainDisconnect);
    }

    /** Gives the transport up, after a last disconnect if there is a link; it
        waits while anything is outstanding. */
    method FinishClosingOperation(w: World)
      modifies this, ownership
      ensures After(State(), ownership.owners, false) == FinishClosing(old(State()), old(ownership.owners), w)
      ensures old(Valid() && closing.isClosing) ==>
                && Valid() && (NothingStarted() || StartedAlone(CloseDisconnect))
                && (ownership.owners != old(ownership.owners) ==> history.outstanding == {})
    {
      if Valid() && closing.isClosing {
        FinishClosingKeeps(State(), ownership.owners, w);
        if exchange.task.None? && !link.callbackPending && !closing.disconnectPending {
          IdleHasNothingOutstanding(State());
        }
      }
      if !(transport in ownership.owners && ownership.owners[transport] == id) { return; }
      if !(exchange.task.None? && !link.callbackPending && !closing.disconnectPending) { return; }
      if !w.connected {
        ownership.Release(transport, id);
        return;
      }
      closing := closing.(disconnectPending := true);
      StartCall(CloseDisconnect);
    }

    method ScheduleRetry()
      modifies this
      ensures State() == ScheduleCloseRetry(old(State()), ownership.owners)
    {
      if !(closing.isClosing && !closing.retryScheduled) { return; }
      if !(transport in ownership.owners && ownership.owners[transport] == id) { return; }
      closing := closing.(retryScheduled := true);
    }

    /** Claims the transport for `call`, or answers it busy. `contested` tells
        that another handler owns it, whose close is then retried. */
    method TransportForCall(call: CallId, w: World) returns (granted: bool, contested: bool)
      modifies this, ownership
      ensures TransportForOperation(old(State()), old(ownership.owners), call, w)
              == if granted then Granted(State(), ownership.owners)
                 else Refused(After(State(), ownership.owners, contested))
      ensures granted ==> !contested
      ensures old(Valid()) && call !in old(history.issued) ==>
                && Valid()
                && (if granted then Owns(ownership.owners, State()) && !closing.isClosing && !link.needsDisconnect
                    else call in history.answers)
    {
      if Valid() && call !in history.issued { AccessKeeps(State(), ownership.owners, call, w); }
      if closing.isClosing {
        Return(call);
        return false, false;
      }
      var claimed := ownership.Claim(transport, id);
      if !claimed {
        Return(call);
        return false, true;
      }
      if link.needsDisconnect {
        DrainCancelledConnection(w);
        Return(call);
        return false, false;
      }
      return true, false;
    }

    method ConnectedTransportForCall(call: CallId, w: World) returns (granted: bool, contested: bool)
      modifies this, ownership
      ensures RequireConnected(old(State()), old(ownership.owners), call, w)
              == if granted then Granted(State(), ownership.owners)
                 else Refused(After(State(), ownership.owners, contested))
      ensures granted ==> !contested
    {
      if link.callbackPending {
        Return(call);
        return false, false;
      }
      granted, contested := TransportForCall(call, w);
      if granted && (!link.connectedDevice || !w.connected) {
        Return(call);
        granted := false;
      }
    }

    // -------------------------------------------------------- channel calls

    method HandleRequestPermissions(call: CallId, w: World) returns (contested: bool)
      requires Valid() && call !in history.issued
      modifies this, ownership
      ensures After(State(), ownership.owners, contested)
              == RequestPermissions_(old(State()), old(ownership.owners), call, w)
      ensures Valid() && (call in history.answers || (permissionResult == Some(call) && w.authorization.NotDetermined?))
    {
      RequestPermissionsKeeps(State(), ownership.owners, call, w);
      if closing.isClosing || permissionResult.Some? || exchange.task.Some? || link.callbackPending
         || discovery.requested
      {
        Return(call);
        return false;
      }
      if !w.authorization.NotDetermined? {
        Return(call);
        return false;
      }
      var granted;
      granted, contested := TransportForCall(call, w);
      if granted {
        permissionResult := Some(call);
        history := history.(issued := history.issued + {call});
      }
    }

    method HandleStartDiscovery(call: CallId, w: World) returns (contested: bool)
      requires Valid() && call !in history.issued
      modifies this, ownership
      ensures After(State(), ownership.owners, contested)
              == StartDiscovery(old(State()), old(ownership.owners), call, w)
      ensures Valid() && call in history.answers
      ensures NothingStarted() || StartedAlone(Scan) || StartedAlone(DrainDisconnect)
    {
      hide Silent, SlotsInv;
      StartDiscoveryKeeps(State(), ownership.owners, call, w);
      if exchange.task.Some? || link.callbackPending {
        Return(call);
        return false;
      }
      var granted;
      granted, contested := TransportForCall(call, w);
      if !granted { return; }
      if w.authorization.Denied? {
        Return(call);
        return;
      }
      StopDiscoveryOperation(false);
      discovery := discovery.(requested := true);
      match discovery.bluetooth {
        case PoweredOn => BeginDiscoveryOperation(w);
        case Unsettled =>
        case _ => discovery := discovery.(requested := false);
      }
      Return(call);
    }

    method HandleConnect(call: CallId, valid: bool, w: World) returns (contested: bool)
      requires Valid() && call !in history.issued
      modifies this, ownership
      ensures After(State(), ownership.owners, contested)
              == ConnectDevice(old(State()), old(ownership.owners), call, valid, w)
      ensures Valid() && (call in history.answers || (link.callbackResult == Some(call) && StartedAlone(Connect)))
    {
      ConnectKeeps(State(), ownership.owners, call, valid, w);
      if exchange.task.Some? || link.callbackPending {
        Return(call);
        return false;
      }
      var granted;
      granted, contested := TransportForCall(call, w);
      if !granted { return; }
      if !valid {
        Return(call);
        return;
      }
      StopDiscoveryOperation(true);
      link := link.(connectPending := true, callbackPending := true, callbackResult := Some(call));
      history := history.(issued := history.issued + {call});
      link := link.(generation := link.generation + 1);
      StartCall(Connect);
    }

    method HandleDisconnect(call: CallId, w: World) returns (contested: bool)
      requires Valid() && call !in history.issued
      modifies this, ownership
      ensures After(State(), ownership.owners, contested)
              == DisconnectDevice(old(State()), old(ownership.owners), call, w)
      ensures Valid() && (call in history.answers || (link.callbackResult == Some(call) && StartedAlone(UserDisconnect)))
    {
      hide Conserved;
      DisconnectKeeps(State(), ownership.owners, call, w);
      var granted;
      granted, contested := TransportForCall(call, w);
      if !granted { return; }
      CancelExchangeOperation(true);
      if exchange.task.Some? || link.callbackPending {
        Return(call);
        return;
      }
      link := link.(connectedDevice := false);
      if !w.connected {
        Return(call);
        return;
      }
      link := link.(callbackPending := true, callbackResult := Some(call));
      history := history.(issued := history.issued + {call});
      StartCall(UserDisconnect);
    }

    method HandleExchange(call: CallId, kind: TaskKind, valid: bool, w: World) returns (contested: bool)
      requires Valid() && call !in history.issued
      modifies this, ownership
      ensures After(State(), ownership.owners, contested)
              == BeginExchange(old(State()), old(ownership.owners), call, kind, valid, w)
      ensures Valid()
      ensures call in history.answers
              || (exchange.result == Some(call) && exchange.task.Some? && exchange.task.value.call == call
                  && old(exchange.task).None? && history.outstanding == {})
    {
      hide Matches, Proper;
      BeginExchangeKeeps(State(), ownership.owners, call, kind, valid, w);
      var granted;
      granted, contested := ConnectedTransportForCall(call, w);
      if !granted { return; }
      if !valid || exchange.task.Some? {
        Return(call);
        return;
      }
      exchange := exchange.(generation := exchange.generation + 1, result := Some(call));
      history := history.(issued := history.issued + {call});
      var task := ExchangeTask(call, exchange.generation, kind, exchange.preparation, false, Running);
      exchange := exchange.(recoversFromDisconnect := kind.AppSwitch?, task := Some(task));
      RunningTaskHasNothingOutstanding(State());
    }

    /** Every channel call is answered here, once, or held for a later answer. */
    method HandleCall(call: CallId, m: Method, w: World) returns (contested: bool)
      requires Valid() && call !in history.issued
      modifies this, ownership
      ensures Performed(Call(call, m), w, contested)
      ensures call in history.answers <==> !Held(State(), call)
      ensures NoDuplicates(history.answers)
      ensures !m.CancelSigning? || (history.outstanding == old(history.outstanding) && exchange.result.None?
                                    && Told(old(exchange.result)))
    {
      hide SlotsInv, CancelPreparation, CancelExchange, SlotStep, Grows;
      HandleKeeps(State(), ownership.owners, call, m, w);
      contested := false;
      if permissionResult.Some? && WaitsForPermission(m) {
        Return(call);
        return;
      }
      match m {
        case RequestPermissions => contested := HandleRequestPermissions(call, w);
        case StartDiscoveryCall => contested := HandleStartDiscovery(call, w);
        case StopDiscoveryCall =>
          StopDiscoveryOperation(true);
          Return(call);
        case ConnectCall(valid) => contested := HandleConnect(call, valid, w);
        case DisconnectCall => contested := HandleDisconnect(call, w);
        case ExchangeCall(kind, valid) => contested := HandleExchange(call, kind, valid, w);
        case CancelSigning =>
          CancelExchangeOperation(true);
          Return(call);
        case OtherCall => Return(call);
      }
    }

    // -------------------------------------------------- callbacks and timers

    method FinishConnect(failed: bool, w: World)
      requires Valid() && Enabled(State(), ConnectCallback(failed))
      modifies this, ownership
      ensures Performed(ConnectCallback(failed), w, false)
      ensures Told(old(link.callbackResult)) && !link.connectPending && link.callbackResult.None?
    {
      StepKeeps(State(), ownership.owners, ConnectCallback(failed), w);
      ConnectFinishedTells(State(), ownership.owners, failed, w);
      hide Inv, Step;
      history := history.(outstanding := history.outstanding - {Connect});
      if !link.connectPending { return; }
      link := link.(connectPending := false, callbackPending := false);
      var result := link.callbackResult;
      link := link.(callbackResult := None);
      if closing.isClosing {
        FinishClosingOperation(w);
        return;
      }
      if link.needsDisconnect {
        DrainCancelledConnection(w);
        return;
      }
      if !failed { link := link.(connectedDevice := true); }
      if result.Some? { Answer(result.value); }
    }

    method FinishDisconnect(failed: bool, w: World)
      requires Valid() && Enabled(State(), UserDisconnectCallback(failed))
      modifies this, ownership
      ensures Performed(UserDisconnectCallback(failed), w, false)
      ensures Told(old(link.callbackResult)) && !link.callbackPending && link.callbackResult.None?
    {
      hide Owns;
      StepKeeps(State(), ownership.owners, UserDisconnectCallback(failed), w);
      history := history.(outstanding := history.outstanding - {UserDisconnect});
      if !link.callbackPending { return; }
      link := link.(callbackPending := false);
      var result := link.callbackResult;
      link := link.(callbackResult := None);
      if closing.isClosing {
        FinishClosingOperation(w);
        return;
      }
      if result.Some? { Answer(result.value); }
    }

    method FinishDrain(failed: bool, w: World)
      requires Valid() && Enabled(State(), DrainCallback(failed))
      modifies this, ownership
      ensures Performed(DrainCallback(failed), w, false)
      ensures !link.callbackPending && (link.needsDisconnect <==> failed && w.connected)
      ensures if closing.isClosing then NothingStarted() || StartedAlone(CloseDisconnect) else NothingStarted()
    {
      StepKeeps(State(), ownership.owners, DrainCallback(failed), w);
      history := history.(outstanding := history.outstanding - {DrainDisconnect});
      link := link.(callbackPending := false, needsDisconnect := failed && w.connected);
      if closing.isClosing { FinishClosingOperation(w); }
    }

    method FinishCloseDisconnect(failed: bool, w: World)
      requires Valid() && Enabled(State(), CloseCallback(failed))
      modifies this, ownership
      ensures Performed(CloseCallback(failed), w, false)
      ensures (failed && w.connected) || !Owns(ownership.owners, State())
      ensures old(closing.automaticRetryUsed) ==> closing.retryScheduled == old(closing.retryScheduled)
    {
      StepKeeps(State(), ownership.owners, CloseCallback(failed), w);
      history := history.(outstanding := history.outstanding - {CloseDisconnect});
      closing := closing.(disconnectPending := false);
      if failed && w.connected {
        if !closing.automaticRetryUsed {
          closing := closing.(automaticRetryUsed := true);
          ScheduleRetry();
        }
        return;
      }
      ownership.Release(transport, id);
    }

    method HandleDisconnected(generation: nat, w: World)
      requires Valid() && Enabled(State(), LinkLost(generation))
      modifies this
      ensures Performed(LinkLost(generation), w, false)
      ensures generation != old(link.generation) ==> State() == old(State())
      ensures generation == old(link.generation) && !old(exchange.recoversFromDisconnect) ==>
                exchange.result.None? && Told(old(exchange.result))
    {
      StepKeeps(State(), ownership.owners, LinkLost(generation), w);
      if generation != link.generation { return; }
      link := link.(connectedDevice := false);
      if exchange.recoversFromDisconnect { return; }
      CancelExchangeOperation(false);
    }

    method HandleQueryDeadline(generation: nat, w: World)
      requires Valid() && Enabled(State(), QueryDeadline(generation))
      modifies this
      ensures Performed(QueryDeadline(generation), w, false)
      ensures generation == old(exchange.generation) ==> exchange.result.None? && Told(old(exchange.result))
    {
      StepKeeps(State(), ownership.owners, QueryDeadline(generation), w);
      if !(generation == exchange.generation && exchange.result.Some?) { return; }
      exchange := exchange.(queryRequiresDisconnect := true);
      link := link.(connectedDevice := false);
      CancelExchangeOperation(true);
    }

    method ExpirePermissionRequest(w: World)
      requires Valid()
      modifies this
      ensures Performed(PermissionDeadline, w, false)
      ensures permissionResult.None? && Told(old(permissionResult))
    {
      StepKeeps(State(), ownership.owners, PermissionDeadline, w);
      FinishPermissionRequest();
    }

    method HandleBluetoothState(state: Bluetooth, w: World)
      requires Valid() && Enabled(State(), BluetoothChanged(state))
      modifies this
      ensures Performed(BluetoothChanged(state), w, false)
      ensures !w.authorization.NotDetermined? ==> permissionResult.None? && Told(old(permissionResult))
      ensures NothingStarted() || StartedAlone(Scan)
    {
      hide SlotsInv, Silent, Conserved;
      StepKeeps(State(), ownership.owners, BluetoothChanged(state), w);
      discovery := discovery.(bluetooth := state);
      if !w.authorization.NotDetermined? { FinishPermissionRequest(); }
      if !discovery.requested { return; }
      match state {
        case PoweredOn => BeginDiscoveryOperation(w);
        case Unsettled =>
        case _ => StopDiscoveryOperation(true);
      }
    }

    /** The end of the exchange task; nobody is left waiting for it. */
    method EndTask(succeeded: bool, w: World)
      requires Valid() && Enabled(State(), TaskEnds(succeeded))
      modifies this
      ensures Performed(TaskEnds(succeeded), w, false)
      ensures exchange.task.None? && exchange.result.None? && Told(old(exchange.result))
      ensures NothingStarted() || StartedAlone(DrainDisconnect)
    {
      hide Drain, Step, UsesTransport;
      StepKeeps(State(), ownership.owners, TaskEnds(succeeded), w);
      TaskEndedTells(State(), ownership.owners, succeeded, w);
      hide Inv, Step;
      var generation := exchange.task.value.generation;
      if succeeded && exchange.task.value.kind.AppSwitch? { link := link.(connectedDevice := true); }
      var result := exchange.result;
      exchange := exchange.(task := None, recoversFromDisconnect := false);
      if generation == exchange.generation && result.Some? {
        exchange := exchange.(result := None);
        Answer(result.value);
      }
      if exchange.queryRequiresDisconnect {
        exchange := exchange.(queryRequiresDisconnect := false);
        link := link.(needsDisconnect := w.connected);
        DrainCancelledConnection(w);
      }
    }

    /** Answers every call the handler was ever given, and starts no other. */
    method CloseHandler(w: World)
      requires Valid() && Enabled(State(), Close)
      modifies this, ownership
      ensures Performed(Close, w, false)
      ensures closing.isClosing && NothingHeld(State())
      ensures forall call :: call in history.issued ==> call in history.answers
    {
      StepKeeps(State(), ownership.owners, Close, w);
      TearDown(w);
      ClosedHoldsNothing(State());
    }

    method TearDown(w: World)
      modifies this, ownership
      ensures After(State(), ownership.owners, false) == Closed(old(State()), old(ownership.owners), w)
    {
      if closing.isClosing { return; }
      FinishPermissionRequest();
      if !(transport in ownership.owners && ownership.owners[transport] == id) {
        closing := closing.(isClosing := true);
        return;
      }
      StopDiscoveryOperation(true);
      CancelExchangeOperation(true);
      closing := closing.(isClosing := true);
      var pending := link.callbackResult;
      link := link.(callbackResult := None, connectedDevice := false);
      if pending.Some? { Answer(pending.value); }
      if exchange.task.Some? {
        closing := closing.(awaitsTask := true);
        return;
      }
      FinishClosingOperation(w);
    }

    /** Teardown resumed once the exchange task is over. */
    method ResumeClosing(w: World)
      requires Valid() && Enabled(State(), CloseResumes)
      modifies this, ownership
      ensures Performed(CloseResumes, w, false)
      ensures NothingStarted() || StartedAlone(CloseDisconnect)
    {
      StepKeeps(State(), ownership.owners, CloseResumes, w);
      closing := closing.(awaitsTask := false);
      FinishClosingOperation(w);
    }

    method RetryClosing(w: World)
      requires Valid() && Enabled(State(), CloseRetryTimer)
      modifies this, ownership
      ensures Performed(CloseRetryTimer, w, false)
      ensures NothingStarted() || StartedAlone(CloseDisconnect)
    {
      StepKeeps(State(), ownership.owners, CloseRetryTimer, w);
      closing := closing.(retryScheduled := false);
      FinishClosingOperation(w);
    }

    method Listen(w: World)
      requires Valid() && Enabled(State(), Event.Listen)
      modifies this
      ensures Performed(Event.Listen, w, false)
      ensures NothingStarted() || StartedAlone(Scan)
    {
      StepKeeps(State(), ownership.owners, Event.Listen, w);
      discovery := discovery.(listening := true);
      if discovery.requested && discovery.bluetooth.PoweredOn? { BeginDiscoveryOperation(w); }
    }

    method Unlisten(w: World)
      requires Valid() && Enabled(State(), Event.Unlisten)
      modifies this
      ensures Performed(Event.Unlisten, w, false)
      ensures !discovery.active && !discovery.requested
    {
      StepKeeps(State(), ownership.owners, Event.Unlisten, w);
      discovery := discovery.(listening := false);
      StopDiscoveryOperation(true);
    }

    method HandleScanStopped(generation: nat, w: World)
      requires Valid() && Enabled(State(), ScanStopped(generation))
      modifies this
      ensures Performed(ScanStopped(generation), w, false)
      ensures generation != old(discovery.generation) ==> State() == old(State())
    {
      StepKeeps(State(), ownership.owners, ScanStopped(generation), w);
      if generation != discovery.generation { return; }
      discovery := discovery.(active := false, requested := false);
    }

    // ---------------------------------------------------------- the exchange task

    /** Sends the next command of the task's call, which is still unanswered, and
        with nothing else outstanding. */
    method SendCommand(w: World)
      requires Valid() && Enabled(State(), TaskSends)
      modifies this
      ensures Performed(TaskSends, w, false)
      ensures history.apdus == old(history.apdus) + [old(exchange.task.value.call)]
      ensures old(exchange.task.value.call) !in history.answers
      ensures history.starts == old(history.starts) + [Start(Exchange, true, {})]
    {
      StepKeeps(State(), ownership.owners, TaskSends, w);
      history := history.(apdus := history.apdus + [exchange.task.value.call]);
      exchange := exchange.(task := Some(exchange.task.value.(wait := OnExchange)));
      StartCall(Exchange);
    }

    method ReceiveResponse(w: World)
      requires Valid() && Enabled(State(), TaskReceives)
      modifies this
      ensures Performed(TaskReceives, w, false)
      ensures history.outstanding == {} && history.answers == old(history.answers)
    {
      StepKeeps(State(), ownership.owners, TaskReceives, w);
      history := history.(outstanding := history.outstanding - {Exchange});
      exchange := exchange.(task := Some(exchange.task.value.(wait := Running)));
      RunningTaskHasNothingOutstanding(State());
    }

    /** The reconnect of the app switch, under a new connection generation. */
    method StartReconnect(w: World)
      requires Valid() && Enabled(State(), TaskReconnects)
      modifies this
      ensures Performed(TaskReconnects, w, false)
      ensures history.starts == old(history.starts) + [Start(Reconnect, true, {})]
    {
      StepKeeps(State(), ownership.owners, TaskReconnects, w);
      exchange := exchange.(task := Some(exchange.task.value.(wait := OnReconnect)));
      link := link.(generation := link.generation + 1);
      StartCall(Reconnect);
    }

    method FinishReconnect(failed: bool, w: World)
      requires Valid() && Enabled(State(), TaskReconnected(failed))
      modifies this
      ensures Performed(TaskReconnected(failed), w, false)
      ensures history.outstanding == {} && history.answers == old(history.answers)
    {
      StepKeeps(State(), ownership.owners, TaskReconnected(failed), w);
      history := history.(outstanding := history.outstanding - {Reconnect});
      exchange := exchange.(task := Some(exchange.task.value.(wait := Running)));
      if !failed { link := link.(connectedDevice := true); }
      RunningTaskHasNothingOutstanding(State());
    }
  }

  // ---------------------------------------------------- handlers side by side

  /** Handlers that share the registry of transports and are told apart by id. */
  ghost predicate Beside(h: LedgerMobileHandler, others: set<LedgerMobileHandler>)
    reads h, h.ownership, others
  {
    && h !in others && h.Valid()
    && (forall g :: g in others ==> g.ownership == h.ownership && g.id != h.id && g.Valid())
    && forall g, k :: g in others && k in others && g.id == k.id ==> g == k
  }

  /** Not both use their transport, and not both have something outstanding. */
  ghost predicate Exclusive(h: LedgerMobileHandler, g: LedgerMobileHandler)
    reads h, g
  {
    h.transport == g.transport ==>
      && !(UsesTransport(h.State()) && UsesTransport(g.State()))
      && (h.history.outstanding == {} || g.history.outstanding == {})
  }

  /** One event of one handler, beside any others: all of them stay valid, no two
      operate on one transport, and a closing owner in the way is asked to go. */
  method Deliver(h: LedgerMobileHandler, others: set<LedgerMobileHandler>, e: Event, w: World)
    returns (contested: bool)
    requires Beside(h, others) && Enabled(h.State(), e)
    modifies h, h.ownership, others
    ensures Beside(h, others)
    ensures forall g :: g in others ==> Exclusive(h, g)
    ensures h.Performed(e, w, contested)
    ensures contested ==> Nudged(h, others)
  {
    hide Inv, Step;
    ghost var state, owners := h.State(), h.ownership.owners;
    contested := Dispatch(h, e, w);
    forall g | g in others ensures g.Valid() {
      OthersKeepTheirTransport(state, owners, h.ownership.owners, g.State());
    }
    if contested { Nudge(h, others); }
    forall g | g in others ensures Exclusive(h, g) {
      ValidAreExclusive(h, g);
    }
  }

  /** The owner of the transport, if it is closing, will retry that. */
  ghost predicate Nudged(h: LedgerMobileHandler, others: set<LedgerMobileHandler>)
    reads h, h.ownership, others
  {
    forall g :: g in others && Owner(h.ownership.owners, h.transport, g.id) && g.transport == h.transport ==>
                  (g.closing.isClosing ==> g.closing.retryScheduled)
  }

  method Nudge(h: LedgerMobileHandler, others: set<LedgerMobileHandler>)
    requires Beside(h, others)
    modifies others
    ensures Beside(h, others) && Nudged(h, others)
  {
    hide Inv;
    if exists g :: g in others && Owner(h.ownership.owners, h.transport, g.id) {
      var g :| g in others && Owner(h.ownership.owners, h.transport, g.id);
      RetryKeeps(g.State(), h.ownership.owners);
      g.ScheduleRetry();
    }
  }

  predicate Owner(owners: Owners, transport: TransportId, id: HandlerId) {
    transport in owners && owners[transport] == id
  }

  lemma ValidAreExclusive(h: LedgerMobileHandler, g: LedgerMobileHandler)
    requires h.ownership == g.ownership && h.id != g.id && h.Valid() && g.Valid()
    ensures Exclusive(h, g)
  {
    if !UsesTransport(h.State()) { IdleHasNothingOutstanding(h.State()); }
    if !UsesTransport(g.State()) { IdleHasNothingOutstanding(g.State()); }
  }

  method Dispatch(h: LedgerMobileHandler, e: Event, w: World) returns (contested: bool)
    requires h.Valid() && Enabled(h.State(), e)
    modifies h, h.ownership
    ensures h.Performed(e, w, contested)
  {
    contested := false;
    match e {
      case Call(call, m) => contested := h.HandleCall(call, m, w);
      case ConnectCallback(failed) => h.FinishConnect(failed, w);
      case UserDisconnectCallback(failed) => h.FinishDisconnect(failed, w);
      case DrainCallback(failed) => h.FinishDrain(failed, w);
      case CloseCallback(failed) => h.FinishCloseDisconnect(failed, w);
      case LinkLost(generation) => h.HandleDisconnected(generation, w);
      case QueryDeadline(generation) => h.HandleQueryDeadline(generation, w);
      case PermissionDeadline => h.ExpirePermissionRequest(w);
      case BluetoothChanged(state) => h.HandleBluetoothState(state, w);
      case Listen => h.Listen(w);
      case Unlisten => h.Unlisten(w);
      case ScanStopped(generation) => h.HandleScanStopped(generation, w);
      case Close => h.CloseHandler(w);
      case CloseResumes => h.ResumeClosing(w);
      case CloseRetryTimer => h.RetryClosing(w);
      case TaskSends => h.SendCommand(w);
      case TaskReceives => h.ReceiveResponse(w);
      case TaskReconnects => h.StartReconnect(w);
      case TaskReconnected(failed) => h.FinishReconnect(failed, w);
      case TaskEnds(succeeded) => h.EndTask(succeeded, w);
    }
  }
}
