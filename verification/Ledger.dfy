/** The Ledger BLE handler: its operation slots, generations and close protocol
    as functions on a handler's state, one per main-thread event. */
module Ledger {
  import opened Base

  type HandlerId = nat
  type TransportId = nat
  /** One channel call, whose result callback Dart waits for. */
  type CallId = nat

  datatype Authorization = Allowed | NotDetermined | Denied
  datatype Bluetooth = PoweredOn | PoweredOff | Unauthorized | Unsupported | Unsettled

  /** What the transport and the system report while an event is handled. The
      link may be lost at any time, so nothing ties one report to the next. */
  datatype World = World(connected: bool, available: bool, authorization: Authorization)

  /** The calls into the SDK; each calls back at most once. */
  datatype Kind = Connect | UserDisconnect | DrainDisconnect | CloseDisconnect | Exchange | Reconnect | Scan

  datatype TaskKind = Query | AppSwitch | Sequence

  datatype Wait = Running | OnExchange | OnReconnect

  /** The exchange task: the call it serves, its generation, the preparation
      generation it captured, and where it stands. */
  datatype ExchangeTask = ExchangeTask(
    call: CallId, generation: nat, kind: TaskKind, preparation: nat, cancelled: bool, wait: Wait)

  /** An SDK call started, with what was outstanding at that moment. */
  datatype Start = Start(kind: Kind, taskAlive: bool, outstanding: set<Kind>)

  /** The handler's fields, grouped by what they serve. */
  datatype Closing = Closing(
    isClosing: bool, awaitsTask: bool, disconnectPending: bool, retryScheduled: bool, automaticRetryUsed: bool)

  datatype Discovery = Discovery(listening: bool, bluetooth: Bluetooth, requested: bool, active: bool, generation: nat)

  datatype Link = Link(
    connectedDevice: bool, generation: nat, connectPending: bool, needsDisconnect: bool, callbackPending: bool,
    callbackResult: Option<CallId>)

  datatype ExchangeSlot = ExchangeSlot(
    task: Option<ExchangeTask>, result: Option<CallId>, generation: nat, recoversFromDisconnect: bool,
    queryRequiresDisconnect: bool, preparation: nat)

  /** The calls made to the SDK and to Dart, which is what the theorems speak of. */
  datatype History = History(
    outstanding: set<Kind>, starts: seq<Start>, apdus: seq<CallId>, issued: set<CallId>, answers: seq<CallId>)

  datatype Handler = Handler(
    id: HandlerId, transport: TransportId, closing: Closing, permissionResult: Option<CallId>, discovery: Discovery,
    link: Link, exchange: ExchangeSlot, history: History)

  function NewHandler(id: HandlerId, transport: TransportId): Handler {
    Handler(id, transport, Closing(false, false, false, false, false), None,
            Discovery(false, Unsettled, false, false, 0), Link(false, 0, false, false, false, None),
            ExchangeSlot(None, None, 0, false, false, 0),
            History({}, [], [], {}, []))
  }

  type Owners = map<TransportId, HandlerId>

  predicate Owns(owners: Owners, h: Handler) { h.transport in owners && owners[h.transport] == h.id }

  function Claimed(owners: Owners, h: Handler): Option<Owners> {
    if h.transport in owners && owners[h.transport] != h.id then None else Some(owners[h.transport := h.id])
  }

  function Released(owners: Owners, h: Handler): Owners {
    if Owns(owners, h) then owners - {h.transport} else owners
  }

  /** The new state, the registry, and whether another handler was found to own
      the transport. */
  datatype After = After(h: Handler, owners: Owners, contested: bool)

  /** What no event of a handler undoes. */
  predicate Grows(h: Handler, h': Handler) {
    && h'.id == h.id && h'.transport == h.transport
    && h.history.answers <= h'.history.answers && h.history.issued <= h'.history.issued
  }

  /** Everything but the task's own sending: it adds to what is kept and sends
      no command. */
  predicate Silent(h: Handler, h': Handler) { Grows(h, h') && h'.history.apdus == h.history.apdus }

  /** How a step may change the registry: only at its own transport, and never
      away from another handler. */
  predicate OwnersFrom(owners: Owners, owners': Owners, h: Handler) {
    owners' == owners || owners' == Released(owners, h) || Claimed(owners, h) == Some(owners')
  }

  predicate Proper(h: Handler, owners: Owners, a: After) { Silent(h, a.h) && OwnersFrom(owners, a.owners, h) }

  function Answered(h: Handler, call: CallId): (r: Handler)
    ensures Silent(h, r)
  {
    h.(history := h.history.(answers := h.history.answers + [call]))
  }

  function AnsweredAny(h: Handler, call: Option<CallId>): (r: Handler)
    ensures Silent(h, r)
  {
    if call.Some? then Answered(h, call.value) else h
  }

  /** A call answered in the same step it arrives in. */
  function Returned(h: Handler, call: CallId): (r: Handler)
    ensures Silent(h, r)
  {
    h.(history := h.history.(issued := h.history.issued + {call}, answers := h.history.answers + [call]))
  }

  function Issued(h: Handler, call: CallId): (r: Handler)
    ensures Silent(h, r)
  {
    h.(history := h.history.(issued := h.history.issued + {call}))
  }

  function Started(h: Handler, k: Kind): (r: Handler)
    ensures Silent(h, r)
  {
    h.(history := h.history.(
         outstanding := if k.Scan? then h.history.outstanding else h.history.outstanding + {k},
         starts := h.history.starts + [Start(k, h.exchange.task.Some?, h.history.outstanding)]))
  }

  function CalledBack(h: Handler, k: Kind): (r: Handler)
    ensures Silent(h, r)
  {
    h.(history := h.history.(outstanding := h.history.outstanding - {k}))
  }

  // ------------------------------------------------------------------ helpers

  function CancelledConnect(h: Handler): (r: Handler)
    ensures Silent(h, r)
  {
    if h.link.connectPending && h.link.callbackResult.Some? then
      Answered(h.(link := h.link.(needsDisconnect := true, generation := h.link.generation + 1,
                                  connectedDevice := false, callbackResult := None)),
               h.link.callbackResult.value)
    else h
  }

  function CancelPreparation(h: Handler): (r: Handler)
    ensures Silent(h, r)
  {
    CancelledConnect(h.(exchange := h.exchange.(preparation := h.exchange.preparation + 1)))
  }

  function Cancelled(h: Handler): (r: Handler)
    ensures Silent(h, r)
  {
    var task := if h.exchange.task.None? then None else Some(h.exchange.task.value.(cancelled := true));
    h.(exchange := h.exchange.(generation := h.exchange.generation + 1, result := None, task := task))
  }

  function CancelRequest(h: Handler): (r: Handler)
    ensures Silent(h, r)
  {
    if h.exchange.result.None? then h else Answered(Cancelled(h), h.exchange.result.value)
  }

  function CancelExchange(h: Handler, preparation: bool): (r: Handler)
    ensures Silent(h, r)
  {
    CancelRequest(if preparation then CancelPreparation(h) else h)
  }

  function StopDiscovery(h: Handler, clearRequest: bool): (r: Handler)
    ensures Silent(h, r)
  {
    h.(discovery := h.discovery.(generation := h.discovery.generation + 1, active := false,
                                 requested := h.discovery.requested && !clearRequest))
  }

  function BeginDiscovery(h: Handler, w: World): (r: Handler)
    ensures Silent(h, r)
  {
    if !h.discovery.requested || h.discovery.active || !h.discovery.listening then h
    else if h.exchange.task.Some? || h.link.callbackPending || !w.available then h
    else Started(h.(discovery := h.discovery.(active := true, generation := h.discovery.generation + 1)), Scan)
  }

  function FinishPermission(h: Handler): (r: Handler)
    ensures Silent(h, r)
  {
    AnsweredAny(h.(permissionResult := None), h.permissionResult)
  }

  function Draining(h: Handler): (r: Handler)
    ensures Silent(h, r)
  {
    h.(link := h.link.(callbackPending := true))
  }

  /** Disconnects a link whose connect was cancelled, once its callback is in. */
  function Drain(h: Handler, w: World): (r: Handler)
    ensures Silent(h, r)
  {
    if h.link.callbackPending then h
    else if !w.connected then h.(link := h.link.(needsDisconnect := false))
    else Started(Draining(h), DrainDisconnect)
  }

  function FinishClosing(h: Handler, owners: Owners, w: World): (r: After)
    ensures Proper(h, owners, r)
  {
    if !Owns(owners, h) || h.exchange.task.Some? || h.link.callbackPending || h.closing.disconnectPending then
      After(h, owners, false)
    else if !w.connected then After(h, Released(owners, h), false)
    else After(Started(h.(closing := h.closing.(disconnectPending := true)), CloseDisconnect), owners, false)
  }

  function ScheduleCloseRetry(h: Handler, owners: Owners): (r: Handler)
    ensures Silent(h, r)
  {
    if !h.closing.isClosing || h.closing.retryScheduled || !Owns(owners, h) then h
    else h.(closing := h.closing.(retryScheduled := true))
  }

  datatype Access = Granted(h: Handler, owners: Owners) | Refused(after: After)

  function Busy(h: Handler, owners: Owners, call: CallId): (r: After)
    ensures Proper(h, owners, r)
  {
    After(Returned(h, call), owners, false)
  }

  function TransportForOperation(h: Handler, owners: Owners, call: CallId, w: World): (r: Access)
    ensures r.Granted? ==> r.h == h && OwnersFrom(owners, r.owners, h)
    ensures r.Refused? ==> Proper(h, owners, r.after)
  {
    var claimed := Claimed(owners, h);
    if h.closing.isClosing then Refused(Busy(h, owners, call))
    else if claimed.None? then Refused(Busy(h, owners, call).(contested := true))
    else if h.link.needsDisconnect then Refused(Busy(Drain(h, w), claimed.value, call))
    else Granted(h, claimed.value)
  }

  function RequireConnected(h: Handler, owners: Owners, call: CallId, w: World): (r: Access)
    ensures r.Granted? ==> r.h == h && OwnersFrom(owners, r.owners, h)
    ensures r.Refused? ==> Proper(h, owners, r.after)
  {
    if h.link.callbackPending then Refused(Busy(h, owners, call))
    else
      var access := TransportForOperation(h, owners, call, w);
      if access.Refused? then access
      else if !access.h.link.connectedDevice || !w.connected then Refused(Busy(access.h, access.owners, call))
      else access
  }

  function StartExchange(h: Handler, call: CallId, kind: TaskKind): (r: Handler)
    ensures Silent(h, r)
  {
    if h.exchange.task.Some? then Returned(h, call)
    else
      var generation := h.exchange.generation + 1;
      var task := ExchangeTask(call, generation, kind, h.exchange.preparation, false, Running);
      h.(exchange := h.exchange.(generation := generation, result := Some(call), task := Some(task),
                                 recoversFromDisconnect := kind.AppSwitch?),
         history := h.history.(issued := h.history.issued + {call}))
  }

  // ------------------------------------------------------------ channel calls

  datatype Method =
    | RequestPermissions | StartDiscoveryCall | StopDiscoveryCall | ConnectCall(valid: bool) | DisconnectCall
    | ExchangeCall(kind: TaskKind, valid: bool) | CancelSigning | OtherCall

  /** The calls refused at once while a permission prompt is open. */
  predicate WaitsForPermission(m: Method) { m.StartDiscoveryCall? || m.ConnectCall? || m.ExchangeCall? }

  function RequestPermissions_(h: Handler, owners: Owners, call: CallId, w: World): (r: After)
    ensures Proper(h, owners, r)
  {
    if h.closing.isClosing || h.permissionResult.Some? || h.exchange.task.Some? || h.link.callbackPending
       || h.discovery.requested
    then Busy(h, owners, call)
    else if w.authorization.NotDetermined? then
      var access := TransportForOperation(h, owners, call, w);
      if access.Refused? then access.after
      else After(Issued(access.h, call).(permissionResult := Some(call)), access.owners, false)
    else After(Returned(h, call), owners, false)
  }

  function RequestDiscovery(h: Handler): (r: Handler)
    ensures Silent(h, r)
  {
    StopDiscovery(h, false).(discovery := StopDiscovery(h, false).discovery.(requested := true))
  }

  /** Scans now if Bluetooth is on, later if it has not settled, else not at all. */
  function Discover(h: Handler, w: World): (r: Handler)
    ensures Silent(h, r)
  {
    match h.discovery.bluetooth
    case PoweredOn => BeginDiscovery(h, w)
    case Unsettled => h
    case _ => h.(discovery := h.discovery.(requested := false))
  }

  function StartDiscovery(h: Handler, owners: Owners, call: CallId, w: World): (r: After)
    ensures Proper(h, owners, r)
  {
    if h.exchange.task.Some? || h.link.callbackPending then Busy(h, owners, call)
    else
      var access := TransportForOperation(h, owners, call, w);
      if access.Refused? then access.after
      else if w.authorization.Denied? then After(Returned(access.h, call), access.owners, false)
      else After(Returned(Discover(RequestDiscovery(access.h), w), call), access.owners, false)
  }

  function ConnectingTo(h: Handler, call: CallId): (r: Handler)
    ensures Silent(h, r)
  {
    var stopped := StopDiscovery(h, true);
    var issued := Issued(stopped, call);
    issued.(link := issued.link.(connectPending := true, callbackPending := true, callbackResult := Some(call),
                                 generation := stopped.link.generation + 1))
  }

  function ConnectDevice(h: Handler, owners: Owners, call: CallId, valid: bool, w: World): (r: After)
    ensures Proper(h, owners, r)
  {
    if h.exchange.task.Some? || h.link.callbackPending then Busy(h, owners, call)
    else
      var access := TransportForOperation(h, owners, call, w);
      if access.Refused? then access.after
      else if !valid then After(Returned(access.h, call), access.owners, false)
      else After(Started(ConnectingTo(access.h, call), Connect), access.owners, false)
  }

  function DisconnectingWith(h: Handler, call: CallId): (r: Handler)
    ensures Silent(h, r)
  {
    Issued(h, call).(link := Issued(h, call).link.(callbackPending := true, callbackResult := Some(call)))
  }

  function DisconnectDevice(h: Handler, owners: Owners, call: CallId, w: World): (r: After)
    ensures Proper(h, owners, r)
  {
    var access := TransportForOperation(h, owners, call, w);
    if access.Refused? then access.after
    else
      var cancelled := CancelExchange(access.h, true);
      if cancelled.exchange.task.Some? || cancelled.link.callbackPending then Busy(cancelled, access.owners, call)
      else
        var left := cancelled.(link := cancelled.link.(connectedDevice := false));
        if !w.connected then After(Returned(left, call), access.owners, false)
        else After(Started(DisconnectingWith(left, call), UserDisconnect), access.owners, false)
  }

  function BeginExchange(h: Handler, owners: Owners, call: CallId, kind: TaskKind, valid: bool, w: World): (r: After)
    ensures Proper(h, owners, r)
  {
    var access := RequireConnected(h, owners, call, w);
    if access.Refused? then access.after
    else if !valid then After(Returned(access.h, call), access.owners, false)
    else After(StartExchange(access.h, call, kind), access.owners, false)
  }

  /** The calls answered without the transport. */
  function HandleHere(h: Handler, m: Method, call: CallId): (r: Handler)
    ensures Silent(h, r)
  {
    match m
    case StopDiscoveryCall => Returned(StopDiscovery(h, true), call)
    case CancelSigning => Returned(CancelExchange(h, true), call)
    case _ => Returned(h, call)
  }

  function Handle(h: Handler, owners: Owners, call: CallId, m: Method, w: World): (r: After)
    ensures Proper(h, owners, r)
  {
    if h.permissionResult.Some? && WaitsForPermission(m) then Busy(h, owners, call)
    else
      match m
      case RequestPermissions => RequestPermissions_(h, owners, call, w)
      case StartDiscoveryCall => StartDiscovery(h, owners, call, w)
      case ConnectCall(valid) => ConnectDevice(h, owners, call, valid, w)
      case DisconnectCall => DisconnectDevice(h, owners, call, w)
      case ExchangeCall(kind, valid) => BeginExchange(h, owners, call, kind, valid, w)
      case other => After(HandleHere(h, m, call), owners, false)
  }

  // ------------------------------------------------------- callbacks and timers

  datatype Event =
    | Call(call: CallId, action: Method)
    | ConnectCallback(failed: bool)
    | UserDisconnectCallback(failed: bool)
    | DrainCallback(failed: bool)
    | CloseCallback(failed: bool)
    | LinkLost(generation: nat)
    | QueryDeadline(generation: nat)
    | PermissionDeadline
    | BluetoothChanged(state: Bluetooth)
    | Listen
    | Unlisten
    | ScanStopped(generation: nat)
    | Close
    | CloseResumes
    | CloseRetryTimer
    | TaskSends
    | TaskReceives
    | TaskReconnects
    | TaskReconnected(failed: bool)
    | TaskEnds(succeeded: bool)

  function ConnectSettled(h: Handler): (r: Handler)
    ensures Silent(h, r)
  {
    var back := CalledBack(h, Connect);
    back.(link := back.link.(connectPending := false, callbackPending := false, callbackResult := None))
  }

  function ConnectFinished(h: Handler, owners: Owners, failed: bool, w: World): (r: After)
    ensures Proper(h, owners, r)
  {
    if !h.link.connectPending then After(CalledBack(h, Connect), owners, false)
    else
      var settled := ConnectSettled(h);
      if settled.closing.isClosing then FinishClosing(settled, owners, w)
      else if settled.link.needsDisconnect then After(Drain(settled, w), owners, false)
      else
        After(AnsweredAny(if failed then settled else settled.(link := settled.link.(connectedDevice := true)),
                          h.link.callbackResult),
              owners, false)
  }

  function DisconnectSettled(h: Handler): (r: Handler)
    ensures Silent(h, r)
  {
    var back := CalledBack(h, UserDisconnect);
    back.(link := back.link.(callbackPending := false, callbackResult := None))
  }

  function DisconnectFinished(h: Handler, owners: Owners, w: World): (r: After)
    ensures Proper(h, owners, r)
  {
    if !h.link.callbackPending then After(CalledBack(h, UserDisconnect), owners, false)
    else
      var settled := DisconnectSettled(h);
      if settled.closing.isClosing then FinishClosing(settled, owners, w)
      else After(AnsweredAny(settled, h.link.callbackResult), owners, false)
  }

  function DrainFinished(h0: Handler, owners: Owners, failed: bool, w: World): (r: After)
    ensures Proper(h0, owners, r)
  {
    var back := CalledBack(h0, DrainDisconnect);
    var h := back.(link := back.link.(callbackPending := false, needsDisconnect := failed && w.connected));
    if h.closing.isClosing then FinishClosing(h, owners, w) else After(h, owners, false)
  }

  function CloseFinished(h0: Handler, owners: Owners, failed: bool, w: World): (r: After)
    ensures Proper(h0, owners, r)
  {
    var back := CalledBack(h0, CloseDisconnect);
    var h := back.(closing := back.closing.(disconnectPending := false));
    if failed && w.connected then
      if h.closing.automaticRetryUsed then After(h, owners, false)
      else After(ScheduleCloseRetry(h.(closing := h.closing.(automaticRetryUsed := true)), owners), owners, false)
    else After(h, Released(owners, h), false)
  }

  function LinkLost_(h: Handler, generation: nat): (r: Handler)
    ensures Silent(h, r)
  {
    if generation != h.link.generation then h
    else
      var gone := h.(link := h.link.(connectedDevice := false));
      if gone.exchange.recoversFromDisconnect then gone else CancelExchange(gone, false)
  }

  function QueryTimedOut(h: Handler, generation: nat): (r: Handler)
    ensures Silent(h, r)
  {
    if generation != h.exchange.generation || h.exchange.result.None? then h
    else
      CancelExchange(h.(exchange := h.exchange.(queryRequiresDisconnect := true),
                        link := h.link.(connectedDevice := false)), true)
  }

  function BluetoothAnswered(h: Handler, state: Bluetooth, w: World): (r: Handler)
    ensures Silent(h, r)
  {
    var changed := h.(discovery := h.discovery.(bluetooth := state));
    if w.authorization.NotDetermined? then changed else FinishPermission(changed)
  }

  function DiscoveryAfter(h: Handler, state: Bluetooth, w: World): (r: Handler)
    ensures Silent(h, r)
  {
    match state
    case PoweredOn => BeginDiscovery(h, w)
    case Unsettled => h
    case _ => StopDiscovery(h, true)
  }

  function BluetoothSettled(h: Handler, state: Bluetooth, w: World): (r: Handler)
    ensures Silent(h, r)
  {
    var answered := BluetoothAnswered(h, state, w);
    if !answered.discovery.requested then answered else DiscoveryAfter(answered, state, w)
  }

  /** Closing answers what a transport callback still holds. */
  function ClosedIdle(h: Handler): (r: Handler)
    ensures Silent(h, r)
  {
    AnsweredAny(h.(closing := h.closing.(isClosing := true),
                   link := h.link.(callbackResult := None, connectedDevice := false)), h.link.callbackResult)
  }

  /** Teardown waits for the exchange task, which cannot be cut short. */
  function AwaitTaskOrFinish(h: Handler, owners: Owners, w: World): (r: After)
    ensures Proper(h, owners, r)
  {
    if h.exchange.task.None? then FinishClosing(h, owners, w)
    else After(h.(closing := h.closing.(awaitsTask := true)), owners, false)
  }

  function Closed(h: Handler, owners: Owners, w: World): (r: After)
    ensures Proper(h, owners, r)
  {
    if h.closing.isClosing then After(h, owners, false)
    else
      var permitted := FinishPermission(h);
      if !Owns(owners, h) then After(permitted.(closing := permitted.closing.(isClosing := true)), owners, false)
      else AwaitTaskOrFinish(ClosedIdle(CancelExchange(StopDiscovery(permitted, true), true)), owners, w)
  }

  /** A reply in time answers the call the task serves; after a cancellation
      its generation is out of date. */
  function TaskResult(h: Handler): Option<CallId>
    requires h.exchange.task.Some?
  {
    if h.exchange.task.value.generation == h.exchange.generation then h.exchange.result else None
  }

  function TaskGone(h: Handler, device: bool, held: Option<CallId>): (r: Handler)
    ensures Silent(h, r)
  {
    h.(exchange := h.exchange.(task := None, recoversFromDisconnect := false, result := held),
       link := h.link.(connectedDevice := device))
  }

  /** The task's own end: it answers its call unless that was cancelled. */
  function TaskFreed(h: Handler, succeeded: bool): (r: Handler)
    requires h.exchange.task.Some?
    ensures Silent(h, r)
  {
    var result := TaskResult(h);
    var device := h.link.connectedDevice || (succeeded && h.exchange.task.value.kind.AppSwitch?);
    AnsweredAny(TaskGone(h, device, if result.Some? then None else h.exchange.result), result)
  }

  /** Retires the link of a query that timed out. */
  function RetireLink(h: Handler, w: World): (r: Handler)
    ensures Silent(h, r)
  {
    if !h.exchange.queryRequiresDisconnect then h
    else
      Drain(h.(exchange := h.exchange.(queryRequiresDisconnect := false),
               link := h.link.(needsDisconnect := w.connected)), w)
  }

  function TaskEnded(h: Handler, succeeded: bool, w: World): (r: Handler)
    requires h.exchange.task.Some?
    ensures Silent(h, r)
  {
    RetireLink(TaskFreed(h, succeeded), w)
  }

  function WithWait(h: Handler, wait: Wait): (r: Handler)
    requires h.exchange.task.Some?
    ensures Silent(h, r)
  {
    h.(exchange := h.exchange.(task := Some(h.exchange.task.value.(wait := wait))))
  }

  /** When an event can occur: SDK callbacks answer calls that are outstanding,
      and the task moves on only between its own waits, after its cancellation
      checks. */
  predicate Enabled(h: Handler, e: Event) {
    match e
    case Call(call, _) => call !in h.history.issued
    case ConnectCallback(_) => Connect in h.history.outstanding
    case UserDisconnectCallback(_) => UserDisconnect in h.history.outstanding
    case DrainCallback(_) => DrainDisconnect in h.history.outstanding
    case CloseCallback(_) => CloseDisconnect in h.history.outstanding
    case LinkLost(generation) => generation <= h.link.generation
    case QueryDeadline(generation) => generation <= h.exchange.generation
                                      && (h.exchange.task.Some? ==> !h.exchange.task.value.kind.Sequence?)
    case CloseResumes => h.closing.awaitsTask && h.exchange.task.None?
    case CloseRetryTimer => h.closing.retryScheduled
    case TaskSends => h.exchange.task.Some? && h.exchange.task.value.wait.Running? && !h.exchange.task.value.cancelled
    case TaskReceives => Exchange in h.history.outstanding && h.exchange.task.Some?
    case TaskReconnects =>
      h.exchange.task.Some? && h.exchange.task.value.wait.Running? && h.exchange.task.value.kind.AppSwitch?
      && !h.exchange.task.value.cancelled && h.exchange.task.value.preparation == h.exchange.preparation
    case TaskReconnected(_) => Reconnect in h.history.outstanding && h.exchange.task.Some?
    case TaskEnds(succeeded) => h.exchange.task.Some? && h.exchange.task.value.wait.Running?
                                && (succeeded ==> !h.exchange.task.value.cancelled)
    case other => true
  }

  function Listening(h: Handler, w: World): (r: Handler)
    ensures Silent(h, r)
  {
    var listening := h.(discovery := h.discovery.(listening := true));
    if listening.discovery.requested && listening.discovery.bluetooth.PoweredOn? then BeginDiscovery(listening, w)
    else listening
  }

  function Unlistening(h: Handler): (r: Handler)
    ensures Silent(h, r)
  {
    StopDiscovery(h.(discovery := h.discovery.(listening := false)), true)
  }

  function ScanEnded(h: Handler, generation: nat): (r: Handler)
    ensures Silent(h, r)
  {
    if generation != h.discovery.generation then h
    else h.(discovery := h.discovery.(active := false, requested := false))
  }

  function CloseResumed(h: Handler, owners: Owners, w: World): (r: After)
    ensures Proper(h, owners, r)
  {
    FinishClosing(h.(closing := h.closing.(awaitsTask := false)), owners, w)
  }

  function CloseRetried(h: Handler, owners: Owners, w: World): (r: After)
    ensures Proper(h, owners, r)
  {
    FinishClosing(h.(closing := h.closing.(retryScheduled := false)), owners, w)
  }

  function Sending(h: Handler): (r: Handler)
    requires h.exchange.task.Some?
    ensures Grows(h, r) && r.history.apdus == h.history.apdus + [h.exchange.task.value.call]
  {
    var waiting := WithWait(h, OnExchange);
    Started(waiting.(history := waiting.history.(apdus := h.history.apdus + [h.exchange.task.value.call])), Exchange)
  }

  function Resumed(h: Handler, k: Kind): (r: Handler)
    requires h.exchange.task.Some?
    ensures Silent(h, r)
  {
    CalledBack(WithWait(h, Running), k)
  }

  function Reconnecting(h: Handler): (r: Handler)
    requires h.exchange.task.Some?
    ensures Silent(h, r)
  {
    var waiting := WithWait(h, OnReconnect);
    Started(waiting.(link := waiting.link.(generation := h.link.generation + 1)), Reconnect)
  }

  function Reconnected(h: Handler, failed: bool): (r: Handler)
    requires h.exchange.task.Some?
    ensures Silent(h, r)
  {
    var resumed := Resumed(h, Reconnect);
    if failed then resumed else resumed.(link := resumed.link.(connectedDevice := true))
  }

  /** The steps of the exchange task. */
  function TaskStep(h: Handler, e: Event, w: World): (r: Handler)
    requires Enabled(h, e) && OfTask(e)
    ensures Grows(h, r)
    ensures r.history.apdus == if e.TaskSends? then h.history.apdus + [h.exchange.task.value.call] else h.history.apdus
  {
    match e
    case TaskSends => Sending(h)
    case TaskReceives => Resumed(h, Exchange)
    case TaskReconnects => Reconnecting(h)
    case TaskReconnected(failed) => Reconnected(h, failed)
    case TaskEnds(succeeded) => TaskEnded(h, succeeded, w)
  }

  predicate OfTask(e: Event) {
    e.TaskSends? || e.TaskReceives? || e.TaskReconnects? || e.TaskReconnected? || e.TaskEnds?
  }

  /** The steps that touch neither the registry nor the task. */
  predicate OfSlots(e: Event) {
    e.LinkLost? || e.QueryDeadline? || e.PermissionDeadline? || e.BluetoothChanged? || e.Listen? || e.Unlisten?
    || e.ScanStopped?
  }

  function SlotStep(h: Handler, e: Event, w: World): (r: Handler)
    requires OfSlots(e)
    ensures Silent(h, r)
  {
    match e
    case LinkLost(generation) => LinkLost_(h, generation)
    case QueryDeadline(generation) => QueryTimedOut(h, generation)
    case PermissionDeadline => FinishPermission(h)
    case BluetoothChanged(state) => BluetoothSettled(h, state, w)
    case Listen => Listening(h, w)
    case Unlisten => Unlistening(h)
    case ScanStopped(generation) => ScanEnded(h, generation)
  }

  function Step(h: Handler, owners: Owners, e: Event, w: World): (r: After)
    requires Enabled(h, e)
    ensures Grows(h, r.h) && OwnersFrom(owners, r.owners, h)
    ensures r.h.history.apdus
            == if e.TaskSends? then h.history.apdus + [h.exchange.task.value.call] else h.history.apdus
  {
    if OfTask(e) then After(TaskStep(h, e, w), owners, false)
    else if OfSlots(e) then After(SlotStep(h, e, w), owners, false)
    else
      match e
      case Call(call, m) => Handle(h, owners, call, m, w)
      case ConnectCallback(failed) => ConnectFinished(h, owners, failed, w)
      case UserDisconnectCallback(_) => DisconnectFinished(h, owners, w)
      case DrainCallback(failed) => DrainFinished(h, owners, failed, w)
      case CloseCallback(failed) => CloseFinished(h, owners, failed, w)
      case Close => Closed(h, owners, w)
      case CloseResumes => CloseResumed(h, owners, w)
      case CloseRetryTimer => CloseRetried(h, owners, w)
  }
}
