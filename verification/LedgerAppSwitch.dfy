/** Opening the Zcash app on the device: one command, then a polling loop that
    observes the device until the app is there or the budget is spent. */
module LedgerAppSwitch {
  import opened Base

  datatype BleError =
    | Underlying(fallback: BleError)
    | ConnectError | CurrentConnectedError | WriteError | ReadError | ListenError | PendingActionOnDevice
    | ScanningTimedOut | ScanError
    | BluetoothNotAvailable | PairingError | UserRefusedOnDevice | LowerLevelError

  datatype SwitchError =
    | PairingInvalid | Status(code: nat) | BadResponse | Ble(error: BleError) | OtherError | Cancellation
    | TimedOut(lastApp: Option<string>)

  predicate TransientBle(e: BleError) {
    match e
    case Underlying(fallback) => TransientBle(fallback)
    case BluetoothNotAvailable => false
    case PairingError => false
    case UserRefusedOnDevice => false
    case LowerLevelError => false
    case _ => true
  }

  /** The errors a device in transition is expected to give. */
  predicate Transient(e: SwitchError) {
    match e
    case Status(code) => code == 0x6601 || code == 0x6901
    case Ble(error) => TransientBle(error)
    case _ => false
  }

  datatype Kind = Open | Reconnect | Query | Wait

  /** What was done or seen: a cancellation check, a look at the link, a call that
      took some time from `at` on and may have failed, an app the device named. */
  datatype Effect =
    | Check(passed: bool) | Look(connected: bool) | Did(kind: Kind, at: real, failure: Option<SwitchError>)
    | Saw(app: string)

  const ZCASH := "Zcash"

  const INTERVAL := 0.25

  function Max(a: real, b: real): real { if a < b then b else a }

  /** The device and the clock. Calls that suspend take any time; checks in
      between take none. */
  class Surroundings {
    var clock: real
    var calls: nat
    var looks: nat
    var log: seq<Effect>
    // The length of the last sleep asked for.
    var asked: real
    const connectedAt: nat -> bool
    const cancelledFrom: Option<nat>
    const duration: nat -> real
    const failure: nat -> Option<SwitchError>
    const appName: nat -> string

    constructor (clock: real, connectedAt: nat -> bool, cancelledFrom: Option<nat>, duration: nat -> real,
                 failure: nat -> Option<SwitchError>, appName: nat -> string)
      ensures log == []
    {
      this.clock, this.connectedAt, this.cancelledFrom, this.duration := clock, connectedAt, cancelledFrom, duration;
      this.failure, this.appName := failure, appName;
      calls, looks, log, asked := 0, 0, [], 0.0;
    }

    method NotCancelled() returns (passed: bool)
      modifies this
      ensures log == old(log) + [Check(passed)] && clock == old(clock)
    {
      passed := cancelledFrom.None? || looks < cancelledFrom.value;
      looks := looks + 1;
      log := log + [Check(passed)];
    }

    method IsConnected() returns (connected: bool)
      modifies this
      ensures log == old(log) + [Look(connected)] && clock == old(clock)
    {
      connected := connectedAt(looks);
      looks := looks + 1;
      log := log + [Look(connected)];
    }

    /** Notes the app that a query read. */
    method Note(app: string)
      modifies this
      ensures log == old(log) + [Saw(app)] && clock == old(clock)
    {
      log := log + [Saw(app)];
    }

    method Do(kind: Kind) returns (error: Option<SwitchError>)
      modifies this
      ensures log == old(log) + [Did(kind, old(clock), error)] && clock >= old(clock)
    {
      error := failure(calls);
      log := log + [Did(kind, clock, error)];
      clock := clock + Max(duration(calls), 0.0);
      calls := calls + 1;
    }

    /** A sleep takes at least as long as asked, unless it is cancelled. */
    method Sleep(interval: real) returns (error: Option<SwitchError>)
      requires interval >= 0.0
      modifies this
      ensures log == old(log) + [Did(Wait, old(clock), error)] && clock >= old(clock)
      ensures if error.None? then clock >= old(clock) + interval else error.value == Cancellation
      ensures asked == interval
    {
      asked := interval;
      error := if failure(calls).Some? then Some(Cancellation) else None;
      log := log + [Did(Wait, clock, error)];
      clock := clock + Max(duration(calls), if error.None? then interval else 0.0);
      calls := calls + 1;
    }
  }

  function Count(log: seq<Effect>, kind: Kind): nat {
    if log == [] then 0
    else
      var last := log[|log| - 1];
      Count(log[..|log| - 1], kind) + if last.Did? && last.kind == kind then 1 else 0
  }

  lemma CountSnoc(log: seq<Effect>, e: Effect, kind: Kind)
    ensures Count(log + [e], kind) == Count(log, kind) + if e.Did? && e.kind == kind then 1 else 0
  {
    assert (log + [e])[..|log|] == log;
  }

  predicate Fatal(e: Effect) { e.Did? && e.failure.Some? && !Transient(e.failure.value) }

  /** A failed check or an error the transition does not explain. */
  predicate Ends(e: Effect) { e == Check(false) || Fatal(e) }

  /** Entry `i` comes right after a look that found the link as `connected`, and
      that right after a check that passed. */
  predicate AfterLook(log: seq<Effect>, i: int, connected: bool) {
    2 <= i < |log| && log[i - 1] == Look(connected) && log[i - 2] == Check(true)
  }

  /** A log in which the open command comes at most once and right after a check
      that passed, a reconnect only finds the link down and a query only finds it
      up, right after such a check, and within the budget; and once a check failed
      or an unexplained error came up nothing more is done. */
  ghost predicate Disciplined(log: seq<Effect>, deadline: Option<real>) {
    && Count(log, Open) <= (if deadline.None? then 0 else 1)
    && (forall i :: 0 <= i < |log| && log[i].Did? && log[i].kind.Open? ==> i > 0 && log[i - 1] == Check(true))
    && (forall i :: 0 <= i < |log| && log[i].Did? && log[i].kind.Reconnect? ==> AfterLook(log, i, false))
    && (forall i :: 0 <= i < |log| && log[i].Did? && log[i].kind.Query? ==> AfterLook(log, i, true))
    && (forall i :: 0 <= i < |log| && log[i].Did? && !log[i].kind.Open? ==>
          deadline.Some? && log[i].at < deadline.value)
    && (forall i, j :: 0 <= i < j < |log| && Ends(log[i]) ==> log[j].Check?)
  }

  /** The app seen last, and the error a call gave last. */
  function LastSaw(log: seq<Effect>): Option<string> {
    if log == [] then None
    else match log[|log| - 1] case Saw(app) => Some(app) case _ => LastSaw(log[..|log| - 1])
  }

  function LastFailure(log: seq<Effect>): Option<SwitchError> {
    if log == [] then None
    else match log[|log| - 1] case Did(_, _, Some(e)) => Some(e) case _ => LastFailure(log[..|log| - 1])
  }

  lemma LastsSnoc(log: seq<Effect>, e: Effect)
    ensures LastSaw(log + [e]) == match e case Saw(app) => Some(app) case _ => LastSaw(log)
    ensures LastFailure(log + [e]) == match e case Did(_, _, Some(error)) => Some(error) case _ => LastFailure(log)
  {
    assert (log + [e])[..|log|] == log;
  }

  /** What is remembered of the entries added: an error, an app. */
  ghost predicate Remembers(before: seq<Effect>, after: seq<Effect>, failed: Option<SwitchError>, app: Option<string>) {
    && LastSaw(after) == (if app.Some? then app else LastSaw(before))
    && LastFailure(after) == (if failed.Some? then failed else LastFailure(before))
    && (Saw(ZCASH) in after <==> Saw(ZCASH) in before || app == Some(ZCASH))
  }

  lemma RemembersOne(log: seq<Effect>, e: Effect)
    ensures Remembers(log, log + [e], if e.Did? then e.failure else None, if e.Saw? then Some(e.app) else None)
  {
    LastsSnoc(log, e);
  }

  /** What the log so far says: the last app named, which was not the Zcash app,
      and, if none was, the last error. */
  ghost predicate Known(log: seq<Effect>, lastApp: Option<string>, lastError: Option<SwitchError>) {
    && lastApp == LastSaw(log) && (lastApp.None? ==> lastError == LastFailure(log)) && Saw(ZCASH) !in log
  }

  /** Nothing in the log forbids going on. */
  ghost predicate MayGoOn(log: seq<Effect>) { forall i :: 0 <= i < |log| ==> !Ends(log[i]) }

  lemma AddCheck(log: seq<Effect>, deadline: Option<real>, passed: bool)
    requires Disciplined(log, deadline)
    ensures Disciplined(log + [Check(passed)], deadline)
    ensures MayGoOn(log) && passed ==> MayGoOn(log + [Check(passed)])
  {
    hide Count;
    CountSnoc(log, Check(passed), Open);
    var after := log + [Check(passed)];
    forall i | 0 <= i < |after| && after[i].Did? && (after[i].kind.Reconnect? || after[i].kind.Query?)
      ensures AfterLook(after, i, after[i].kind.Query?)
    {
      assert AfterLook(log, i, log[i].kind.Query?);
    }
  }

  /** A look at the link, or an app noted, ends nothing. */
  lemma AddSight(log: seq<Effect>, deadline: Option<real>, e: Effect)
    requires Disciplined(log, deadline) && MayGoOn(log) && (e.Look? || e.Saw?)
    ensures Disciplined(log + [e], deadline) && MayGoOn(log + [e])
    ensures forall k :: Count(log + [e], k) == Count(log, k)
  {
    hide Count;
    forall k ensures Count(log + [e], k) == Count(log, k) { CountSnoc(log, e, k); }
    var after := log + [e];
    forall i | 0 <= i < |after| && after[i].Did? && (after[i].kind.Reconnect? || after[i].kind.Query?)
      ensures AfterLook(after, i, after[i].kind.Query?)
    {
      assert AfterLook(log, i, log[i].kind.Query?);
    }
  }

  lemma AddCall(log: seq<Effect>, deadline: real, e: Effect)
    requires Disciplined(log, Some(deadline)) && MayGoOn(log) && e.Did? && !e.kind.Open? && e.at < deadline
    requires e.kind.Wait? || AfterLook(log + [e], |log|, e.kind.Query?)
    ensures Disciplined(log + [e], Some(deadline))
    ensures !Fatal(e) ==> MayGoOn(log + [e])
  {
    hide Count;
    CountSnoc(log, e, Open);
    var after := log + [e];
    forall i | 0 <= i < |after| && after[i].Did? && (after[i].kind.Reconnect? || after[i].kind.Query?)
      ensures AfterLook(after, i, after[i].kind.Query?)
    {
      if i < |log| { assert AfterLook(log, i, log[i].kind.Query?); }
    }
  }

  /** The command itself, after which the deadline is set. */
  lemma AddOpen(e: Effect, deadline: real)
    requires e.Did? && e.kind.Open?
    ensures Disciplined([Check(true), e], Some(deadline))
    ensures !Fatal(e) ==> MayGoOn([Check(true), e])
  {
    CountSnoc([Check(true)], e, Open);
    CountSnoc([], Check(true), Open);
    assert [] + [Check(true)] == [Check(true)] && [Check(true)] + [e] == [Check(true), e];
  }

  /** After an error: cancelled, unexplained, or to be waited through. */
  method Caught(world: Surroundings, error: SwitchError, ghost deadline: Option<real>) returns (r: Option<SwitchError>)
    requires Disciplined(world.log, deadline)
    modifies world
    ensures Disciplined(world.log, deadline) && world.clock == old(world.clock)
    ensures exists passed :: world.log == old(world.log) + [Check(passed)] && (r.None? <==> Transient(error) && passed)
                             && (!passed ==> r == Some(Cancellation)) && (passed && r.Some? ==> r.value == error)
    ensures old(MayGoOn(world.log)) && r.None? ==> MayGoOn(world.log)
  {
    var passed := world.NotCancelled();
    AddCheck(old(world.log), deadline, passed);
    r := if !passed then Some(Cancellation) else if !Transient(error) then Some(error) else None;
  }

  /** The number of rounds a budget allows. */
  predicate Affordable(rounds: nat, timeout: real) {
    rounds == 0 || (rounds - 1) as real * INTERVAL < timeout
  }

  /** Every kind of call is made at most once a round. */
  ghost predicate OncePerRound(log: seq<Effect>, rounds: nat) {
    Count(log, Reconnect) <= rounds && Count(log, Query) <= rounds && Count(log, Wait) <= rounds
  }

  /** The error thrown is the one that ended the log: a cancellation, or the
      very error that no transition explains. */
  ghost predicate Explains(log: seq<Effect>, error: SwitchError) {
    && (Check(false) in log ==> error == Cancellation)
    && (Check(false) !in log ==> forall i :: 0 <= i < |log| && Fatal(log[i]) ==> error == log[i].failure.value)
  }

  /** One part of a round: what it adds is disciplined, and if it throws, the
      log explains the error. */
  ghost predicate Part(after: seq<Effect>, deadline: Option<real>, thrown: Option<SwitchError>) {
    && Disciplined(after, deadline)
    && (thrown.None? ==> MayGoOn(after))
    && (thrown.Some? ==> !MayGoOn(after) && Explains(after, thrown.value))
  }

  ghost predicate Counts(before: seq<Effect>, after: seq<Effect>, kind: Kind) {
    forall k :: Count(after, k) <= Count(before, k) + if k == kind then 1 else 0
  }

  /** A check that ends the call when it fails. */
  method Checked(world: Surroundings, ghost deadline: Option<real>) returns (thrown: Option<SwitchError>)
    requires Disciplined(world.log, deadline) && MayGoOn(world.log)
    modifies world
    ensures Part(world.log, deadline, thrown) && world.clock == old(world.clock)
    ensures thrown.None? ==> world.log == old(world.log) + [Check(true)]
    ensures world.log == old(world.log) + [Check(thrown.None?)]
    ensures thrown.Some? ==> thrown == Some(Cancellation)
    ensures forall k :: Count(world.log, k) == Count(old(world.log), k)
    ensures Remembers(old(world.log), world.log, None, None)
  {
    var passed := world.NotCancelled();
    RemembersOne(old(world.log), Check(passed));
    AddCheck(old(world.log), deadline, passed);
    forall k ensures Count(world.log, k) == Count(old(world.log), k) { CountSnoc(old(world.log), Check(passed), k); }
    if passed { return None; }
    assert world.log[|old(world.log)|] == Check(false);
    return Some(Cancellation);
  }

  /** The call and, if it failed, the check that follows. */
  predicate Attempts(before: seq<Effect>, after: seq<Effect>, kind: Kind, at: real, failed: Option<SwitchError>) {
    if failed.None? then after == before + [Did(kind, at, None)]
    else |after| == |before| + 2 && after[..|before|] == before && after[|before|] == Did(kind, at, failed)
         && after[|before| + 1].Check?
  }

  /** A reconnect or a query, and what becomes of its error. */
  method Attempt(world: Surroundings, kind: Kind, ghost deadline: real)
    returns (thrown: Option<SwitchError>, failed: Option<SwitchError>)
    requires Disciplined(world.log, Some(deadline)) && MayGoOn(world.log) && world.clock < deadline
    requires (kind.Reconnect? || kind.Query?) && |world.log| >= 2
    requires world.log[|world.log| - 1] == Look(kind.Query?) && world.log[|world.log| - 2] == Check(true)
    modifies world
    ensures Part(world.log, Some(deadline), thrown) && Counts(old(world.log), world.log, kind)
    ensures Attempts(old(world.log), world.log, kind, old(world.clock), failed)
    ensures world.clock >= old(world.clock)
    ensures failed.Some? && thrown.None? ==> Transient(failed.value)
    ensures thrown.Some? ==> failed.Some?
    ensures Remembers(old(world.log), world.log, failed, None)
  {
    hide LastSaw, LastFailure, Disciplined, Explains, Transient, MayGoOn, Count;
    failed := world.Do(kind);
    ghost var e := Did(kind, old(world.clock), failed);
    RemembersOne(old(world.log), e);
    assert AfterLook(old(world.log) + [e], |old(world.log)|, kind.Query?);
    AddCall(old(world.log), deadline, e);
    forall k ensures Count(world.log, k) == Count(old(world.log), k) + if k == kind then 1 else 0 {
      CountSnoc(old(world.log), e, k);
    }
    thrown := None;
    if failed.Some? {
      ghost var log := world.log;
      thrown := Caught(world, failed.value, Some(deadline));
      ghost var passed :| world.log == log + [Check(passed)] && (thrown.None? <==> Transient(failed.value) && passed)
                          && (!passed ==> thrown == Some(Cancellation))
                          && (passed && thrown.Some? ==> thrown.value == failed.value);
      forall k ensures Count(world.log, k) == Count(log, k) { CountSnoc(log, Check(passed), k); }
      RemembersOne(log, Check(passed));
      if thrown.Some? { FirstError(old(world.log), e, passed, thrown.value); }
    }
  }

  /** The error just caught is the only one of its kind in the log. */
  lemma FirstError(log: seq<Effect>, e: Effect, passed: bool, error: SwitchError)
    requires MayGoOn(log) && e.Did? && e.failure.Some?
    requires if passed then error == e.failure.value else error == Cancellation
    requires !passed || !Transient(error)
    ensures Explains(log + [e] + [Check(passed)], error) && !MayGoOn(log + [e] + [Check(passed)])
  {
    var after := log + [e] + [Check(passed)];
    forall i | 0 <= i < |log| ensures after[i] == log[i] && !Ends(after[i]) {
    }
    assert after[|log|] == e && after[|log| + 1] == Check(passed);
    assert Ends(after[|log|]) || Ends(after[|log| + 1]);
    if passed {
      assert Check(false) !in after by {
        forall i | 0 <= i < |after| ensures after[i] != Check(false) {
          if i < |log| { assert !Ends(after[i]); }
        }
      }
    }
  }

  /** Reads the app after a query that succeeded; a cancellation meanwhile ends
      the call, whatever the device said. */
  method QueryApp(world: Surroundings, ghost deadline: real)
    returns (thrown: Option<SwitchError>, failed: Option<SwitchError>, app: string)
    requires Disciplined(world.log, Some(deadline)) && MayGoOn(world.log) && world.clock < deadline
    requires |world.log| >= 2 && world.log[|world.log| - 1] == Look(true) && world.log[|world.log| - 2] == Check(true)
    modifies world
    ensures Part(world.log, Some(deadline), thrown) && Counts(old(world.log), world.log, Query)
    ensures world.clock >= old(world.clock)
    ensures failed.Some? ==> Attempts(old(world.log), world.log, Query, old(world.clock), failed)
    ensures failed.None? ==> world.log == old(world.log) + [Did(Query, old(world.clock), None)]
                                          + if thrown.None? then [Check(true), Saw(app)] else [Check(false)]
    ensures failed.Some? && thrown.None? ==> Transient(failed.value)
    ensures Remembers(old(world.log), world.log, failed, if failed.None? && thrown.None? then Some(app) else None)
  {
    app := world.appName(world.calls);
    thrown, failed := Attempt(world, Query, deadline);
    if failed.None? {
      thrown := Checked(world, Some(deadline));
      if thrown.None? {
        AddSight(world.log, Some(deadline), Saw(app));
        RemembersOne(world.log, Saw(app));
        world.Note(app);
      }
    }
  }

  /** How a round ends, with the last app name seen and the last error. */
  datatype Round =
    | Found(app: string)
    | Throws(error: SwitchError)
    | Spent(lastApp: Option<string>, lastError: Option<SwitchError>)
    | Again(lastApp: Option<string>, lastError: Option<SwitchError>)

  function Thrown(r: Round): Option<SwitchError> { if r.Throws? then Some(r.error) else None }

  predicate Waitable(e: Option<SwitchError>) { e.Some? ==> Transient(e.value) }

  ghost predicate OneMoreOfEach(before: seq<Effect>, after: seq<Effect>) {
    forall k :: Count(after, k) <= Count(before, k) + if k.Open? then 0 else 1
  }

  /** A check, a look at the link, and a reconnect exactly if it is down. */
  predicate Relinked(before: seq<Effect>, after: seq<Effect>, at: real, thrown: Option<SwitchError>,
                     failed: Option<SwitchError>)
  {
    || (after == before + [Check(false)] && thrown == Some(Cancellation))
    || (after == before + [Check(true), Look(true)] && thrown.None? && failed.None?)
    || Attempts(before + [Check(true), Look(false)], after, Reconnect, at, failed)
  }

  /** The first half of a round: reconnect if the link is down. */
  method Relink(world: Surroundings, limit: real) returns (thrown: Option<SwitchError>, failed: Option<SwitchError>)
    requires Disciplined(world.log, Some(limit)) && MayGoOn(world.log) && world.clock < limit
    modifies world
    ensures Part(world.log, Some(limit), thrown) && Counts(old(world.log), world.log, Reconnect)
    ensures world.clock >= old(world.clock)
    ensures thrown.None? ==> Waitable(failed)
    ensures Relinked(old(world.log), world.log, old(world.clock), thrown, failed)
    ensures Remembers(old(world.log), world.log, failed, None)
  {
    hide Disciplined, LastSaw, LastFailure, Explains, Transient;
    failed := None;
    thrown := Checked(world, Some(limit));
    if thrown.Some? { return; }
    var connected := Looked(world, limit);
    if !connected { thrown, failed := Attempt(world, Reconnect, limit); }
  }

  /** A look at the link, which ends nothing. */
  method Looked(world: Surroundings, ghost limit: real) returns (connected: bool)
    requires Disciplined(world.log, Some(limit)) && MayGoOn(world.log)
    modifies world
    ensures world.log == old(world.log) + [Look(connected)] && world.clock == old(world.clock)
    ensures Part(world.log, Some(limit), None) && forall k :: Count(world.log, k) == Count(old(world.log), k)
    ensures Remembers(old(world.log), world.log, None, None)
  {
    connected := world.IsConnected();
    AddSight(old(world.log), Some(limit), Look(connected));
    RemembersOne(old(world.log), Look(connected));
  }

  /** A check, then within the budget a look at the link, and a query exactly if
      it is up, whose app is noted unless the call was cancelled meanwhile. */
  predicate Observed(before: seq<Effect>, after: seq<Effect>, at: real, limit: real, thrown: Option<SwitchError>,
                     failed: Option<SwitchError>, app: Option<string>, late: bool)
  {
    var asked := before + [Check(true), Look(true)];
    || (after == before + [Check(false)] && thrown == Some(Cancellation))
    || (late && at >= limit && after == before + [Check(true)])
    || (!late && at < limit && thrown.None? && failed.None? && app.None? && after == before + [Check(true), Look(false)])
    || (!late && at < limit && failed.Some? && app.None? && Attempts(asked, after, Query, at, failed))
    || (!late && at < limit && failed.None? && thrown.Some? && after == asked + [Did(Query, at, None), Check(false)])
    || (!late && at < limit && failed.None? && thrown.None? && app.Some?
        && after == asked + [Did(Query, at, None), Check(true), Saw(app.value)])
  }

  /** The second half: query the app if the link is up. */
  method Observe(world: Surroundings, limit: real)
    returns (thrown: Option<SwitchError>, failed: Option<SwitchError>, app: Option<string>, late: bool)
    requires Disciplined(world.log, Some(limit)) && MayGoOn(world.log)
    modifies world
    ensures Part(world.log, Some(limit), thrown) && Counts(old(world.log), world.log, Query)
    ensures world.clock >= old(world.clock)
    ensures thrown.None? ==> Waitable(failed) && (late ==> world.clock >= limit) && (app.Some? ==> failed.None?)
    ensures Observed(old(world.log), world.log, old(world.clock), limit, thrown, failed, app, late)
    ensures Remembers(old(world.log), world.log, failed, app)
  {
    hide Disciplined;
    failed, app, late := None, None, false;
    thrown := Checked(world, Some(limit));
    if thrown.Some? { return; }
    if world.clock >= limit {
      late := true;
      return;
    }
    var connected := Looked(world, limit);
    if connected {
      ghost var asked := world.log;
      assert asked == old(world.log) + [Check(true), Look(true)];
      var name;
      thrown, failed, name := QueryApp(world, limit);
      if failed.None? && thrown.None? { app := Some(name); }
    }
  }

  /** One round: reconnect if the link is down, query if it is up, then wait. It
      is over once the device names the Zcash app. */
  method Poll(world: Surroundings, limit: real, lastApp0: Option<string>, lastError0: Option<SwitchError>)
    returns (r: Round)
    requires Disciplined(world.log, Some(limit)) && MayGoOn(world.log) && world.clock < limit && Waitable(lastError0)
    requires Known(world.log, lastApp0, lastError0)
    modifies world
    ensures Part(world.log, Some(limit), Thrown(r)) && OneMoreOfEach(old(world.log), world.log)
    ensures old(world.log) <= world.log
    ensures world.clock >= old(world.clock)
    ensures r.Found? ==> r.app == ZCASH
    ensures r.Found? <==> Saw(ZCASH) in world.log
    ensures r.Again? ==> Waitable(r.lastError) && (world.clock >= old(world.clock) + INTERVAL || world.clock >= limit)
    ensures r.Spent? ==> Waitable(r.lastError) && world.clock >= limit
    ensures r.Again? || r.Spent? ==> Known(world.log, r.lastApp, r.lastError)
  {
    hide Disciplined, Explains, Count, LastSaw, LastFailure, Attempts;
    var lastApp, lastError := lastApp0, lastError0;
    ghost var begun := world.log;
    var thrown, failed := Relink(world, limit);
    RelinkedGrows(begun, world.log, old(world.clock), thrown, failed);
    if thrown.Some? { return Throws(thrown.value); }
    if failed.Some? { lastError := failed; }
    ghost var relinked, at := world.log, world.clock;
    var app, late;
    thrown, failed, app, late := Observe(world, limit);
    ghost var observed := world.log;
    ObservedGrows(relinked, observed, at, limit, thrown, failed, app, late);
    TwoParts(old(world.log), relinked, observed);
    if thrown.Some? { return Throws(thrown.value); }
    if app.Some? {
      lastApp, lastError := app, None;
      if app.value == ZCASH { return Found(ZCASH); }
    } else if failed.Some? {
      lastError := failed;
    }
    if late || world.clock >= limit { return Spent(lastApp, lastError); }
    thrown := Rest(world, limit);
    ThreeParts(old(world.log), relinked, observed, world.log);
    return if thrown.Some? then Throws(thrown.value) else Again(lastApp, lastError);
  }

  lemma RelinkedGrows(before: seq<Effect>, after: seq<Effect>, at: real, thrown: Option<SwitchError>,
                      failed: Option<SwitchError>)
    requires Relinked(before, after, at, thrown, failed)
    ensures before <= after
  {
    var looked := before + [Check(true), Look(false)];
    if Attempts(looked, after, Reconnect, at, failed) {
      assert looked <= after;
    }
  }

  lemma ObservedGrows(before: seq<Effect>, after: seq<Effect>, at: real, limit: real, thrown: Option<SwitchError>,
                      failed: Option<SwitchError>, app: Option<string>, late: bool)
    requires Observed(before, after, at, limit, thrown, failed, app, late)
    ensures before <= after
  {
    var asked := before + [Check(true), Look(true)];
    if failed.Some? && Attempts(asked, after, Query, at, failed) { assert asked <= after; }
  }

  lemma TwoParts(a: seq<Effect>, b: seq<Effect>, c: seq<Effect>)
    requires Counts(a, b, Reconnect) && Counts(b, c, Query)
    ensures OneMoreOfEach(a, c)
  {
    forall k ensures Count(c, k) <= Count(a, k) + if k.Open? then 0 else 1 {
      assert Count(b, k) <= Count(a, k) + if k == Reconnect then 1 else 0;
      assert Count(c, k) <= Count(b, k) + if k == Query then 1 else 0;
    }
  }

  lemma ThreeParts(a: seq<Effect>, b: seq<Effect>, c: seq<Effect>, d: seq<Effect>)
    requires Counts(a, b, Reconnect) && Counts(b, c, Query) && Counts(c, d, Wait)
    ensures OneMoreOfEach(a, d)
  {
    forall k ensures Count(d, k) <= Count(a, k) + if k.Open? then 0 else 1 {
      assert Count(b, k) <= Count(a, k) + if k == Reconnect then 1 else 0;
      assert Count(c, k) <= Count(b, k) + if k == Query then 1 else 0;
      assert Count(d, k) <= Count(c, k) + if k == Wait then 1 else 0;
    }
  }

  /** Waits out the interval, or what is left of the budget. */
  method Rest(world: Surroundings, limit: real) returns (thrown: Option<SwitchError>)
    requires Disciplined(world.log, Some(limit)) && MayGoOn(world.log) && world.clock < limit
    modifies world
    ensures Part(world.log, Some(limit), thrown) && Counts(old(world.log), world.log, Wait)
    ensures old(world.log) <= world.log
    ensures world.clock >= old(world.clock)
    ensures thrown.None? ==> world.clock >= old(world.clock) + INTERVAL || world.clock >= limit
    ensures world.log == old(world.log) + [Did(Wait, old(world.clock), thrown)]
    ensures world.asked == if limit - old(world.clock) < 0.25 then limit - old(world.clock) else 0.25
    ensures Remembers(old(world.log), world.log, thrown, None)
  {
    var remaining := limit - world.clock;
    thrown := world.Sleep(if remaining < INTERVAL then remaining else INTERVAL);
    ghost var e := Did(Wait, old(world.clock), thrown);
    RemembersOne(old(world.log), e);
    AddCall(old(world.log), limit, e);
    forall k ensures Count(world.log, k) == Count(old(world.log), k) + if k == Wait then 1 else 0 {
      CountSnoc(old(world.log), e, k);
    }
    if thrown.Some? { LastError(old(world.log), e); }
  }

  lemma LastError(log: seq<Effect>, e: Effect)
    requires MayGoOn(log) && Fatal(e)
    ensures Explains(log + [e], e.failure.value) && !MayGoOn(log + [e])
  {
    assert Ends((log + [e])[|log|]);
    forall i | 0 <= i < |log + [e]| ensures (log + [e])[i] != Check(false) {
      if i < |log| { assert !Ends(log[i]); }
    }
  }

  lemma Affording(rounds: nat, timeout: real)
    requires rounds as real * INTERVAL < timeout
    ensures timeout > 0.0 && rounds < (timeout / INTERVAL).Floor + 1
  {
  }

  lemma CountedOnce(before: seq<Effect>, after: seq<Effect>, rounds: nat)
    requires rounds > 0 && OncePerRound(before, rounds - 1) && OneMoreOfEach(before, after)
    ensures OncePerRound(after, rounds)
  {
    assert Count(after, Reconnect) <= Count(before, Reconnect) + 1;
    assert Count(after, Query) <= Count(before, Query) + 1;
    assert Count(after, Wait) <= Count(before, Wait) + 1;
  }

  /** Sends the command that opens the app. Its response may be lost while the
      device is already switching, so it is never sent again. */
  method Command(world: Surroundings, timeout: real)
    returns (thrown: Option<SwitchError>, failed: Option<SwitchError>)
    requires world.log == [Check(true)]
    modifies world
    ensures Part(world.log, Some(world.clock + timeout), thrown)
    ensures [Check(true)] < world.log && world.log[1].Did? && world.log[1].kind.Open? && world.clock >= world.log[1].at
    ensures OncePerRound(world.log, 0) && (thrown.None? ==> Waitable(failed))
    ensures Known(world.log, None, failed)
  {
    hide Transient, Explains, Count, Disciplined;
    failed := world.Do(Open);
    ghost var e := Did(Open, old(world.clock), failed);
    ghost var deadline := world.clock + timeout;
    AddOpen(e, deadline);
    ghost var log := world.log;
    assert log == [Check(true), e] == [Check(true)] + [e] == [] + [Check(true)] + [e];
    CountsOfOpening(e);
    RemembersOne([], Check(true));
    RemembersOne([Check(true)], e);
    thrown := None;
    if failed.Some? {
      thrown := Caught(world, failed.value, Some(deadline));
      ghost var passed :| world.log == log + [Check(passed)];
      forall k ensures Count(world.log, k) == Count(log, k) { CountSnoc(log, Check(passed), k); }
      RemembersOne(log, Check(passed));
      if thrown.Some? {
        assert [Check(true)] + [e] == log;
        FirstError([Check(true)], e, passed, thrown.value);
      }
    }
  }

  lemma CountsOfOpening(e: Effect)
    requires e.Did? && e.kind.Open?
    ensures OncePerRound([Check(true), e], 0)
  {
    forall k ensures Count([Check(true), e], k) == if k.Open? then 1 else 0 {
      CountSnoc([Check(true)], e, k);
      CountSnoc([], Check(true), k);
      assert [] + [Check(true)] == [Check(true)] && [Check(true)] + [e] == [Check(true), e];
    }
  }

  /** What time has passed after so many rounds. */
  ghost predicate Paced(begin: real, clock: real, rounds: nat, limit: real) {
    clock >= begin + rounds as real * INTERVAL || clock >= limit
  }

  lemma OneRoundLater(begin: real, clock: real, clock': real, rounds: nat, limit: real)
    requires Paced(begin, clock, rounds, limit) && clock < limit
    ensures Affordable(rounds + 1, limit - begin) && rounds < ((limit - begin) / INTERVAL).Floor + 1
    ensures clock' >= clock + INTERVAL || clock' >= limit ==> Paced(begin, clock', rounds + 1, limit)
  {
    Affording(rounds, limit - begin);
  }

  /** Polls until a round ends the call or the budget is spent. */
  method PollUntil(world: Surroundings, limit: real, lastError0: Option<SwitchError>)
    returns (r: Round, ghost rounds: nat)
    requires Part(world.log, Some(limit), None) && Waitable(lastError0) && OncePerRound(world.log, 0)
    requires Known(world.log, None, lastError0)
    modifies world
    ensures Part(world.log, Some(limit), Thrown(r)) && old(world.log) <= world.log
    ensures !r.Again? && (r.Found? ==> r.app == ZCASH) && (r.Spent? ==> Waitable(r.lastError) && world.clock >= limit)
    ensures Affordable(rounds, limit - old(world.clock)) && OncePerRound(world.log, rounds)
    ensures r.Found? <==> Saw(ZCASH) in world.log
    ensures r.Spent? ==> Known(world.log, r.lastApp, r.lastError)
  {
    hide LastSaw, LastFailure, Disciplined, Explains;
    var lastApp, lastError := None, lastError0;
    rounds := 0;
    ghost var begin := world.clock;
    while world.clock < limit
      invariant Waitable(lastError) && old(world.log) <= world.log && Part(world.log, Some(limit), None)
      invariant OncePerRound(world.log, rounds) && Affordable(rounds, limit - begin)
      invariant Paced(begin, world.clock, rounds, limit) && Known(world.log, lastApp, lastError)
      decreases ((limit - begin) / INTERVAL).Floor + 1 - rounds
    {
      ghost var before, clock := world.log, world.clock;
      r := Poll(world, limit, lastApp, lastError);
      OneRoundLater(begin, clock, world.clock, rounds, limit);
      rounds := rounds + 1;
      CountedOnce(before, world.log, rounds);
      if !r.Again? { return; }
      lastApp, lastError := r.lastApp, r.lastError;
    }
    r := Spent(lastApp, lastError);
  }

  /** Sends the open command at most once and polls within the budget. It
      returns the Zcash app exactly if the device named it; it starts nothing once it saw a cancellation
      or an error no transition explains, which it throws as it is; and it
      makes at most as many rounds as the interval fits into the budget. */
  method OpenZcashApp(world: Surroundings, timeout: real)
    returns (r: Result<string, SwitchError>, ghost deadline: Option<real>, ghost rounds: nat)
    requires world.log == []
    modifies world
    ensures Disciplined(world.log, deadline)
    ensures deadline.Some? ==> |world.log| >= 2 && world.log[1].Did? && world.log[1].kind.Open?
                               && deadline.value >= world.log[1].at + timeout
    ensures r.Success? ==> r.value == ZCASH && MayGoOn(world.log)
    ensures r.Failure? ==> Explains(world.log, r.error)
    ensures r.Failure? && MayGoOn(world.log) ==>
              (r.error.TimedOut? || Transient(r.error)) && deadline.Some? && world.clock >= deadline.value
    ensures Affordable(rounds, timeout) && OncePerRound(world.log, rounds)
    ensures r.Success? <==> Saw(ZCASH) in world.log
    ensures r.Failure? && MayGoOn(world.log) ==>
              r.error == match LastSaw(world.log)
                         case Some(app) => TimedOut(Some(app))
                         case None => match LastFailure(world.log) case Some(e) => e case None => TimedOut(None)
  {
    assert Saw(ZCASH) !in world.log && Count(world.log, Open) == 0;
    hide LastSaw, LastFailure, Transient, Count, Affordable, Explains;
    deadline, rounds := None, 0;
    var thrown := Checked(world, None);
    if thrown.Some? { return Failure(thrown.value), deadline, rounds; }
    var failed;
    thrown, failed := Command(world, timeout);
    var limit := world.clock + timeout;
    deadline := Some(limit);
    if thrown.Some? { return Failure(thrown.value), deadline, rounds; }
    ghost var first := world.log;
    var round;
    round, rounds := PollUntil(world, limit, failed);
    assert world.log[1] == first[1];
    if round.Found? { return Success(round.app), deadline, rounds; }
    if round.Throws? { return Failure(round.error), deadline, rounds; }
    var error := GiveUp(world, limit, round.lastApp, round.lastError, rounds);
    r := Failure(error);
  }

  /** Once the budget is spent: a cancellation still counts, else the last error
      is thrown if no app was ever named, else the last app is reported. */
  method GiveUp(world: Surroundings, ghost limit: real, lastApp: Option<string>, lastError: Option<SwitchError>,
                ghost rounds: nat) returns (error: SwitchError)
    requires Part(world.log, Some(limit), None) && Known(world.log, lastApp, lastError) && Waitable(lastError)
    requires OncePerRound(world.log, rounds)
    modifies world
    ensures Disciplined(world.log, Some(limit)) && OncePerRound(world.log, rounds)
    ensures world.clock == old(world.clock) && old(world.log) <= world.log
    ensures Saw(ZCASH) !in world.log && Explains(world.log, error)
    ensures MayGoOn(world.log) ==>
              && (error.TimedOut? || Transient(error))
              && error == match LastSaw(world.log)
                          case Some(app) => TimedOut(Some(app))
                          case None => match LastFailure(world.log) case Some(e) => e case None => TimedOut(None)
  {
    hide Count, LastSaw, LastFailure, Transient, Disciplined;
    ghost var spent := world.log;
    var thrown := Checked(world, Some(limit));
    assert OncePerRound(world.log, rounds) by {
      assert Count(world.log, Reconnect) == Count(spent, Reconnect) && Count(world.log, Query) == Count(spent, Query);
      assert Count(world.log, Wait) == Count(spent, Wait);
    }
    if thrown.Some? { return thrown.value; }
    NothingEnded(world.log);
    return if lastApp.None? && lastError.Some? then lastError.value else TimedOut(lastApp);
  }

  lemma NothingEnded(log: seq<Effect>)
    requires MayGoOn(log)
    ensures Check(false) !in log && forall i :: 0 <= i < |log| ==> !Fatal(log[i])
  {
    forall i | 0 <= i < |log| ensures log[i] != Check(false) && !Fatal(log[i]) {
      assert !Ends(log[i]);
    }
  }

  // ------------------------------------------------------------- what is waited for

  /** Only a busy device, and failures of the link itself, are waited through. */
  lemma TransientIs(e: SwitchError)
    ensures Transient(e) <==>
              || e == Status(0x6601) || e == Status(0x6901)
              || (e.Ble? && Innermost(e.error) in {ConnectError, CurrentConnectedError, WriteError, ReadError, ListenError,
                                                   PendingActionOnDevice, ScanningTimedOut, ScanError})
  {
    if e.Ble? { TransientBleIs(e.error); }
  }

  function Innermost(e: BleError): BleError { if e.Underlying? then Innermost(e.fallback) else e }

  lemma {:induction false} TransientBleIs(e: BleError)
    ensures TransientBle(e) <==> Innermost(e) in {ConnectError, CurrentConnectedError, WriteError, ReadError, ListenError,
                                                  PendingActionOnDevice, ScanningTimedOut, ScanError}
  {
    if e.Underlying? { TransientBleIs(e.fallback); }
  }
}
