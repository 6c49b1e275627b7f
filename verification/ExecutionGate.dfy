/** The wallet-wide gate between outbox runs and wallet mutations. */
module ExecutionGate {
  import opened Base

  datatype Gate = Gate(running: bool, leases: set<string>)

  const OPEN := Gate(false, {})

  predicate Admits(g: Gate) { !g.running && g.leases == {} }

  /** The prefix of the leases a completed removal or reset retires. */
  function StopPrefix(scope: Scope): string {
    match scope
    case Everything => "stop:"
    case Account(network, account) => "stop:" + network + ":" + account + ":"
  }

  datatype Scope = Everything | Account(network: string, account: string)

  /** One critical section of some thread. `Observe` is the return of the wait
      loop of the mutator that holds `lease`; it only returns when idle. */
  datatype Event =
    | TryBegin(runner: nat)
    | Finish(runner: nat)
    | Pause(lease: string)
    | Observe(lease: string)
    | DiscardStops(scope: Scope)
    | Resume(lease: string)

  function Remaining(leases: set<string>, scope: Scope): set<string> {
    set l | l in leases && !(StopPrefix(scope) <= l)
  }

  function Stepped(g: Gate, e: Event): Gate {
    match e
    case TryBegin(_) => if Admits(g) then g.(running := true) else g
    case Finish(_) => g.(running := false)
    case Pause(lease) => g.(leases := g.leases + {lease})
    case Observe(_) => g
    case DiscardStops(scope) => g.(leases := Remaining(g.leases, scope))
    case Resume(lease) => g.(leases := g.leases - {lease})
  }

  /** What each critical section does: a run begins only with no run active and
      no lease held, and discarding the leases of a scope removes exactly those
      under its prefix. */
  lemma SectionsAre(g: Gate, runner: nat, lease: string, network: string, account: string)
    ensures Stepped(g, TryBegin(runner)) == if !g.running && g.leases == {} then Gate(true, {}) else g
    ensures Stepped(g, Finish(runner)) == Gate(false, g.leases)
    ensures Stepped(g, Pause(lease)) == Gate(g.running, g.leases + {lease})
    ensures Stepped(g, Resume(lease)) == Gate(g.running, g.leases - {lease})
    ensures Stepped(g, Observe(lease)) == g
    ensures var all := Stepped(g, DiscardStops(Everything));
            all.running == g.running
            && forall l :: l in all.leases <==> l in g.leases && !HasPrefix(l, "stop:")
    ensures var one := Stepped(g, DiscardStops(Account(network, account)));
            one.running == g.running
            && forall l :: l in one.leases <==> l in g.leases && !HasPrefix(l, "stop:" + network + ":" + account + ":")
  {
  }

  // ------------------------------------------------------------ the class

  class ExecutionGate {
    var running: bool
    var mutationLeases: set<string>

    function State(): Gate
      reads this
    {
      Gate(running, mutationLeases)
    }

    constructor ()
      ensures State() == OPEN
    {
      running, mutationLeases := false, {};
    }

    method TryBeginRun(ghost runner: nat) returns (admitted: bool)
      modifies this
      ensures State() == Stepped(old(State()), TryBegin(runner))
      ensures admitted <==> Admits(old(State()))
    {
      if running || mutationLeases != {} { return false; }
      running := true;
      return true;
    }

    method FinishRun(ghost runner: nat)
      modifies this
      ensures State() == Stepped(old(State()), Finish(runner))
    {
      running := false;
    }

    method PauseRuns(lease: string)
      modifies this
      ensures State() == Stepped(old(State()), Pause(lease))
    {
      mutationLeases := mutationLeases + {lease};
    }

    /** Waits while a run is active. `others` are the critical sections other
        threads take while this one waits; the wait is over as soon as one of
        them leaves the gate idle, or unfinished when they are used up. */
    method WaitUntilIdle(others: seq<Event>) returns (idle: bool, ghost taken: nat)
      modifies this
      ensures taken <= |others| && State() == SteppedAll(old(State()), others[..taken])
      ensures idle ==> !running
      ensures !idle ==> taken == |others| && running
      ensures forall n :: 0 <= n < taken ==> SteppedAll(old(State()), others[..n]).running
    {
      var next := 0;
      taken := 0;
      while running && next < |others|
        invariant next == taken <= |others| && State() == SteppedAll(old(State()), others[..taken])
        invariant forall n :: 0 <= n < taken ==> SteppedAll(old(State()), others[..n]).running
        decreases |others| - next
      {
        var after := Stepped(Gate(running, mutationLeases), others[next]);
        assert others[..next + 1][..next] == others[..next];
        running, mutationLeases := after.running, after.leases;
        next, taken := next + 1, taken + 1;
      }
      idle := !running;
    }

    method DiscardStopLeases(scope: Scope)
      modifies this
      ensures State() == Stepped(old(State()), DiscardStops(scope))
    {
      var prefix := StopPrefix(scope);
      mutationLeases := set l | l in mutationLeases && !(prefix <= l);
    }

    method ResumeRuns(lease: string) returns (allFinished: bool)
      modifies this
      ensures State() == Stepped(old(State()), Resume(lease))
      ensures allFinished <==> State().leases == {}
    {
      mutationLeases := mutationLeases - {lease};
      return mutationLeases == {};
    }
  }

  function SteppedAll(g: Gate, events: seq<Event>): Gate {
    if events == [] then g else Stepped(SteppedAll(g, events[..|events| - 1]), events[|events| - 1])
  }

  // ------------------------------------------------ interleaved run and mutators

  /** The gate with the runs admitted and not finished, and the leases whose
      mutator has seen the gate idle while the lease was registered. */
  datatype System = System(gate: Gate, active: set<nat>, held: set<string>)

  const INITIAL := System(OPEN, {}, {})

  /** A run finishes once it was admitted; a wait returns only when idle. */
  predicate Enabled(y: System, e: Event) {
    match e
    case TryBegin(runner) => runner !in y.active
    case Finish(runner) => runner in y.active
    case Observe(lease) => !y.gate.running
    case other => true
  }

  function Step(y: System, e: Event): System {
    var g := Stepped(y.gate, e);
    match e
    case TryBegin(runner) => System(g, if Admits(y.gate) then y.active + {runner} else y.active, y.held)
    case Finish(runner) => System(g, y.active - {runner}, y.held)
    case Observe(lease) => System(g, y.active, if lease in g.leases then y.held + {lease} else y.held)
    case other => System(g, y.active, y.held * g.leases)
  }

  ghost predicate Legal(y: System, events: seq<Event>) {
    events == [] || (Legal(y, events[..|events| - 1]) && Enabled(Run(y, events[..|events| - 1]), events[|events| - 1]))
  }

  function Run(y: System, events: seq<Event>): System {
    if events == [] then y else Step(Run(y, events[..|events| - 1]), events[|events| - 1])
  }

  /** A run takes its events one after the other. */
  lemma RunTakesNext(y: System, events: seq<Event>, e: Event)
    ensures Run(y, []) == y && Run(y, events + [e]) == Step(Run(y, events), e)
    ensures Legal(y, events + [e]) <==> Legal(y, events) && Enabled(Run(y, events), e)
  {
    assert (events + [e])[..|events|] == events;
  }

  predicate AtMostOne(active: set<nat>) {
    forall a, b :: a in active && b in active ==> a == b
  }

  ghost predicate Inv(y: System) {
    && (y.gate.running <==> y.active != {})
    && AtMostOne(y.active)
    && y.held <= y.gate.leases
    && (y.held != {} ==> !y.gate.running)
  }

  lemma StepKeepsInv(y: System, e: Event)
    requires Inv(y) && Enabled(y, e)
    ensures Inv(Step(y, e))
  {
    match e
    case TryBegin(runner) =>
      if Admits(y.gate) { assert runner in Step(y, e).active; }
    case Finish(runner) =>
      assert forall a :: a in y.active ==> a == runner;
    case other =>
  }

  /** Whatever the interleaving of runners and mutators, at most one run is
      active, and none is while a mutator holds a lease it has waited for. */
  lemma {:induction false} AtMostOneRun(events: seq<Event>)
    requires Legal(INITIAL, events)
    ensures Inv(Run(INITIAL, events))
    ensures var y := Run(INITIAL, events); AtMostOne(y.active) && (y.held != {} ==> y.active == {})
    decreases |events|
  {
    if events != [] {
      AtMostOneRun(events[..|events| - 1]);
      StepKeepsInv(Run(INITIAL, events[..|events| - 1]), events[|events| - 1]);
    }
  }

  /** The only events that take a lease away. */
  predicate Releases(e: Event, lease: string) {
    match e
    case Resume(l) => l == lease
    case DiscardStops(scope) => StopPrefix(scope) <= lease
    case other => false
  }

  lemma {:induction false} LeaseStays(y: System, later: seq<Event>, lease: string)
    requires Inv(y) && lease in y.held && Legal(y, later)
    requires forall n :: 0 <= n < |later| ==> !Releases(later[n], lease)
    ensures Inv(Run(y, later)) && lease in Run(y, later).held
    decreases |later|
  {
    if later != [] {
      var before := later[..|later| - 1];
      LeaseStays(y, before, lease);
      assert !Releases(later[|later| - 1], lease);
      StepKeepsInv(Run(y, before), later[|later| - 1]);
    }
  }

  /** What can happen when, and what takes a lease away. */
  lemma OccurrencesAre(y: System, runner: nat, lease: string, other: string, scope: Scope)
    ensures Enabled(y, TryBegin(runner)) <==> runner !in y.active
    ensures Enabled(y, Finish(runner)) <==> runner in y.active
    ensures Enabled(y, Observe(lease)) <==> !y.gate.running
    ensures Enabled(y, Pause(lease)) && Enabled(y, Resume(lease)) && Enabled(y, DiscardStops(scope))
    ensures Releases(Resume(other), lease) <==> other == lease
    ensures !Releases(TryBegin(runner), lease) && !Releases(Finish(runner), lease)
    ensures !Releases(Pause(other), lease) && !Releases(Observe(other), lease)
    ensures lease in y.gate.leases ==>
              (Releases(DiscardStops(scope), lease) <==> lease !in Stepped(y.gate, DiscardStops(scope)).leases)
  {
  }

  /** Once the wait has returned to a mutator whose lease is registered, no run
      is active or admitted until that same lease is resumed or discarded,
      whatever else is paused, resumed, discarded or attempted meanwhile. */
  lemma HeldLeaseExcludesRuns(earlier: seq<Event>, lease: string, later: seq<Event>, runner: nat)
    requires Legal(INITIAL, earlier) && Enabled(Run(INITIAL, earlier), Observe(lease))
    requires lease in Run(INITIAL, earlier).gate.leases
    requires Legal(Step(Run(INITIAL, earlier), Observe(lease)), later)
    requires forall n :: 0 <= n < |later| ==> !Releases(later[n], lease)
    ensures var y := Run(Step(Run(INITIAL, earlier), Observe(lease)), later);
            y.active == {} && !y.gate.running && Step(y, TryBegin(runner)).active == {}
  {
    AtMostOneRun(earlier);
    StepKeepsInv(Run(INITIAL, earlier), Observe(lease));
    LeaseStays(Step(Run(INITIAL, earlier), Observe(lease)), later, lease);
  }

  /** A lease keeps runs out from the moment it is registered, waited for or
      not: a run admitted earlier may end, but none begins. */
  lemma {:induction false} PausedAdmitsNoRun(y: System, later: seq<Event>, lease: string)
    requires lease in y.gate.leases
    requires forall n :: 0 <= n < |later| ==> !Releases(later[n], lease)
    ensures lease in Run(y, later).gate.leases && Run(y, later).active <= y.active
    decreases |later|
  {
    if later != [] {
      PausedAdmitsNoRun(y, later[..|later| - 1], lease);
      assert !Releases(later[|later| - 1], lease);
    }
  }
}
