/** Round-robin fairness of scope selection and endpoint inspection. */
module OutboxFairness {
  import opened Base
  import opened OutboxTypes
  import opened OutboxTransitions

  lemma SortedHasNoDuplicates(xs: seq<string>)
    ensures NoDuplicates(SortedSet(xs))
  {
    SortedSetIsSorted(xs);
    var r := SortedSet(xs);
    forall i, j | 0 <= i < j < |r| ensures r[i] != r[j] {
      LessIrreflexive(r[i]);
    }
  }

  /** The position `t` places after `c` on a ring of `k`, for `t <= k`. */
  function Around(c: nat, t: nat, k: nat): nat
    requires c < k
  {
    if c + t < k then c + t else if c + t >= k + k then 0 else c + t - k
  }

  lemma NextAfter(ring: seq<string>, i: nat)
    requires NoDuplicates(ring) && i < |ring|
    ensures NextInRing(ring, Some(ring[i])) == ring[Around(i, 1, |ring|)]
  {
    assert FirstIndex(ring, (x: string) => x == ring[i]) == Some(i);
    Wrapped(i, |ring|);
  }

  lemma Wrapped(i: nat, k: nat)
    requires i < k
    ensures (i + 1) % k == Around(i, 1, k)
  {
  }

  /** Each pick is the one after the pick before it on the ring. */
  ghost predicate RoundRobin(ring: seq<string>, last: Option<string>, picks: seq<string>) {
    ring != [] && forall t :: 0 <= t < |picks| ==> PickedNext(ring, last, picks, t)
  }

  predicate PickedNext(ring: seq<string>, last: Option<string>, picks: seq<string>, t: int)
    requires ring != [] && 0 <= t < |picks|
  {
    picks[t] == NextInRing(ring, Previous(last, picks, t))
  }

  function Previous(last: Option<string>, picks: seq<string>, t: int): Option<string>
    requires 0 <= t <= |picks|
  {
    if t == 0 then last else Some(picks[t - 1])
  }

  lemma NextPick(ring: seq<string>, last: Option<string>, picks: seq<string>, i: nat, t: nat)
    requires NoDuplicates(ring) && RoundRobin(ring, last, picks) && 0 < t < |picks|
    requires i < |ring| && picks[t - 1] == ring[i]
    ensures picks[t] == ring[Around(i, 1, |ring|)]
  {
    assert PickedNext(ring, last, picks, t);
    NextAfter(ring, i);
  }

  lemma {:induction false} PickAt(ring: seq<string>, last: Option<string>, picks: seq<string>, c: nat, t: nat)
    requires NoDuplicates(ring) && RoundRobin(ring, last, picks) && t < |picks| <= |ring|
    requires c < |ring| && picks[0] == ring[c]
    ensures picks[t] == ring[Around(c, t, |ring|)]
    decreases t
  {
    if t > 0 {
      PickAt(ring, last, picks, c, t - 1);
      NextPick(ring, last, picks, Around(c, t - 1, |ring|), t);
    }
  }

  lemma TurnCovers(ring: seq<string>, picks: seq<string>, c: nat, x: string)
    requires c < |ring| == |picks| && x in ring
    requires forall t :: 0 <= t < |ring| ==> picks[t] == ring[Around(c, t, |ring|)]
    ensures x in picks
  {
    var i :| 0 <= i < |ring| && ring[i] == x;
    var t := if i >= c then i - c else i - c + |ring|;
    assert Around(c, t, |ring|) == i && picks[t] == x;
  }

  lemma TurnIsDistinct(ring: seq<string>, picks: seq<string>, c: nat)
    requires c < |ring| == |picks| && NoDuplicates(ring)
    requires forall t :: 0 <= t < |ring| ==> picks[t] == ring[Around(c, t, |ring|)]
    ensures NoDuplicates(picks) && forall x :: x in picks ==> x in ring
  {
    forall i, j | 0 <= i < j < |picks| ensures picks[i] != picks[j] {
      var a, b := Around(c, i, |ring|), Around(c, j, |ring|);
      assert a != b && picks[i] == ring[a] && picks[j] == ring[b];
      assert if a < b then ring[a] != ring[b] else ring[b] != ring[a];
    }
  }

  /** One full turn of the ring picks every member exactly once. */
  lemma FullTurn(ring: seq<string>, last: Option<string>, picks: seq<string>)
    requires NoDuplicates(ring) && RoundRobin(ring, last, picks) && |picks| == |ring|
    ensures NoDuplicates(picks) && forall x :: x in ring <==> x in picks
  {
    assert PickedNext(ring, last, picks, 0);
    var c :| 0 <= c < |ring| && ring[c] == picks[0];
    forall t | 0 <= t < |ring| ensures picks[t] == ring[Around(c, t, |ring|)] {
      PickAt(ring, last, picks, c, t);
    }
    TurnIsDistinct(ring, picks, c);
    forall x | x in ring ensures x in picks {
      TurnCovers(ring, picks, c, x);
    }
  }

  function CandidateScopes(s: Snapshot, endpoint: Option<string>, height: UInt64, at: Date): set<string> {
    set b | b in Candidates(s, endpoint, height, at) :: ScopeKey(b)
  }

  lemma ScopeRingMembers(s: Snapshot, endpoint: Option<string>, height: UInt64, at: Date)
    ensures forall x :: x in ScopeRing(s, endpoint, height, at) <==> x in CandidateScopes(s, endpoint, height, at)
    ensures StrictlySorted(ScopeRing(s, endpoint, height, at))
  {
    var cs := Candidates(s, endpoint, height, at);
    SortedSetIsSorted(Scopes(cs));
    forall x | x in CandidateScopes(s, endpoint, height, at) ensures x in Scopes(cs) {
      var b :| b in cs && ScopeKey(b) == x;
      var i :| 0 <= i < |cs| && cs[i] == b;
      assert Scopes(cs)[i] == x;
    }
    forall x | x in Scopes(cs) ensures x in CandidateScopes(s, endpoint, height, at) {
      var i :| 0 <= i < |cs| && Scopes(cs)[i] == x;
      assert cs[i] in cs;
    }
  }

  /** When there is a candidate, the selection is of the next candidate scope. */
  lemma SelectsNextScope(s: Snapshot, endpoint: Option<string>, height: UInt64, at: Date)
    requires CandidateScopes(s, endpoint, height, at) != {}
    ensures ScopeRing(s, endpoint, height, at) != []
    ensures SelectDue(s, endpoint, height, at).1.Some?
    ensures SelectDue(s, endpoint, height, at).1.value.scope == NextInRing(ScopeRing(s, endpoint, height, at), s.lastScope)
  {
    hide Filter;
    var cs := Candidates(s, endpoint, height, at);
    var ring := ScopeRing(s, endpoint, height, at);
    ScopeRingMembers(s, endpoint, height, at);
    var x :| x in CandidateScopes(s, endpoint, height, at);
    assert x in ring;
    var scope := NextInRing(ring, s.lastScope);
    var b :| b in cs && ScopeKey(b) == scope;
    var i :| 0 <= i < |cs| && cs[i] == b;
    var bi := FirstIndex(cs, (b: Batch) => ScopeKey(b) == scope);
    assert bi.Some?;
    assert cs[bi.value] in cs;
  }

  /** The selections made on a sequence of snapshots, each handing its cursor to
      the next, whose candidate scopes are the same set throughout. */
  ghost predicate StableTurn(ss: seq<Snapshot>, endpoint: Option<string>, heights: seq<UInt64>, ats: seq<Date>,
                             scopes: set<string>)
  {
    && |heights| == |ats| == |ss|
    && (forall t :: 0 <= t < |ss| ==> CandidateScopes(ss[t], endpoint, heights[t], ats[t]) == scopes)
    && (forall t :: 0 < t < |ss| ==>
          ss[t].lastScope == SelectDue(ss[t - 1], endpoint, heights[t - 1], ats[t - 1]).0.lastScope)
  }

  function SelectedScope(s: Snapshot, endpoint: Option<string>, height: UInt64, at: Date): string {
    var sel := SelectDue(s, endpoint, height, at).1;
    if sel.None? then "" else sel.value.scope
  }

  /** Over as many consecutive selections as there are candidate scopes, every
      scope is selected exactly once. */
  lemma EveryScopeOnce(ss: seq<Snapshot>, endpoint: Option<string>, heights: seq<UInt64>, ats: seq<Date>,
                       scopes: set<string>)
    requires StableTurn(ss, endpoint, heights, ats, scopes) && |ss| == |scopes|
    ensures var picks := seq(|ss|, t requires 0 <= t < |ss| => SelectedScope(ss[t], endpoint, heights[t], ats[t]));
            NoDuplicates(picks) && forall x :: x in scopes <==> x in picks
  {
    hide CandidateScopes;
    var picks := seq(|ss|, t requires 0 <= t < |ss| => SelectedScope(ss[t], endpoint, heights[t], ats[t]));
    if |ss| > 0 {
      var ring := ScopeRing(ss[0], endpoint, heights[0], ats[0]);
      ScopeRingMembers(ss[0], endpoint, heights[0], ats[0]);
      SortedHasNoDuplicates(Scopes(Candidates(ss[0], endpoint, heights[0], ats[0])));
      SelectsNextScope(ss[0], endpoint, heights[0], ats[0]);
      DistinctLength(ring, scopes);
      forall t | 0 <= t < |ss|
        ensures PickedNext(ring, ss[0].lastScope, picks, t)
      {
        ScopeRingMembers(ss[t], endpoint, heights[t], ats[t]);
        SortedUnique(ring, ScopeRing(ss[t], endpoint, heights[t], ats[t]));
        SelectsNextScope(ss[t], endpoint, heights[t], ats[t]);
        if t > 0 { SelectsNextScope(ss[t - 1], endpoint, heights[t - 1], ats[t - 1]); }
      }
      FullTurn(ring, ss[0].lastScope, picks);
    }
  }

  lemma {:induction false} DistinctLength(ring: seq<string>, members: set<string>)
    requires NoDuplicates(ring) && forall x :: x in ring <==> x in members
    ensures |ring| == |members|
  {
    if ring == [] {
      assert members == {};
    } else {
      assert ring[0] in members;
      DistinctLength(ring[1..], members - {ring[0]});
    }
  }

  function WatchedEndpoints(s: Snapshot): set<string> {
    set b | b in s.batches && NeedsInspection(b) :: b.url
  }

  lemma InspectionRingMembers(s: Snapshot)
    ensures forall x :: x in InspectionRing(s) <==> x in WatchedEndpoints(s)
    ensures StrictlySorted(InspectionRing(s))
  {
    var bs := Filter(s.batches, (b: Batch) => NeedsInspection(b));
    SortedSetIsSorted(Urls(bs));
    forall x | x in WatchedEndpoints(s) ensures x in Urls(bs) {
      var b :| b in s.batches && NeedsInspection(b) && b.url == x;
      assert b in bs;
      var i :| 0 <= i < |bs| && bs[i] == b;
      assert Urls(bs)[i] == x;
    }
    forall x | x in Urls(bs) ensures x in WatchedEndpoints(s) {
      var i :| 0 <= i < |bs| && Urls(bs)[i] == x;
      assert bs[i] in bs;
    }
  }

  ghost predicate StableInspection(ss: seq<Snapshot>, endpoints: set<string>) {
    && (forall t :: 0 <= t < |ss| ==> WatchedEndpoints(ss[t]) == endpoints)
    && (forall t :: 0 < t < |ss| ==> ss[t].lastEndpoint == NextEndpoint(ss[t - 1]).0.lastEndpoint)
  }

  /** The endpoint inspected next, or the empty string when there is none. */
  function InspectedEndpoint(s: Snapshot): string {
    var e := NextEndpoint(s).1;
    if e.None? then "" else e.value
  }

  /** Over as many consecutive inspections as there are watched endpoints, every
      endpoint is inspected exactly once. */
  lemma EveryEndpointOnce(ss: seq<Snapshot>, endpoints: set<string>)
    requires StableInspection(ss, endpoints) && |ss| == |endpoints|
    ensures var picks := seq(|ss|, t requires 0 <= t < |ss| => InspectedEndpoint(ss[t]));
            NoDuplicates(picks) && forall x :: x in endpoints <==> x in picks
  {
    var picks := seq(|ss|, t requires 0 <= t < |ss| => InspectedEndpoint(ss[t]));
    if |ss| > 0 {
      var ring := InspectionRing(ss[0]);
      InspectionRingMembers(ss[0]);
      SortedHasNoDuplicates(Urls(Filter(ss[0].batches, (b: Batch) => NeedsInspection(b))));
      DistinctLength(ring, endpoints);
      forall t | 0 <= t < |ss|
        ensures PickedNext(ring, ss[0].lastEndpoint, picks, t)
      {
        InspectionRingMembers(ss[t]);
        SortedUnique(ring, InspectionRing(ss[t]));
        if t > 0 {
          InspectionRingMembers(ss[t - 1]);
          SortedUnique(ring, InspectionRing(ss[t - 1]));
        }
      }
      FullTurn(ring, ss[0].lastEndpoint, picks);
    }
  }
}
