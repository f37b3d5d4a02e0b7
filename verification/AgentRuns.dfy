/** Two runs from the start, for every bound of the result map, in which one action is dispatched twice. */
module AgentRuns {
  import opened Common
  import opened Playing
  import opened Retention
  import opened Wire
  import opened Agent
  import opened AgentOnce
  import opened AgentLimits

  // ---------- two actions are enough ----------

  /** x dispatched but not stored: one store of another action, and a retry of x dispatches again. */
  lemma StoreInFlightDispatchesTwice(max: nat, s: State, first: Request, other: Request, retry: Request, reply: Reply)
    requires Inv(s, first.id) && first in s.calls && s.calls[first].Worked?
    requires other in s.calls && s.calls[other].Worked? && other.id != first.id
    requires retry.id == first.id && retry !in s.calls && WellFormed(reply)
    ensures var end := Play(Moves(max), s, [Store(other)] + Dispatching(retry, reply));
            end.Some? && DecisionsFor(end.value.decisions, first.id) == [s.calls[first].reply, reply]
  {
    var t := Next(max, s, Store(other));
    InsertKeeps(s.results, other.id, s.calls[other].reply, max, first.id);
    LocksStay(max, s, Store(other));
    PlayFirst(Moves(max), s, Store(other), Dispatching(retry, reply));
    FreshRequestDecides(max, t, retry, reply);
    DecisionsAppend(s.decisions, Stored(first.id, reply), first.id);
  }

  /** Two requests for different actions, both dispatched and neither stored. */
  function BothInFlight(s: State, a: Request, b: Request, r: Reply): State {
    s.(calls := map[a := Worked(s.nextLock, r), b := Worked(s.nextLock + 1, r)],
       locks := map[a.id := s.nextLock, b.id := s.nextLock + 1], nextLock := s.nextLock + 2,
       owner := map[s.nextLock := a, s.nextLock + 1 := b],
       decisions := [Stored(a.id, r), Stored(b.id, r)])
  }

  lemma BothInFlightOk(s: State, a: Request, b: Request, r: Reply)
    requires Init(s) && a.id != b.id
    ensures Inv(BothInFlight(s, a, b, r), a.id)
  {
    FirstOfTwo(a.id, b.id, r);
  }

  lemma FirstOfTwo(a: ActionId, b: ActionId, r: Reply)
    requires a != b
    ensures DecisionsFor([Stored(a, r), Stored(b, r)], a) == [r]
  {
    var ds := [Stored(a, r), Stored(b, r)];
    assert ds[1..] == [Stored(b, r)] && ds[1..][1..] == [];
    assert DecisionsFor(ds[1..], a) == DecisionsFor([], a);
  }

  function OneInFlight(s: State, a: Request, r: Reply): State {
    s.(calls := map[a := Worked(s.nextLock, r)], locks := map[a.id := s.nextLock], nextLock := s.nextLock + 1,
       owner := map[s.nextLock := a], decisions := [Stored(a.id, r)])
  }

  lemma OneGetsInFlight(max: nat, s: State, a: Request, r: Reply)
    requires Init(s) && WellFormed(r)
    ensures Play(Moves(max), s, Dispatching(a, r)) == Some(OneInFlight(s, a, r))
  {
    FreshRequestDecides(max, s, a, r);
    assert [] + [Stored(a.id, r)] == [Stored(a.id, r)];
  }

  lemma OtherGetsInFlight(max: nat, s: State, a: Request, b: Request, r: Reply)
    requires Init(s) && a.id != b.id && WellFormed(r)
    ensures Play(Moves(max), OneInFlight(s, a, r), Dispatching(b, r)) == Some(BothInFlight(s, a, b, r))
  {
    var t := OneInFlight(s, a, r);
    FreshRequestDecides(max, t, b, r);
    assert t.calls[b := Worked(t.nextLock, r)] == map[a := Worked(s.nextLock, r), b := Worked(s.nextLock + 1, r)];
    assert t.locks[b.id := t.nextLock] == map[a.id := s.nextLock, b.id := s.nextLock + 1];
    assert t.owner[t.nextLock := b] == map[s.nextLock := a, s.nextLock + 1 := b];
    assert [Stored(a.id, r)] + [Stored(b.id, r)] == [Stored(a.id, r), Stored(b.id, r)];
  }

  /** However large the map, two actions suffice: a run from the start in which one is dispatched twice. */
  lemma TwoActionsSuffice(max: nat, s: State, a: Request, b: Request, retry: Request, r: Reply, reply: Reply)
    requires Init(s) && WellFormed(r) && WellFormed(reply) && a.id != b.id && retry.id == a.id && retry != a
    ensures var run := (Dispatching(a, r) + Dispatching(b, r)) + ([Store(b)] + Dispatching(retry, reply));
            var end := Play(Moves(max), s, run);
            end.Some? && DecisionsFor(end.value.decisions, a.id) == [r, reply]
  {
    OneGetsInFlight(max, s, a, r);
    OtherGetsInFlight(max, s, a, b, r);
    PlayOn(Moves(max), s, Dispatching(a, r), Dispatching(b, r));
    BothInFlightOk(s, a, b, r);
    PlayOn(Moves(max), s, Dispatching(a, r) + Dispatching(b, r), [Store(b)] + Dispatching(retry, reply));
    StoreInFlightDispatchesTwice(max, BothInFlight(s, a, b, r), a, b, retry, reply);
  }

  // ---------- and so is a crowd, one after the other ----------

  /** One request served from beginning to end. */
  function Serving(q: Request, reply: Reply): seq<Step> {
    Dispatching(q, reply) + ([Store(q)] + ([Leave(q)] + []))
  }

  /** The state after serving a request for an action the agent does not know. */
  function Served(max: nat, s: State, q: Request, reply: Reply): State {
    var rs := Newest(s.results + [Stored(q.id, reply)], max);
    s.(results := rs, locks := LocksKept(s.locks[q.id := s.nextLock], rs), nextLock := s.nextLock + 1,
       calls := s.calls[q := Replied(reply)], decisions := s.decisions + [Stored(q.id, reply)])
  }

  lemma StoreAndLeave(max: nat, s: State, q: Request, reply: Reply)
    requires s.nextLock !in s.owner && !Has(s.results, q.id)
    ensures Play(Moves(max), Dispatched(s, q, reply), [Store(q)] + ([Leave(q)] + [])) == Some(Served(max, s, q, reply))
  {
    var s1 := Dispatched(s, q, reply);
    var s2 := Next(max, s1, Store(q));
    PlayFirst(Moves(max), s1, Store(q), [Leave(q)] + []);
    PlayFirst(Moves(max), s2, Leave(q), []);
    var t := Next(max, s2, Leave(q));
    assert t.owner == s.owner && t.calls == s.calls[q := Replied(reply)];
  }

  lemma {:induction false} PlayKeepsLocks(max: nat, s: State, steps: seq<Step>)
    requires LocksOk(s) && Play(Moves(max), s, steps).Some?
    ensures LocksOk(Play(Moves(max), s, steps).value)
    decreases steps
  {
    if steps != [] {
      LocksStay(max, s, steps[0]);
      PlayKeepsLocks(max, Next(max, s, steps[0]), steps[1..]);
    }
  }

  lemma NewcomerIsServed(max: nat, s: State, q: Request, reply: Reply)
    requires LocksOk(s) && q !in s.calls && q.id !in s.locks && !Has(s.results, q.id) && WellFormed(reply)
    ensures Play(Moves(max), s, Serving(q, reply)) == Some(Served(max, s, q, reply))
    ensures LocksOk(Served(max, s, q, reply))
  {
    FreshRequestDecides(max, s, q, reply);
    PlayOn(Moves(max), s, Dispatching(q, reply), [Store(q)] + ([Leave(q)] + []));
    StoreAndLeave(max, s, q, reply);
    PlayKeepsLocks(max, s, Serving(q, reply));
  }

  function Repeat(n: nat): string
    ensures |Repeat(n)| == n
  {
    if n == 0 then "" else "a" + Repeat(n - 1)
  }

  /** The n-th of the other actions: its id is longer than x's and than those before it. */
  function Other(x: ActionId, n: nat): Request { Request(Repeat(|x| + 1 + n), 0) }

  function Crowd(x: ActionId, n: nat, r: Reply): seq<Step> {
    if n == 0 then [] else Crowd(x, n - 1, r) + Serving(Other(x, n - 1), r)
  }

  /** Every result stored, in order. */
  function AllStored(x: ActionId, n: nat, r: Reply): seq<Stored> {
    if n == 0 then [Stored(x, r)] else AllStored(x, n - 1, r) + [Stored(Other(x, n - 1).id, r)]
  }

  lemma {:induction false} AllStoredIds(x: ActionId, n: nat, r: Reply)
    ensures |AllStored(x, n, r)| == n + 1
    ensures forall i :: 1 <= i <= n ==> |x| < |AllStored(x, n, r)[i].id| <= |x| + n
    ensures AllStored(x, n, r)[0] == Stored(x, r)
  {
    if n > 0 { AllStoredIds(x, n - 1, r); }
  }

  /** x was served by `first`, then n others were. */
  ghost predicate Crowded(max: nat, s: State, first: Request, n: nat, r: Reply) {
    && LocksOk(s) && s.results == Newest(AllStored(first.id, n, r), max)
    && (forall id :: id in s.locks ==> Has(s.results, id))
    && (forall q :: q in s.calls ==> q == first || |first.id| < |q.id| <= |first.id| + n)
    && DecisionsFor(s.decisions, first.id) == [r]
  }

  lemma NewestAgain<T>(a: seq<T>, b: T, max: nat)
    ensures Newest(Newest(a, max) + [b], max) == Newest(a + [b], max)
  {}

  lemma HasMember(rs: seq<Stored>, id: ActionId)
    ensures Has(rs, id) ==> exists i :: 0 <= i < |rs| && rs[i].id == id
  {}

  lemma OneMoreServed(max: nat, s: State, first: Request, n: nat, r: Reply)
    requires Crowded(max, s, first, n, r) && WellFormed(r)
    ensures Play(Moves(max), s, Serving(Other(first.id, n), r)) == Some(Served(max, s, Other(first.id, n), r))
    ensures Crowded(max, Served(max, s, Other(first.id, n), r), first, n + 1, r)
  {
    var q, all := Other(first.id, n), AllStored(first.id, n, r);
    AllStoredIds(first.id, n, r);
    assert forall i :: 0 <= i < |s.results| ==> s.results[i] in all;
    HasMember(s.results, q.id);
    NewcomerIsServed(max, s, q, r);
    NewestAgain(all, Stored(q.id, r), max);
    DecisionsAppend(s.decisions, Stored(q.id, r), first.id);
  }

  lemma {:induction false} CrowdIsServed(max: nat, s: State, first: Request, n: nat, r: Reply)
    requires Crowded(max, s, first, 0, r) && WellFormed(r)
    ensures var end := Play(Moves(max), s, Crowd(first.id, n, r)); end.Some? && Crowded(max, end.value, first, n, r)
  {
    if n > 0 {
      CrowdIsServed(max, s, first, n - 1, r);
      PlayOn(Moves(max), s, Crowd(first.id, n - 1, r), Serving(Other(first.id, n - 1), r));
      OneMoreServed(max, Play(Moves(max), s, Crowd(first.id, n - 1, r)).value, first, n - 1, r);
    }
  }

  /** As many others as the map holds drive x's result out. */
  lemma CrowdEvicts(max: nat, s: State, first: Request, r: Reply)
    requires Crowded(max, s, first, max, r)
    ensures !Has(s.results, first.id) && first.id !in s.locks
  {
    AllStoredIds(first.id, max, r);
    HasMember(s.results, first.id);
    assert forall i :: 0 <= i < |s.results| ==> s.results[i] == AllStored(first.id, max, r)[i + 1];
  }

  function EvictionRun(max: nat, first: Request, retry: Request, r: Reply, reply: Reply): seq<Step> {
    Serving(first, r) + (Crowd(first.id, max, r) + Dispatching(retry, reply))
  }

  /** However large the map, that many actions served after x, each on its own, let a late retry dispatch x again. */
  lemma EvictionSuffices(max: nat, s: State, first: Request, retry: Request, r: Reply, reply: Reply)
    requires Init(s) && WellFormed(r) && WellFormed(reply) && retry.id == first.id && retry != first
    ensures var end := Play(Moves(max), s, EvictionRun(max, first, retry, r, reply));
            end.Some? && DecisionsFor(end.value.decisions, first.id) == [r, reply]
  {
    var s1 := Served(max, s, first, r);
    NewcomerIsServed(max, s, first, r);
    assert Crowded(max, s1, first, 0, r) by {
      assert s.results + [Stored(first.id, r)] == AllStored(first.id, 0, r);
      DecisionsAppend(s.decisions, Stored(first.id, r), first.id);
    }
    CrowdIsServed(max, s1, first, max, r);
    var s2 := Play(Moves(max), s1, Crowd(first.id, max, r)).value;
    CrowdEvicts(max, s2, first, r);
    FreshRequestDecides(max, s2, retry, reply);
    DecisionsAppend(s2.decisions, Stored(first.id, reply), first.id);
    PlayOn(Moves(max), s1, Crowd(first.id, max, r), Dispatching(retry, reply));
    PlayOn(Moves(max), s, Serving(first, r), Crowd(first.id, max, r) + Dispatching(retry, reply));
  }
}
