/**
 Exactly what breaks at-most-once: the steps after which x's own requests, going on by themselves, can decide x
 twice; and two runs from the start in which they do.
 */
module AgentLimits {
  import opened Common
  import opened Playing
  import opened Wire
  import opened Agent
  import opened AgentOnce

  // ---------- playing steps ----------

  ghost function Moves(max: nat): (State, Step) -> Option<State> {
    (s: State, step: Step) => if Enabled(s, step) then Some(Next(max, s, step)) else None
  }

  ghost predicate OwnSteps(steps: seq<Step>, x: ActionId) { forall step :: step in steps ==> step.q.id == x }

  /** These steps of x's own requests end with x decided twice. */
  ghost predicate Doubles(max: nat, s: State, own: seq<Step>, x: ActionId) {
    && OwnSteps(own, x) && Play(Moves(max), s, own).Some?
    && |DecisionsFor(Play(Moves(max), s, own).value.decisions, x)| >= 2
  }

  /** x's requests can bring about a second decision without anybody else's help. */
  ghost predicate CanDouble(max: nat, s: State, x: ActionId) {
    exists own :: Doubles(max, s, own, x)
  }

  /** One own step towards a double decision. */
  lemma DoublesLater(max: nat, s: State, step: Step, x: ActionId)
    requires Enabled(s, step) && step.q.id == x && CanDouble(max, Next(max, s, step), x)
    ensures CanDouble(max, s, x)
  {
    var own :| Doubles(max, Next(max, s, step), own, x);
    PlayFirst(Moves(max), s, step, own);
    assert Doubles(max, s, [step] + own, x);
  }

  // ---------- lock objects belong to one action ----------

  function LockOf(pc: Pc): Option<Lock> { if pc.Waiting? then Some(pc.lock) else HeldLock(pc) }

  /** No lock object serves two actions. */
  ghost predicate LockNames(s: State) {
    && (forall p, q ::
          p in s.calls && q in s.calls && LockOf(s.calls[p]).Some? && LockOf(s.calls[p]) == LockOf(s.calls[q]) ==>
            p.id == q.id)
    && (forall id, q :: id in s.locks && q in s.calls && LockOf(s.calls[q]) == Some(s.locks[id]) ==> q.id == id)
    && (forall a, b :: a in s.locks && b in s.locks && s.locks[a] == s.locks[b] ==> a == b)
  }

  lemma FetchNames(max: nat, s: State, q: Request)
    requires LocksOk(s) && LockNames(s) && Enabled(s, Fetch(q))
    ensures LockNames(Next(max, s, Fetch(q)))
  {}

  lemma NamesStay(max: nat, s: State, step: Step)
    requires LocksOk(s) && LockNames(s) && Enabled(s, step)
    ensures LockNames(Next(max, s, step))
  {
    if step.Fetch? {
      FetchNames(max, s, step.q);
    } else {
      var t := Next(max, s, step);
      assert forall p :: p in t.calls && LockOf(t.calls[p]).Some? ==>
               p in s.calls && LockOf(s.calls[p]) == LockOf(t.calls[p]);
      assert forall id :: id in t.locks ==> id in s.locks && t.locks[id] == s.locks[id];
    }
  }

  // ---------- a fresh retry ----------

  function Attempts(x: ActionId, n: nat): set<Request> { set k | 0 <= k < n :: Request(x, k) }

  lemma {:induction false} AttemptsCount(x: ActionId, n: nat)
    ensures |Attempts(x, n)| == n
  {
    if n > 0 {
      AttemptsCount(x, n - 1);
      assert Attempts(x, n) == Attempts(x, n - 1) + {Request(x, n - 1)};
    }
  }

  lemma {:induction false} SubsetCount<T>(a: set<T>, b: set<T>)
    requires a <= b
    ensures |a| <= |b|
  {
    if a != {} {
      var e :| e in a;
      SubsetCount(a - {e}, b - {e});
    }
  }

  /** There is always another retry. */
  lemma FreshRequest(s: State, x: ActionId) returns (q: Request)
    ensures q.id == x && q !in s.calls
  {
    var n := |s.calls.Keys| + 1;
    AttemptsCount(x, n);
    if Attempts(x, n) <= s.calls.Keys {
      SubsetCount(Attempts(x, n), s.calls.Keys);
      assert false;
    }
    q :| q in Attempts(x, n) && q !in s.calls.Keys;
  }

  /** One request going through, up to the point where its result would be stored. */
  function Dispatching(q: Request, reply: Reply): seq<Step> {
    [Arrive(q)] + ([Fetch(q)] + ([Acquire(q)] + ([Check(q)] + ([Execute(q, reply)] + []))))
  }

  /** The state in which a new request has a new lock. */
  function WithNewLock(s: State, q: Request): State {
    s.(calls := s.calls[q := Entered(s.nextLock)], locks := s.locks[q.id := s.nextLock],
       nextLock := s.nextLock + 1, owner := s.owner[s.nextLock := q])
  }

  lemma FreshRequestEnters(max: nat, s: State, q: Request, rest: seq<Step>)
    requires LocksOk(s) && q !in s.calls && q.id !in s.locks
    ensures Play(Moves(max), s, [Arrive(q)] + ([Fetch(q)] + ([Acquire(q)] + rest)))
         == Play(Moves(max), WithNewLock(s, q), rest)
  {
    var s1 := Next(max, s, Arrive(q));
    var s2 := Next(max, s1, Fetch(q));
    var s3 := Next(max, s2, Acquire(q));
    PlayFirst(Moves(max), s2, Acquire(q), rest);
    PlayFirst(Moves(max), s1, Fetch(q), [Acquire(q)] + rest);
    PlayFirst(Moves(max), s, Arrive(q), [Fetch(q)] + ([Acquire(q)] + rest));
    assert s3 == WithNewLock(s, q);
  }

  /** The state between the dispatch and the store. */
  function Dispatched(s: State, q: Request, reply: Reply): State {
    s.(calls := s.calls[q := Worked(s.nextLock, reply)], locks := s.locks[q.id := s.nextLock],
       nextLock := s.nextLock + 1, owner := s.owner[s.nextLock := q], decisions := s.decisions + [Stored(q.id, reply)])
  }

  lemma EnteredDecides(max: nat, s: State, q: Request, reply: Reply)
    requires !Has(s.results, q.id) && WellFormed(reply)
    ensures Play(Moves(max), WithNewLock(s, q), [Check(q)] + ([Execute(q, reply)] + []))
         == Some(Dispatched(s, q, reply))
  {
    var s3 := WithNewLock(s, q);
    var s4 := Next(max, s3, Check(q));
    PlayFirst(Moves(max), s4, Execute(q, reply), []);
    PlayFirst(Moves(max), s3, Check(q), [Execute(q, reply)] + []);
    assert Next(max, s4, Execute(q, reply)) == Dispatched(s, q, reply);
  }

  /** A new request that finds neither a lock nor a result for its action decides it, again if need be. */
  lemma FreshRequestDecides(max: nat, s: State, q: Request, reply: Reply)
    requires LocksOk(s) && q !in s.calls && q.id !in s.locks && !Has(s.results, q.id) && WellFormed(reply)
    ensures Play(Moves(max), s, Dispatching(q, reply)) == Some(Dispatched(s, q, reply))
  {
    FreshRequestEnters(max, s, q, [Check(q)] + ([Execute(q, reply)] + []));
    EnteredDecides(max, s, q, reply);
  }

  // ---------- forgetting x is enough ----------

  /** The agent has neither a result nor a lock for x. */
  ghost predicate Forgotten(s: State, x: ActionId) { LocksOk(s) && x !in s.locks && !Has(s.results, x) }

  /** Decided and forgotten: a retry decides again. */
  lemma DecidedDoubles(max: nat, s: State, x: ActionId)
    requires Forgotten(s, x) && DecisionsFor(s.decisions, x) != []
    ensures CanDouble(max, s, x)
  {
    var q := FreshRequest(s, x);
    var own := Dispatching(q, Undecided);
    var end := Play(Moves(max), s, own);
    assert end.Some? && end.value.decisions == s.decisions + [Stored(x, Undecided)] by {
      FreshRequestDecides(max, s, q, Undecided);
    }
    DecisionsAppend(s.decisions, Stored(x, Undecided), x);
    DispatchingIsOwn(q, Undecided);
    assert Doubles(max, s, own, x);
  }

  lemma DispatchingIsOwn(q: Request, reply: Reply)
    ensures OwnSteps(Dispatching(q, reply), q.id)
  {
    assert Dispatching(q, reply) == [Arrive(q), Fetch(q), Acquire(q), Check(q), Execute(q, reply)];
  }

  lemma ExecuteDoubles(max: nat, s: State, q: Request, x: ActionId)
    requires Forgotten(s, x) && Enabled(s, Execute(q, Undecided)) && q.id == x
    ensures CanDouble(max, s, x)
  {
    var t := Next(max, s, Execute(q, Undecided));
    LocksStay(max, s, Execute(q, Undecided));
    DecisionsAppend(s.decisions, Stored(x, Undecided), x);
    DecidedDoubles(max, t, x);
    DoublesLater(max, s, Execute(q, Undecided), x);
  }

  lemma CheckDoubles(max: nat, s: State, q: Request, x: ActionId)
    requires Forgotten(s, x) && Enabled(s, Check(q)) && q.id == x
    ensures CanDouble(max, s, x)
  {
    LocksStay(max, s, Check(q));
    ExecuteDoubles(max, Next(max, s, Check(q)), q, x);
    DoublesLater(max, s, Check(q), x);
  }

  lemma AcquireDoubles(max: nat, s: State, q: Request, x: ActionId)
    requires Forgotten(s, x) && Enabled(s, Acquire(q)) && q.id == x
    ensures CanDouble(max, s, x)
  {
    LocksStay(max, s, Acquire(q));
    CheckDoubles(max, Next(max, s, Acquire(q)), q, x);
    DoublesLater(max, s, Acquire(q), x);
  }

  /** Forgotten while undecided and in flight: the request at work decides, and a retry decides again. */
  lemma InFlightDoubles(max: nat, s: State, x: ActionId)
    requires Forgotten(s, x) && LockNames(s) && InFlight(s, x)
    requires forall q :: q in s.calls && q.id == x ==> !s.calls[q].Worked? && !s.calls[q].Leaving?
    ensures CanDouble(max, s, x)
  {
    if w :| w in s.calls && w.id == x && s.calls[w].Working? {
      ExecuteDoubles(max, s, w, x);
    } else if e :| e in s.calls && e.id == x && s.calls[e].Entered? {
      CheckDoubles(max, s, e, x);
    } else {
      var q :| q in s.calls && q.id == x && Engaged(s.calls[q]);
      assert s.calls[q].lock !in s.owner;
      AcquireDoubles(max, s, q, x);
    }
  }

  /** A store after which x's result is missing has dropped x's lock as well. */
  lemma StoreDropsLock(max: nat, s: State, q: Request, x: ActionId)
    requires LocksOk(s) && Enabled(s, Store(q)) && !Has(Next(max, s, Store(q)).results, x)
    ensures Forgotten(Next(max, s, Store(q)), x)
  {
    LocksStay(max, s, Store(q));
  }

  /** While x is undecided another action's store leaves x's requests where they are. */
  lemma StoreLeavesUndecided(max: nat, s: State, q: Request, x: ActionId)
    requires OnceOk(s, x) && Enabled(s, Store(q)) && InFlight(s, x) && DecisionsFor(s.decisions, x) == []
    ensures InFlight(Next(max, s, Store(q)), x)
    ensures var t := Next(max, s, Store(q));
            forall p :: p in t.calls && p.id == x ==> !t.calls[p].Worked? && !t.calls[p].Leaving?
  {
    var p :| p in s.calls && p.id == x && Engaged(s.calls[p]);
    assert q.id != x && Engaged(Next(max, s, Store(q)).calls[p]);
  }

  lemma StoreForgets(max: nat, s: State, q: Request, x: ActionId)
    requires Inv(s, x) && LockNames(s) && Enabled(s, Store(q)) && !Has(Next(max, s, Store(q)).results, x)
    requires DecisionsFor(s.decisions, x) != [] || InFlight(s, x)
    ensures CanDouble(max, Next(max, s, Store(q)), x)
  {
    StoreDropsLock(max, s, q, x);
    if DecisionsFor(s.decisions, x) != [] {
      DecidedDoubles(max, Next(max, s, Store(q)), x);
    } else {
      NamesStay(max, s, Store(q));
      StoreLeavesUndecided(max, s, q, x);
      InFlightDoubles(max, Next(max, s, Store(q)), x);
    }
  }

  // ---------- exactly the harmful steps ----------

  /** From a state that remembers x, x's requests cannot decide it twice by themselves. */
  lemma {:induction false} RememberedIsSafe(max: nat, s: State, own: seq<Step>, x: ActionId)
    requires Inv(s, x) && Kept(s, x) && max > 0 && OwnSteps(own, x)
    ensures !Doubles(max, s, own, x)
    decreases own
  {
    if own != [] && Enabled(s, own[0]) {
      assert own[0] in own;
      HarmlessKeeps(max, s, own[0], x);
      RememberedIsSafe(max, Next(max, s, own[0]), own[1..], x);
    }
  }

  lemma HarmfulForgets(max: nat, s: State, step: Step, x: ActionId)
    requires Inv(s, x) && Kept(s, x) && Enabled(s, step) && Harmful(max, s, step, x)
    ensures !Has(Next(max, s, step).results, x)
    ensures DecisionsFor(s.decisions, x) != [] || InFlight(s, x)
  {
    var q := step.q;
    if Has(s.results, x) {
      InsertAges(s.results, q.id, s.calls[q].reply, max, x);
    } else {
      InsertKeeps(s.results, q.id, s.calls[q].reply, max, x);
    }
  }

  /**
   Step by step: from a state that remembers x, what is harmful is exactly what lets x's own requests, going on by
   themselves, decide x twice.
   */
  lemma HarmfulIff(max: nat, s: State, step: Step, x: ActionId)
    requires Inv(s, x) && LockNames(s) && Kept(s, x) && Enabled(s, step) && max > 0
    ensures CanDouble(max, Next(max, s, step), x) <==> Harmful(max, s, step, x)
  {
    var t := Next(max, s, step);
    if Harmful(max, s, step, x) {
      HarmfulForgets(max, s, step, x);
      StoreForgets(max, s, step.q, x);
    } else {
      HarmlessKeeps(max, s, step, x);
      forall own | OwnSteps(own, x) ensures !Doubles(max, t, own, x) {
        RememberedIsSafe(max, t, own, x);
      }
    }
  }

  ghost predicate HarmedBefore(max: nat, ss: seq<State>, steps: seq<Step>, x: ActionId, n: nat)
    requires IsRun(max, ss, steps) && n <= |steps|
  {
    exists k :: 0 <= k < n && Harmful(max, ss[k], steps[k], x)
  }

  lemma {:induction false} HarmlessRun(max: nat, ss: seq<State>, steps: seq<Step>, x: ActionId, n: nat)
    requires IsRun(max, ss, steps) && n <= |steps| && max > 0 && !HarmedBefore(max, ss, steps, x, n)
    ensures Inv(ss[n], x) && LockNames(ss[n]) && Kept(ss[n], x)
  {
    if n > 0 {
      assert !Harmful(max, ss[n - 1], steps[n - 1], x);
      HarmlessRun(max, ss, steps, x, n - 1);
      HarmlessKeeps(max, ss[n - 1], steps[n - 1], x);
      NamesStay(max, ss[n - 1], steps[n - 1]);
    }
  }

  lemma {:induction false} FirstHarm(max: nat, ss: seq<State>, steps: seq<Step>, x: ActionId, n: nat) returns (k: nat)
    requires IsRun(max, ss, steps) && n <= |steps| && HarmedBefore(max, ss, steps, x, n)
    ensures k < n && Harmful(max, ss[k], steps[k], x) && !HarmedBefore(max, ss, steps, x, k)
  {
    if HarmedBefore(max, ss, steps, x, n - 1) {
      k := FirstHarm(max, ss, steps, x, n - 1);
    } else {
      k := n - 1;
    }
  }

  /**
   Over runs: x's requests could, from some point of the run, decide x twice by themselves iff the run contains a
   step that is harmful to x. In particular a run without one decides x at most once.
   */
  lemma AtMostOnceIff(max: nat, ss: seq<State>, steps: seq<Step>, x: ActionId)
    requires IsRun(max, ss, steps) && max > 0
    ensures (exists k :: 0 <= k < |ss| && CanDouble(max, ss[k], x)) <==> HarmedBefore(max, ss, steps, x, |steps|)
  {
    if HarmedBefore(max, ss, steps, x, |steps|) {
      var k := FirstHarm(max, ss, steps, x, |steps|);
      HarmlessRun(max, ss, steps, x, k);
      HarmfulIff(max, ss[k], steps[k], x);
      assert CanDouble(max, ss[k + 1], x);
    } else {
      forall k | 0 <= k < |ss| ensures !CanDouble(max, ss[k], x) {
        assert !HarmedBefore(max, ss, steps, x, k);
        HarmlessRun(max, ss, steps, x, k);
        forall own | OwnSteps(own, x) ensures !Doubles(max, ss[k], own, x) {
          RememberedIsSafe(max, ss[k], own, x);
        }
      }
    }
  }

  /**
   `Calm`, the hypothesis of the guarantee, is no stronger than it must be: after any step that is not calm, x's
   own requests can decide x twice by themselves.
   */
  lemma UncalmDoubles(max: nat, s: State, step: Step, x: ActionId)
    requires Inv(s, x) && LockNames(s) && Enabled(s, step) && !Calm(max, s, step, x)
    ensures CanDouble(max, Next(max, s, step), x)
  {
    if step.Store? {
      var p :| p in Next(max, s, step).calls && p.id == x && Engaged(Next(max, s, step).calls[p]);
      assert p in s.calls && (p != step.q ==> Engaged(s.calls[p]));
      assert InFlight(s, x) by { assert p == step.q || Engaged(s.calls[p]); }
      StoreForgets(max, s, step.q, x);
    } else {
      LateFetchDoubles(max, s, step.q);
    }
  }

  /** A request that fetches a lock after x has been decided and evicted decides x again. */
  lemma LateFetchDoubles(max: nat, s: State, q: Request)
    requires Inv(s, q.id) && LockNames(s) && Enabled(s, Fetch(q))
    requires DecisionsFor(s.decisions, q.id) != [] && !Has(s.results, q.id) && !InFlight(s, q.id)
    ensures CanDouble(max, Next(max, s, Fetch(q)), q.id)
  {
    var t := Next(max, s, Fetch(q));
    LocksStay(max, s, Fetch(q));
    NamesStay(max, s, Fetch(q));
    var l := t.calls[q].lock;
    if l in t.owner {
      var w := t.owner[l];
      assert w.id == q.id && w != q && s.calls[w] == t.calls[w];
      assert t.calls[w].Leaving?;
      var u := Next(max, t, Leave(w));
      WaitingDoubles(max, u, q);
      DoublesLater(max, t, Leave(w), q.id);
    } else {
      WaitingDoubles(max, t, q);
    }
  }

  lemma WaitingDoubles(max: nat, s: State, q: Request)
    requires DecisionsFor(s.decisions, q.id) != [] && !Has(s.results, q.id) && Enabled(s, Acquire(q))
    ensures CanDouble(max, s, q.id)
  {
    var s1 := Next(max, s, Acquire(q));
    var s2 := Next(max, s1, Check(q));
    var s3 := Next(max, s2, Execute(q, Undecided));
    DecisionsAppend(s.decisions, Stored(q.id, Undecided), q.id);
    assert Doubles(max, s3, [], q.id);
    DoublesLater(max, s2, Execute(q, Undecided), q.id);
    DoublesLater(max, s1, Check(q), q.id);
    DoublesLater(max, s, Acquire(q), q.id);
  }
}
