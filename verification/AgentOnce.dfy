/** At most one decision, hence at most one dispatch, per action, and the hypothesis it needs. */
module AgentOnce {
  import opened Common
  import opened Wire
  import opened Agent

  /** The lock object that a request holds, if it holds one. */
  function HeldLock(pc: Pc): Option<Lock> {
    if pc.Entered? || pc.Working? || pc.Worked? || pc.Leaving? then Some(pc.lock) else None
  }

  /** The lock objects exclude: each is held by one request at most, and unborn ones by none. */
  ghost predicate LocksOk(s: State) {
    && (forall l :: l in s.owner ==>
          s.owner[l] in s.calls && HeldLock(s.calls[s.owner[l]]) == Some(l) && l < s.nextLock)
    && (forall q :: q in s.calls && HeldLock(s.calls[q]).Some? ==>
          HeldLock(s.calls[q]).value in s.owner && s.owner[HeldLock(s.calls[q]).value] == q)
    && (forall q :: q in s.calls && s.calls[q].Waiting? ==> s.calls[q].lock < s.nextLock)
    && (forall id :: id in s.locks ==> s.locks[id] < s.nextLock)
  }

  /** While x is in flight, a decision that is not in the map is about to be stored. */
  ghost predicate Witnessed(s: State, x: ActionId) {
    DecisionsFor(s.decisions, x) != [] && !Has(s.results, x) && InFlight(s, x) ==>
      exists q :: q in s.calls && q.id == x && s.calls[q].Worked?
  }

  /** All bookkeeping about action x agrees with the one decision made for it, if any. */
  ghost predicate OnceOk(s: State, x: ActionId) {
    var ds := DecisionsFor(s.decisions, x);
    && |ds| <= 1
    && (forall q :: q in s.calls && q.id == x && (s.calls[q].Worked? || s.calls[q].Leaving? || s.calls[q].Replied?) ==>
          ds == [s.calls[q].reply])
    && (Has(s.results, x) ==> ds == [s.results[Position(s.results, x)].reply])
    && (forall q :: q in s.calls && q.id == x && s.calls[q].Working? ==> ds == [])
    && (forall q :: q in s.calls && q.id == x && s.calls[q].Worked? ==> !Has(s.results, x))
    && (forall q :: q in s.calls && q.id == x && Engaged(s.calls[q]) ==> x in s.locks && s.calls[q].lock == s.locks[x])
    && Witnessed(s, x)
  }

  /**
   What the guarantee needs of a step: a store's cleanup does not drop the lock of x while a request still works
   with it, and no request for x fetches a lock after x's result has been evicted.
   */
  ghost predicate Calm(max: nat, s: State, step: Step, x: ActionId)
    requires Enabled(s, step)
  {
    && (step.Store? && InFlight(Next(max, s, step), x) ==> Has(Next(max, s, step).results, x))
    && (step.Fetch? && step.q.id == x && DecisionsFor(s.decisions, x) != [] && !Has(s.results, x) ==> InFlight(s, x))
  }

  // ---------- small facts ----------

  lemma {:induction false} DecisionsAppend(ds: seq<Stored>, d: Stored, x: ActionId)
    ensures DecisionsFor(ds + [d], x) == DecisionsFor(ds, x) + if d.id == x then [d.reply] else []
  {
    if ds == [] {
      assert ds + [d] == [d] && [d][1..] == [];
    } else {
      assert (ds + [d])[1..] == ds[1..] + [d];
      DecisionsAppend(ds[1..], d, x);
    }
  }

  lemma {:induction false} PositionAppend(rs: seq<Stored>, r: Stored, x: ActionId)
    ensures Position(rs + [r], x) == if Has(rs, x) then Position(rs, x) else if r.id == x then |rs| else -1
  {
    if rs == [] {
      assert rs + [r] == [r] && [r][1..] == [];
    } else {
      assert (rs + [r])[1..] == rs[1..] + [r];
      PositionAppend(rs[1..], r, x);
    }
  }

  lemma {:induction false} PositionUpdate(rs: seq<Stored>, k: nat, r: Stored, x: ActionId)
    requires k < |rs| && rs[k].id == r.id
    ensures Position(rs[k := r], x) == Position(rs, x)
  {
    if k == 0 {
      assert rs[k := r][1..] == rs[1..];
    } else {
      assert rs[k := r][1..] == rs[1..][k - 1 := r];
      PositionUpdate(rs[1..], k - 1, r, x);
    }
  }

  ghost predicate UniqueKeys(rs: seq<Stored>) {
    forall i, j :: 0 <= i < j < |rs| ==> rs[i].id != rs[j].id
  }

  lemma HeadOnly(rs: seq<Stored>)
    requires rs != [] && UniqueKeys(rs)
    ensures !Has(rs[1..], rs[0].id)
  {
    var k := Position(rs[1..], rs[0].id);
    assert k >= 0 ==> rs[1..][k] == rs[k + 1];
  }

  lemma {:induction false} PositionDrop(rs: seq<Stored>, d: nat, x: ActionId)
    requires d <= |rs| && UniqueKeys(rs)
    ensures Position(rs[d..], x) == if Position(rs, x) >= d then Position(rs, x) - d else -1
  {
    if d == 0 {
      assert rs[0..] == rs;
    } else {
      PositionDrop(rs[1..], d - 1, x);
      assert rs[d..] == rs[1..][d - 1..];
      HeadOnly(rs);
    }
  }

  /** The map after the assignment, before the trim. */
  function Assigned(rs: seq<Stored>, id: ActionId, reply: Reply): seq<Stored> {
    var k := Position(rs, id);
    if k >= 0 then rs[k := Stored(id, reply)] else rs + [Stored(id, reply)]
  }

  lemma AssignedKeeps(rs: seq<Stored>, id: ActionId, reply: Reply, x: ActionId)
    requires UniqueKeys(rs)
    ensures UniqueKeys(Assigned(rs, id, reply))
    ensures Position(Assigned(rs, id, reply), x) ==
            if Has(rs, x) then Position(rs, x) else if x == id then |rs| else -1
  {
    var r, k := Stored(id, reply), Position(rs, id);
    if k >= 0 {
      PositionUpdate(rs, k, r, x);
    } else {
      PositionAppend(rs, r, x);
      assert forall i :: 0 <= i < |rs| ==> rs[i] in rs;
    }
  }

  lemma AssignedEntry(rs: seq<Stored>, id: ActionId, reply: Reply, x: ActionId)
    requires UniqueKeys(rs)
    ensures var full := Assigned(rs, id, reply);
            Has(full, x) ==>
              if x == id then full[Position(full, x)].reply == reply
              else Has(rs, x) && full[Position(full, x)] == rs[Position(rs, x)]
  {
    AssignedKeeps(rs, id, reply, x);
  }

  lemma DropKeeps(rs: seq<Stored>, d: nat, x: ActionId)
    requires d <= |rs| && UniqueKeys(rs)
    ensures UniqueKeys(rs[d..])
    ensures Has(rs[d..], x) ==> Has(rs, x) && rs[d..][Position(rs[d..], x)] == rs[Position(rs, x)]
  {
    PositionDrop(rs, d, x);
    forall i, j | 0 <= i < j < |rs[d..]| ensures rs[d..][i].id != rs[d..][j].id {
      assert rs[d + i].id != rs[d + j].id;
    }
  }

  /** Storing one action keeps keys unique and changes no other action's entry except by evicting it. */
  lemma {:induction false} InsertKeeps(rs: seq<Stored>, id: ActionId, reply: Reply, max: nat, x: ActionId)
    requires UniqueKeys(rs)
    ensures UniqueKeys(Insert(rs, id, reply, max))
    ensures var after := Insert(rs, id, reply, max);
            Has(after, x) ==>
              if x == id then after[Position(after, x)].reply == reply
              else Has(rs, x) && after[Position(after, x)].reply == rs[Position(rs, x)].reply
  {
    var full := Assigned(rs, id, reply);
    assert UniqueKeys(full) by { AssignedKeeps(rs, id, reply, x); }
    AssignedEntry(rs, id, reply, x);
    var d := if |full| <= max then 0 else |full| - max;
    assert Insert(rs, id, reply, max) == full[d..];
    DropKeeps(full, d, x);
  }

  ghost predicate Inv(s: State, x: ActionId) {
    LocksOk(s) && UniqueKeys(s.results) && OnceOk(s, x)
  }

  // ---------- the locks exclude ----------

  lemma FetchKeepsLocks(max: nat, s: State, q: Request)
    requires LocksOk(s) && Enabled(s, Fetch(q))
    ensures LocksOk(Next(max, s, Fetch(q)))
  {}

  lemma AcquireKeepsLocks(max: nat, s: State, q: Request)
    requires LocksOk(s) && Enabled(s, Acquire(q))
    ensures LocksOk(Next(max, s, Acquire(q)))
  {}

  lemma LeaveKeepsLocks(max: nat, s: State, q: Request)
    requires LocksOk(s) && Enabled(s, Leave(q))
    ensures LocksOk(Next(max, s, Leave(q)))
  {}

  lemma LocksStay(max: nat, s: State, step: Step)
    requires LocksOk(s) && Enabled(s, step)
    ensures LocksOk(Next(max, s, step))
  {
    match step {
      case Fetch(q) => FetchKeepsLocks(max, s, q);
      case Acquire(q) => AcquireKeepsLocks(max, s, q);
      case Leave(q) => LeaveKeepsLocks(max, s, q);
      case _ =>
    }
  }

  /** Two requests of x inside the lock are the same request. */
  lemma OneInside(s: State, x: ActionId, p: Request, q: Request)
    requires LocksOk(s) && OnceOk(s, x) && p in s.calls && q in s.calls && p.id == x && q.id == x
    requires Engaged(s.calls[p]) && HeldLock(s.calls[p]).Some? && Engaged(s.calls[q]) && HeldLock(s.calls[q]).Some?
    ensures p == q
  {}

  // ---------- every calm step keeps the invariant ----------

  lemma StillWitnessed(s: State, t: State, x: ActionId)
    requires Witnessed(s, x) && t.results == s.results && t.decisions == s.decisions
    requires DecisionsFor(t.decisions, x) != [] && !Has(t.results, x) && InFlight(t, x) ==> InFlight(s, x)
    requires forall q :: q in s.calls && q.id == x && s.calls[q].Worked? ==> q in t.calls && t.calls[q].Worked?
    ensures Witnessed(t, x)
  {
    if DecisionsFor(t.decisions, x) != [] && !Has(t.results, x) && InFlight(t, x) {
      var w :| w in s.calls && w.id == x && s.calls[w].Worked?;
      assert t.calls[w].Worked?;
    }
  }

  lemma StillInFlight(s: State, t: State, x: ActionId)
    requires InFlight(t, x)
    requires forall q :: q in t.calls && q.id == x && Engaged(t.calls[q]) ==> q in s.calls && Engaged(s.calls[q])
    ensures InFlight(s, x)
  {
    var p :| p in t.calls && p.id == x && Engaged(t.calls[p]);
    assert Engaged(s.calls[p]);
  }

  /** A request for another action disturbs x only through the tables. */
  lemma OtherRequestKeeps(s: State, t: State, q: Request, x: ActionId)
    requires OnceOk(s, x) && q.id != x
    requires t.calls.Keys == s.calls.Keys + {q} && forall p :: p in s.calls && p != q ==> t.calls[p] == s.calls[p]
    requires t.results == s.results && t.decisions == s.decisions
    requires forall id :: id in s.locks ==> id in t.locks && t.locks[id] == s.locks[id]
    ensures OnceOk(t, x)
  {
    assert forall p :: p in t.calls && p.id == x ==> p in s.calls && t.calls[p] == s.calls[p];
    if InFlight(t, x) { StillInFlight(s, t, x); }
    StillWitnessed(s, t, x);
  }

  lemma OwnFetchKeeps(max: nat, s: State, q: Request)
    requires OnceOk(s, q.id) && Enabled(s, Fetch(q)) && Calm(max, s, Fetch(q), q.id)
    ensures OnceOk(Next(max, s, Fetch(q)), q.id)
  {
    var t := Next(max, s, Fetch(q));
    assert t.results == s.results && t.decisions == s.decisions;
    assert Witnessed(t, q.id) by { StillWitnessed(s, t, q.id); }
  }

  lemma FetchKeeps(max: nat, s: State, q: Request, x: ActionId)
    requires OnceOk(s, x) && Enabled(s, Fetch(q)) && Calm(max, s, Fetch(q), x)
    ensures OnceOk(Next(max, s, Fetch(q)), x)
  {
    if q.id == x {
      OwnFetchKeeps(max, s, q);
    } else {
      OtherRequestKeeps(s, Next(max, s, Fetch(q)), q, x);
    }
  }

  lemma CheckKeeps(max: nat, s: State, q: Request, x: ActionId)
    requires Inv(s, x) && Enabled(s, Check(q))
    ensures OnceOk(Next(max, s, Check(q)), x)
  {
    var t := Next(max, s, Check(q));
    if q.id == x && !Has(s.results, x) && DecisionsFor(s.decisions, x) != [] {
      assert InFlight(s, x) by { assert Engaged(s.calls[q]); }
      var w :| w in s.calls && w.id == x && s.calls[w].Worked?;
      OneInside(s, x, w, q);
      assert false;
    }
    if InFlight(t, x) { StillInFlight(s, t, x); }
    StillWitnessed(s, t, x);
  }

  lemma AcquireKeeps(max: nat, s: State, q: Request, x: ActionId)
    requires Inv(s, x) && Enabled(s, Acquire(q))
    ensures OnceOk(Next(max, s, Acquire(q)), x)
  {
    var t := Next(max, s, Acquire(q));
    if InFlight(t, x) { StillInFlight(s, t, x); }
    StillWitnessed(s, t, x);
  }

  lemma WorkerIsAlone(s: State, p: Request, q: Request)
    requires LocksOk(s) && OnceOk(s, q.id) && p in s.calls && q in s.calls && p.id == q.id && p != q
    requires s.calls[q].Working?
    ensures !s.calls[p].Working?
  {
    if s.calls[p].Working? { OneInside(s, q.id, p, q); }
  }

  lemma OwnExecuteKeeps(max: nat, s: State, q: Request, reply: Reply)
    requires LocksOk(s) && OnceOk(s, q.id) && Enabled(s, Execute(q, reply))
    ensures OnceOk(Next(max, s, Execute(q, reply)), q.id)
  {
    var t := Next(max, s, Execute(q, reply));
    assert DecisionsFor(t.decisions, q.id) == [reply] by { DecisionsAppend(s.decisions, Stored(q.id, reply), q.id); }
    forall p | p in s.calls && p.id == q.id && p != q ensures !t.calls[p].Working? {
      WorkerIsAlone(s, p, q);
    }
    assert t.calls[q].Worked?;
  }

  lemma OtherExecuteKeeps(max: nat, s: State, q: Request, reply: Reply, x: ActionId)
    requires OnceOk(s, x) && Enabled(s, Execute(q, reply)) && q.id != x
    ensures OnceOk(Next(max, s, Execute(q, reply)), x)
  {
    var t := Next(max, s, Execute(q, reply));
    DecisionsAppend(s.decisions, Stored(q.id, reply), x);
    OtherRequestKeeps(s, t.(decisions := s.decisions), q, x);
    if InFlight(t, x) { StillInFlight(s, t, x); }
  }

  lemma ExecuteKeeps(max: nat, s: State, q: Request, reply: Reply, x: ActionId)
    requires Inv(s, x) && Enabled(s, Execute(q, reply))
    ensures OnceOk(Next(max, s, Execute(q, reply)), x)
  {
    if q.id == x {
      OwnExecuteKeeps(max, s, q, reply);
    } else {
      OtherExecuteKeeps(max, s, q, reply, x);
    }
  }

  lemma StoreKeeps(max: nat, s: State, q: Request, x: ActionId)
    requires Inv(s, x) && Enabled(s, Store(q)) && Calm(max, s, Store(q), x)
    ensures OnceOk(Next(max, s, Store(q)), x) && UniqueKeys(Next(max, s, Store(q)).results)
  {
    var t := Next(max, s, Store(q));
    InsertKeeps(s.results, q.id, s.calls[q].reply, max, x);
    forall p | p in t.calls && p.id == x && Engaged(t.calls[p])
      ensures x in t.locks && t.calls[p].lock == t.locks[x] && !t.calls[p].Worked?
    {
      assert InFlight(t, x);
      if q.id == x && s.calls[p].Worked? && s.calls[q].Worked? && p in s.calls {
        OneInside(s, x, p, q);
      }
    }
  }

  lemma ArriveKeeps(max: nat, s: State, q: Request, x: ActionId)
    requires Inv(s, x) && Enabled(s, Arrive(q))
    ensures OnceOk(Next(max, s, Arrive(q)), x)
  {
    var t := Next(max, s, Arrive(q));
    if InFlight(t, x) { StillInFlight(s, t, x); }
    StillWitnessed(s, t, x);
  }

  lemma LeaveKeeps(max: nat, s: State, q: Request, x: ActionId)
    requires Inv(s, x) && Enabled(s, Leave(q))
    ensures OnceOk(Next(max, s, Leave(q)), x)
  {
    var t := Next(max, s, Leave(q));
    if InFlight(t, x) { StillInFlight(s, t, x); }
    StillWitnessed(s, t, x);
  }

  lemma StepKeeps(max: nat, s: State, step: Step, x: ActionId)
    requires Inv(s, x) && Enabled(s, step) && Calm(max, s, step, x)
    ensures Inv(Next(max, s, step), x)
  {
    LocksStay(max, s, step);
    match step {
      case Fetch(q) => FetchKeeps(max, s, q, x);
      case Acquire(q) => AcquireKeeps(max, s, q, x);
      case Check(q) => CheckKeeps(max, s, q, x);
      case Execute(q, reply) => ExecuteKeeps(max, s, q, reply, x);
      case Store(q) => StoreKeeps(max, s, q, x);
      case Arrive(q) => ArriveKeeps(max, s, q, x);
      case Leave(q) => LeaveKeeps(max, s, q, x);
    }
  }

  lemma {:induction false} RunKeeps(max: nat, ss: seq<State>, steps: seq<Step>, x: ActionId, i: nat)
    requires IsRun(max, ss, steps) && i < |ss|
    requires forall k :: 0 <= k < i ==> Calm(max, ss[k], steps[k], x)
    ensures Inv(ss[i], x)
  {
    if i > 0 {
      RunKeeps(max, ss, steps, x, i - 1);
      StepKeeps(max, ss[i - 1], steps[i - 1], x);
    }
  }

  // ---------- at most once ----------

  /** How many stores of other actions ran while x's result was in the map, among the first n steps. */
  function LaterStores(ss: seq<State>, steps: seq<Step>, x: ActionId, n: nat): nat
    requires n <= |steps| < |ss|
  {
    if n == 0 then 0
    else
      LaterStores(ss, steps, x, n - 1)
      + if steps[n - 1].Store? && steps[n - 1].q.id != x && Has(ss[n - 1].results, x) then 1 else 0
  }

  /** No other action stores while x is in flight and has no result yet. */
  ghost predicate NoStoreInFlight(s: State, step: Step, x: ActionId) {
    step.Store? && step.q.id != x ==> Has(s.results, x) || !InFlight(s, x)
  }

  /** x's result has not been evicted: once decided it is in the map or about to be. */
  ghost predicate Kept(s: State, x: ActionId) {
    DecisionsFor(s.decisions, x) != [] ==>
      Has(s.results, x) || exists q :: q in s.calls && q.id == x && s.calls[q].Worked?
  }

  function Newer(rs: seq<Stored>, x: ActionId): int { |rs| - 1 - Position(rs, x) }

  /** Storing `id` leaves an entry of x in the map iff fewer than `max` entries are newer; only a new key ages it. */
  lemma InsertAges(rs: seq<Stored>, id: ActionId, reply: Reply, max: nat, x: ActionId)
    requires UniqueKeys(rs) && x != id && Has(rs, x)
    ensures var newer := Newer(rs, x) + if Has(rs, id) then 0 else 1;
            && (Has(Insert(rs, id, reply, max), x) <==> newer < max)
            && (newer < max ==> Newer(Insert(rs, id, reply, max), x) == newer)
  {
    var full := Assigned(rs, id, reply);
    AssignedKeeps(rs, id, reply, x);
    var d := if |full| <= max then 0 else |full| - max;
    assert Insert(rs, id, reply, max) == full[d..];
    PositionDrop(full, d, x);
  }

  /** What was just stored is the newest entry, unless the map holds nothing. */
  lemma InsertedIsNewest(rs: seq<Stored>, id: ActionId, reply: Reply, max: nat)
    requires UniqueKeys(rs) && max > 0 && !Has(rs, id)
    ensures Has(Insert(rs, id, reply, max), id) && Newer(Insert(rs, id, reply, max), id) == 0
  {
    var full := Assigned(rs, id, reply);
    AssignedKeeps(rs, id, reply, id);
    var d := if |full| <= max then 0 else |full| - max;
    assert Insert(rs, id, reply, max) == full[d..];
    PositionDrop(full, d, id);
  }

  /**
   The steps that can make the agent forget x, by the state they are taken in: another action stores while x is in
   flight without a result, or while x's result is the oldest that fits.
   */
  ghost predicate Harmful(max: nat, s: State, step: Step, x: ActionId)
    requires Enabled(s, step)
  {
    && step.Store? && step.q.id != x
    && if Has(s.results, x) then Newer(s.results, x) + (if Has(s.results, step.q.id) then 0 else 1) >= max
       else InFlight(s, x)
  }

  lemma StoreIsCalm(max: nat, s: State, q: Request, x: ActionId)
    requires Inv(s, x) && Enabled(s, Store(q)) && !Harmful(max, s, Store(q), x) && max > 0
    ensures Calm(max, s, Store(q), x)
    ensures Kept(s, x) ==> Kept(Next(max, s, Store(q)), x)
    ensures Has(Next(max, s, Store(q)).results, x) ==>
              Newer(Next(max, s, Store(q)).results, x) <=
              if q.id != x && Has(s.results, x) then Newer(s.results, x) + 1 else 0
  {
    var t := Next(max, s, Store(q));
    if q.id == x {
      InsertedIsNewest(s.results, x, s.calls[q].reply, max);
    } else if Has(s.results, x) {
      InsertAges(s.results, q.id, s.calls[q].reply, max, x);
    } else {
      InsertKeeps(s.results, q.id, s.calls[q].reply, max, x);
    }
  }

  /** A step that does no harm leaves x remembered. */
  lemma HarmlessKeeps(max: nat, s: State, step: Step, x: ActionId)
    requires Inv(s, x) && Kept(s, x) && Enabled(s, step) && !Harmful(max, s, step, x) && max > 0
    ensures Inv(Next(max, s, step), x) && Kept(Next(max, s, step), x)
  {
    if step.Store? {
      StoreIsCalm(max, s, step.q, x);
    } else {
      OtherStepIsCalm(max, s, step, x);
    }
    StepKeeps(max, s, step, x);
  }

  lemma OtherStepIsCalm(max: nat, s: State, step: Step, x: ActionId)
    requires Inv(s, x) && Enabled(s, step) && !step.Store? && Kept(s, x)
    ensures Calm(max, s, step, x) && Kept(Next(max, s, step), x)
  {
    var t := Next(max, s, step);
    if step.Execute? {
      DecisionsAppend(s.decisions, Stored(step.q.id, step.reply), x);
    }
    if DecisionsFor(t.decisions, x) != [] && !Has(t.results, x) {
      if step.Execute? && step.q.id == x {
        assert t.calls[step.q].Worked?;
      } else {
        var w :| w in s.calls && w.id == x && s.calls[w].Worked?;
        assert t.calls[w].Worked?;
      }
    }
    if DecisionsFor(s.decisions, x) != [] && !Has(s.results, x) {
      var w :| w in s.calls && w.id == x && s.calls[w].Worked?;
      assert InFlight(s, x) by { assert Engaged(s.calls[w]); }
    }
  }

  lemma {:induction false} RunIsCalm(max: nat, ss: seq<State>, steps: seq<Step>, x: ActionId, n: nat)
    requires IsRun(max, ss, steps) && n <= |steps|
    requires forall k :: 0 <= k < |steps| ==> NoStoreInFlight(ss[k], steps[k], x)
    requires LaterStores(ss, steps, x, n) < max
    ensures forall k :: 0 <= k < n ==> Calm(max, ss[k], steps[k], x)
    ensures Kept(ss[n], x)
    ensures Has(ss[n].results, x) ==> Newer(ss[n].results, x) <= LaterStores(ss, steps, x, n)
  {
    if n > 0 {
      RunIsCalm(max, ss, steps, x, n - 1);
      RunKeeps(max, ss, steps, x, n - 1);
      var s, step := ss[n - 1], steps[n - 1];
      if step.Store? {
        StoreIsCalm(max, s, step.q, x);
      } else {
        OtherStepIsCalm(max, s, step, x);
      }
    }
  }

  /**
   At most one dispatch: if no other action stores while x is in flight, and fewer than `max` further actions
   store while x's result is kept, then x is decided at most once and every request for x gets that decision.
   */
  lemma {:induction false} AtMostOnce(max: nat, ss: seq<State>, steps: seq<Step>, x: ActionId, i: nat)
    requires IsRun(max, ss, steps) && i < |ss|
    requires forall k :: 0 <= k < |steps| ==> NoStoreInFlight(ss[k], steps[k], x)
    requires LaterStores(ss, steps, x, |steps|) < max
    ensures |DecisionsFor(ss[i].decisions, x)| <= 1
    ensures forall q :: q in ss[i].calls && q.id == x && ss[i].calls[q].Replied? ==>
              DecisionsFor(ss[i].decisions, x) == [ss[i].calls[q].reply]
  {
    RunIsCalm(max, ss, steps, x, |steps|);
    RunKeeps(max, ss, steps, x, i);
  }
}
