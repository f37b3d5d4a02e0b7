/**
 The agent's idempotency: one lock per action id, a bounded map of results, and the cleanup that keeps the
 lock table no larger than the map. First the module's tables as an object, then the concurrent handlers.
 */
module Agent {
  import opened Common
  import opened Retention
  import opened Wire

  /** One HTTP request carrying an envelope; retries of an action are further requests. */
  datatype Request = Request(id: ActionId, attempt: nat)

  datatype Stored = Stored(id: ActionId, reply: Reply)

  type Lock = nat

  // ---------- the bounded result map ----------

  function Position(rs: seq<Stored>, id: ActionId): (k: int)
    ensures -1 <= k < |rs|
    ensures k >= 0 ==> rs[k].id == id
    ensures k < 0 ==> forall r :: r in rs ==> r.id != id
  {
    if rs == [] then -1
    else if rs[0].id == id then 0
    else
      var k := Position(rs[1..], id);
      if k < 0 then -1 else k + 1
  }

  predicate Has(rs: seq<Stored>, id: ActionId) { Position(rs, id) >= 0 }

  /** `_results[id] = reply`, then drop the oldest entries beyond the bound. */
  function Insert(rs: seq<Stored>, id: ActionId, reply: Reply, max: nat): seq<Stored> {
    var k := Position(rs, id);
    Newest(if k >= 0 then rs[k := Stored(id, reply)] else rs + [Stored(id, reply)], max)
  }

  /** The locks that survive the cleanup: those of the actions still in the map. */
  function LocksKept(locks: map<ActionId, Lock>, rs: seq<Stored>): map<ActionId, Lock> {
    map id | id in locks && Has(rs, id) :: locks[id]
  }

  /** The trimming loop: delete the oldest entries one by one until the bound is met. */
  method DropOldest(rs: seq<Stored>, max: nat) returns (kept: seq<Stored>)
    ensures kept == Newest(rs, max)
  {
    kept := rs;
    while |kept| > max
      invariant |kept| <= |rs| && kept == rs[|rs| - |kept|..]
      invariant |rs| > max ==> |kept| >= max
      invariant |rs| <= max ==> kept == rs
    {
      kept := kept[1..];
    }
  }

  class Registry {
    const resultMax: nat
    const logMax: nat
    var results: seq<Stored>
    var locks: map<ActionId, Lock>
    var nextLock: Lock
    var decisionLog: seq<ActionId>

    constructor (resultMax: nat, logMax: nat)
      ensures this.resultMax == resultMax && this.logMax == logMax
      ensures results == [] && locks == map[] && nextLock == 0 && decisionLog == []
    {
      this.resultMax, this.logMax := resultMax, logMax;
      results, locks, nextLock, decisionLog := [], map[], 0, [];
    }

    /** `_action_lock`: the table's lock for this id, made on first use. */
    method ActionLock(id: ActionId) returns (lock: Lock)
      modifies this`locks, this`nextLock
      ensures id in locks && lock == locks[id] && locks == old(locks)[id := lock]
      ensures if id in old(locks) then lock == old(locks)[id] && nextLock == old(nextLock)
              else lock == old(nextLock) && nextLock == old(nextLock) + 1
    {
      if id !in locks {
        locks := locks[id := nextLock];
        nextLock := nextLock + 1;
      }
      lock := locks[id];
    }

    /** `_store_result`: insert, trim the oldest results one by one, then drop every lock without a result. */
    method StoreResult(id: ActionId, reply: Reply)
      modifies this`results, this`locks
      ensures results == Insert(old(results), id, reply, resultMax)
      ensures locks == LocksKept(old(locks), results)
    {
      var k := Position(results, id);
      results := if k >= 0 then results[k := Stored(id, reply)] else results + [Stored(id, reply)];
      results := DropOldest(results, resultMax);
      var stale := set key | key in locks && !Has(results, key);
      locks := locks - stale;
    }

    /** `_log_decision`: append, then cut the list back to its bound from the front. */
    method LogDecision(id: ActionId)
      modifies this`decisionLog
      ensures decisionLog == Newest(old(decisionLog) + [id], logMax)
    {
      decisionLog := decisionLog + [id];
      if |decisionLog| > logMax {
        decisionLog := decisionLog[|decisionLog| - logMax..];
      }
    }
  }

  // ---------- the concurrent handlers ----------

  /** A handler's program counter, with the lock object it got. */
  datatype Pc =
    | Arrived
    | Waiting(lock: Lock)                 // has the lock object, not the lock
    | Entered(lock: Lock)                 // holds the lock, has not looked for a result
    | Working(lock: Lock)                 // found none
    | Worked(lock: Lock, reply: Reply)    // routed and dispatched, not stored
    | Leaving(lock: Lock, reply: Reply)   // still holds the lock
    | Replied(reply: Reply)

  /** `decisions` is the list of all routing decisions ever made, oldest first. */
  datatype State = State(
    results: seq<Stored>, locks: map<ActionId, Lock>, nextLock: Lock, owner: map<Lock, Request>,
    calls: map<Request, Pc>, decisions: seq<Stored>)

  datatype Step =
    | Arrive(q: Request)
    | Fetch(q: Request)
    | Acquire(q: Request)
    | Check(q: Request)
    | Execute(q: Request, reply: Reply)
    | Store(q: Request)
    | Leave(q: Request)

  ghost predicate Init(s: State) {
    s.results == [] && s.locks == map[] && s.owner == map[] && s.calls == map[] && s.decisions == []
  }

  predicate Enabled(s: State, step: Step) {
    match step
    case Arrive(q) => q !in s.calls
    case Fetch(q) => q in s.calls && s.calls[q].Arrived?
    case Acquire(q) => q in s.calls && s.calls[q].Waiting? && s.calls[q].lock !in s.owner
    case Check(q) => q in s.calls && s.calls[q].Entered?
    case Execute(q, reply) => q in s.calls && s.calls[q].Working? && WellFormed(reply)
    case Store(q) => q in s.calls && s.calls[q].Worked?
    case Leave(q) => q in s.calls && s.calls[q].Leaving?
  }

  function Moved(s: State, q: Request, pc: Pc): State { s.(calls := s.calls[q := pc]) }

  function Next(max: nat, s: State, step: Step): State
    requires Enabled(s, step)
  {
    match step
    case Arrive(q) => Moved(s, q, Arrived)
    case Fetch(q) =>
      if q.id in s.locks then Moved(s, q, Waiting(s.locks[q.id]))
      else Moved(s, q, Waiting(s.nextLock)).(locks := s.locks[q.id := s.nextLock], nextLock := s.nextLock + 1)
    case Acquire(q) => Moved(s, q, Entered(s.calls[q].lock)).(owner := s.owner[s.calls[q].lock := q])
    case Check(q) =>
      var k := Position(s.results, q.id);
      Moved(s, q, if k >= 0 then Leaving(s.calls[q].lock, s.results[k].reply) else Working(s.calls[q].lock))
    case Execute(q, reply) =>
      Moved(s, q, Worked(s.calls[q].lock, reply)).(decisions := s.decisions + [Stored(q.id, reply)])
    case Store(q) =>
      var rs := Insert(s.results, q.id, s.calls[q].reply, max);
      Moved(s, q, Leaving(s.calls[q].lock, s.calls[q].reply)).(results := rs, locks := LocksKept(s.locks, rs))
    case Leave(q) => Moved(s, q, Replied(s.calls[q].reply)).(owner := s.owner - {s.calls[q].lock})
  }

  ghost predicate IsRun(max: nat, ss: seq<State>, steps: seq<Step>) {
    && |ss| == |steps| + 1 && Init(ss[0])
    && forall i :: 0 <= i < |steps| ==> Enabled(ss[i], steps[i]) && ss[i + 1] == Next(max, ss[i], steps[i])
  }

  /** The decisions made for one action. */
  function DecisionsFor(ds: seq<Stored>, id: ActionId): seq<Reply> {
    if ds == [] then [] else (if ds[0].id == id then [ds[0].reply] else []) + DecisionsFor(ds[1..], id)
  }

  /** The request holds a lock object for its action and has not finished with it. */
  predicate Engaged(pc: Pc) { pc.Waiting? || pc.Entered? || pc.Working? || pc.Worked? }

  ghost predicate InFlight(s: State, x: ActionId) {
    exists q :: q in s.calls && q.id == x && Engaged(s.calls[q])
  }
}
