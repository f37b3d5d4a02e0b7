/** Runs of the gateway played step by step, and one in which eviction lets a client spend its mandate twice. */
module GatewayRuns {
  import opened Common
  import opened Playing
  import opened Retention
  import opened Ledger
  import opened Gateway
  import opened GatewayInvariant
  import opened GatewaySteps
  import opened GatewayMandate
  import Q = Queue
  import W = Wire

  ghost function Moves(cfg: Config): (State, Step) -> Option<State> {
    (s: State, step: Step) => if Enabled(cfg, s, step) then Some(Next(cfg, s, step)) else None
  }

  lemma {:induction false} PlayKeeps(cfg: Config, s: State, steps: seq<Step>)
    requires Inv(cfg, s) && Play(Moves(cfg), s, steps).Some?
    ensures Inv(cfg, Play(Moves(cfg), s, steps).value)
    decreases steps
  {
    if steps != [] {
      StepKeeps(cfg, s, steps[0]);
      PlayKeeps(cfg, Next(cfg, s, steps[0]), steps[1..]);
    }
  }

  // ---------- an order within the mandate ----------

  function Within(id: ActionId, job: Job): seq<Step> { [Arrive(id, job)] + ([ReadBudget(id)] + ([Reserve] + [])) }

  predicate CanOrder(s: State, id: ActionId, job: Job) {
    s.session.Free? && id !in s.acts && job.client in s.grants && W.OrderInBounds(job.item, job.quantity, job.amount)
  }

  function Reservation(s: State, id: ActionId, job: Job): Event {
    EventNow(s, job.client, job.item, job.amount, Accepted, Handoff(false, InProgress), Some(id))
  }

  /** The state once the order is reserved and its handoff can begin. */
  function Placed(cfg: Config, s: State, id: ActionId, job: Job): State
    requires job.client in s.grants
  {
    var stage := InFlight(false, s.grants[job.client], UsedNow(cfg, s, job.client), false);
    Recorded(cfg, s, Reservation(s, id, job)).(acts := s.acts[id := Act(job, stage)])
  }

  lemma WithinIsPlaced(cfg: Config, s: State, id: ActionId, job: Job)
    requires CanOrder(s, id, job) && UsedNow(cfg, s, job.client) + job.amount <= s.grants[job.client]
    ensures Play(Moves(cfg), s, Within(id, job)) == Some(Placed(cfg, s, id, job))
  {
    var s1 := Next(cfg, s, Arrive(id, job));
    PlayFirst(Moves(cfg), s, Arrive(id, job), [ReadBudget(id)] + ([Reserve] + []));
    BudgetIsRead(cfg, s, id, job);
    PlayFirst(Moves(cfg), s1, ReadBudget(id), [Reserve] + []);
    PlayFirst(Moves(cfg), WithBudget(cfg, s, id, job), Reserve, []);
    BudgetIsPlaced(cfg, s, id, job);
  }

  /** The state in which the order handler has the lock and has read the usage. */
  function WithBudget(cfg: Config, s: State, id: ActionId, job: Job): State
    requires job.client in s.grants
  {
    s.(acts := s.acts[id := Act(job, Checked)],
       session := Budget(id, s.grants[job.client], UsedNow(cfg, s, job.client)))
  }

  lemma BudgetIsRead(cfg: Config, s: State, id: ActionId, job: Job)
    requires CanOrder(s, id, job)
    ensures Enabled(cfg, Next(cfg, s, Arrive(id, job)), ReadBudget(id))
    ensures Next(cfg, Next(cfg, s, Arrive(id, job)), ReadBudget(id)) == WithBudget(cfg, s, id, job)
  {}

  lemma BudgetIsPlaced(cfg: Config, s: State, id: ActionId, job: Job)
    requires CanOrder(s, id, job) && UsedNow(cfg, s, job.client) + job.amount <= s.grants[job.client]
    ensures Next(cfg, WithBudget(cfg, s, id, job), Reserve) == Placed(cfg, s, id, job)
  {}

  // ---------- an order above it ----------

  /** The run of an order that is queued, or refused because the queue is full. */
  function Over(id: ActionId, job: Job, full: bool): seq<Step> {
    [Arrive(id, job)] + ([ReadBudget(id)] + ([ExceedMandate] + ([Swept] + Ending(id, full))))
  }

  function Ending(id: ActionId, full: bool): seq<Step> {
    if full then [RefuseFull(id)] + [] else [List] + ([Announce] + [])
  }

  /** One more event of the client in the history, which spends nothing, and one more action; nothing else of note. */
  ghost predicate OneMoreRow(s: State, t: State, c: ClientId, id: ActionId) {
    && |t.history| == |s.history| + 1 && t.history[..|s.history|] == s.history
    && t.history[|s.history|].client == c && t.history[|s.history|].at == s.now
    && t.history[|s.history|].data.outcome != Accepted
    && t.now == s.now && t.grants == s.grants && t.session.Free? && t.acts.Keys == s.acts.Keys + {id}
  }

  function AtQueue(cfg: Config, s: State, id: ActionId, job: Job): State
    requires job.client in s.grants
  {
    var n := ThenQueue(id, s.grants[job.client], UsedNow(cfg, s, job.client));
    s.(acts := s.acts[id := Act(job, Checked)], session := Expiring([], s.now, n))
  }

  lemma OverReachesQueue(cfg: Config, s: State, id: ActionId, job: Job, rest: seq<Step>)
    requires CanOrder(s, id, job) && UsedNow(cfg, s, job.client) + job.amount > s.grants[job.client]
    requires Q.Overdue(s.queue, s.now) == []
    ensures Play(Moves(cfg), s, [Arrive(id, job)] + ([ReadBudget(id)] + ([ExceedMandate] + rest)))
         == Play(Moves(cfg), AtQueue(cfg, s, id, job), rest)
  {
    var s1 := Next(cfg, s, Arrive(id, job));
    var s2 := Next(cfg, s1, ReadBudget(id));
    PlayFirst(Moves(cfg), s, Arrive(id, job), [ReadBudget(id)] + ([ExceedMandate] + rest));
    PlayFirst(Moves(cfg), s1, ReadBudget(id), [ExceedMandate] + rest);
    PlayFirst(Moves(cfg), s2, ExceedMandate, rest);
    assert Next(cfg, s2, ExceedMandate) == AtQueue(cfg, s, id, job);
  }

  lemma {:induction false} NothingOverdue(q: seq<Q.Pending>, p: Q.Pending, now: Time)
    requires Q.Overdue(q, now) == [] && !Q.IsOverdue(p, now)
    ensures Q.Overdue(q + [p], now) == []
  {
    if q == [] {
      assert q + [p] == [p] && [p][1..] == [];
    } else {
      assert (q + [p])[0] == q[0] && (q + [p])[1..] == q[1..] + [p];
      NothingOverdue(q[1..], p, now);
    }
  }

  function Waiter(cfg: Config, s: State, id: ActionId, job: Job): Q.Pending {
    Q.Pending(id, job, s.now, s.now + cfg.pendingTtl as real)
  }

  function InQueueNow(cfg: Config, s: State, id: ActionId, job: Job): State
    requires job.client in s.grants
  {
    s.(acts := s.acts[id := Act(job, Admitted)], queue := s.queue + [Waiter(cfg, s, id, job)],
       session := Listing(id, s.grants[job.client], UsedNow(cfg, s, job.client)))
  }

  lemma SweptQueues(cfg: Config, s: State, id: ActionId, job: Job)
    requires CanOrder(s, id, job) && forall p :: p in s.queue ==> p.id in s.acts
    requires Q.CountFor(s.queue, job.client) < cfg.pendingMax
    ensures Enabled(cfg, AtQueue(cfg, s, id, job), Swept)
    ensures Next(cfg, AtQueue(cfg, s, id, job), Swept) == InQueueNow(cfg, s, id, job)
  {}

  lemma QueueTail(cfg: Config, s: State, id: ActionId, job: Job)
    requires CanOrder(s, id, job) && cfg.pendingTtl >= 0 && Q.Overdue(s.queue, s.now) == []
    requires forall p :: p in s.queue ==> p.id in s.acts
    requires Q.CountFor(s.queue, job.client) < cfg.pendingMax
    ensures var end := Play(Moves(cfg), AtQueue(cfg, s, id, job), [Swept] + Ending(id, false));
            end.Some? && OneMoreRow(s, end.value, job.client, id) && Q.Overdue(end.value.queue, end.value.now) == []
  {
    var s0, s1 := AtQueue(cfg, s, id, job), InQueueNow(cfg, s, id, job);
    SweptQueues(cfg, s, id, job);
    PlayFirst(Moves(cfg), s0, Swept, [List] + ([Announce] + []));
    ListedIsRecorded(cfg, s, id, job);
  }

  lemma ListedIsRecorded(cfg: Config, s: State, id: ActionId, job: Job)
    requires CanOrder(s, id, job) && cfg.pendingTtl >= 0 && Q.Overdue(s.queue, s.now) == []
    ensures var end := Play(Moves(cfg), InQueueNow(cfg, s, id, job), [List] + ([Announce] + []));
            end.Some? && OneMoreRow(s, end.value, job.client, id) && Q.Overdue(end.value.queue, end.value.now) == []
  {
    var s1 := InQueueNow(cfg, s, id, job);
    var s2 := Next(cfg, s1, List);
    PlayFirst(Moves(cfg), s1, List, [Announce] + []);
    PlayFirst(Moves(cfg), s2, Announce, []);
    NothingOverdue(s.queue, Waiter(cfg, s, id, job), s.now);
  }

  function FullNow(s: State, id: ActionId, job: Job): State { s.(acts := s.acts[id := Act(job, QueueIsFull)]) }

  lemma SweptRefuses(cfg: Config, s: State, id: ActionId, job: Job)
    requires CanOrder(s, id, job) && forall p :: p in s.queue ==> p.id in s.acts
    requires Q.CountFor(s.queue, job.client) >= cfg.pendingMax
    ensures Enabled(cfg, AtQueue(cfg, s, id, job), Swept)
    ensures Next(cfg, AtQueue(cfg, s, id, job), Swept) == FullNow(s, id, job)
  {}

  lemma RefuseTail(cfg: Config, s: State, id: ActionId, job: Job)
    requires CanOrder(s, id, job) && Q.Overdue(s.queue, s.now) == []
    requires forall p :: p in s.queue ==> p.id in s.acts
    requires Q.CountFor(s.queue, job.client) >= cfg.pendingMax
    ensures var end := Play(Moves(cfg), AtQueue(cfg, s, id, job), [Swept] + Ending(id, true));
            end.Some? && OneMoreRow(s, end.value, job.client, id) && end.value.queue == s.queue
  {
    SweptRefuses(cfg, s, id, job);
    PlayFirst(Moves(cfg), AtQueue(cfg, s, id, job), Swept, [RefuseFull(id)] + []);
    PlayFirst(Moves(cfg), FullNow(s, id, job), RefuseFull(id), []);
  }

  lemma OverGrantsNothing(id: ActionId, job: Job, full: bool)
    ensures forall step :: step in Over(id, job, full) ==> !step.PutGrant?
  {
    assert Over(id, job, full) == [Arrive(id, job), ReadBudget(id), ExceedMandate, Swept] + Ending(id, full);
    assert Ending(id, full) == if full then [RefuseFull(id)] else [List, Announce];
  }

  lemma OverIsRecorded(cfg: Config, s: State, id: ActionId, job: Job) returns (steps: seq<Step>)
    requires (forall p :: p in s.queue ==> p.id in s.acts) && CanOrder(s, id, job)
    requires cfg.pendingTtl >= 0 && Q.Overdue(s.queue, s.now) == []
    requires UsedNow(cfg, s, job.client) + job.amount > s.grants[job.client]
    ensures var end := Play(Moves(cfg), s, steps);
            end.Some? && OneMoreRow(s, end.value, job.client, id) && Q.Overdue(end.value.queue, end.value.now) == []
    ensures forall step :: step in steps ==> !step.PutGrant?
  {
    var full := Q.CountFor(s.queue, job.client) >= cfg.pendingMax;
    steps := Over(id, job, full);
    OverGrantsNothing(id, job, full);
    OverReachesQueue(cfg, s, id, job, [Swept] + Ending(id, full));
    if full {
      RefuseTail(cfg, s, id, job);
    } else {
      QueueTail(cfg, s, id, job);
    }
  }

  // ---------- the mandate spent twice ----------

  function OrderId(n: nat): ActionId
    ensures |OrderId(n)| == n + 1
  {
    if n == 0 then "a" else "a" + OrderId(n - 1)
  }

  function Order(c: ClientId, item: string, amount: int): Job { Job(c, item, 1, amount) }

  /** The history is one reservation of the whole limit and then n rows that spend nothing, all of this moment. */
  ghost predicate CrowdedRows(s: State, c: ClientId, limit: int, n: nat) {
    && |s.history| == n + 1
    && (forall i :: 0 <= i <= n ==> s.history[i].client == c && s.history[i].at == s.now)
    && IsAutonomous(s.history[0]) && s.history[0].data.amount == limit
    && (forall i :: 1 <= i <= n ==> s.history[i].data.outcome != Accepted)
  }

  ghost predicate Quiet(s: State, c: ClientId, limit: int, n: nat) {
    && s.session.Free? && c in s.grants && s.grants[c] == limit && Q.Overdue(s.queue, s.now) == []
    && CrowdedRows(s, c, limit, n)
    && (forall id :: id in s.acts ==> |id| <= n + 1)
  }

  ghost predicate Crowded(cfg: Config, s: State, c: ClientId, limit: int, n: nat) {
    Inv(cfg, s) && Quiet(s, c, limit, n)
  }

  lemma {:induction false} AllMine<D>(rows: seq<Row<D>>, c: ClientId, cutoff: Time)
    requires forall i :: 0 <= i < |rows| ==> rows[i].client == c && rows[i].at >= cutoff
    ensures Since(Of(rows, c), cutoff) == rows
  {
    if rows != [] {
      AllMine(rows[1..], c, cutoff);
      OfCons(rows[0], rows[1..], c);
      SinceCons(rows[0], Of(rows[1..], c), cutoff);
      assert rows == [rows[0]] + rows[1..];
    }
  }

  lemma {:induction false} NothingSpent(rows: seq<Event>, c: ClientId, cutoff: Time)
    requires forall i :: 0 <= i < |rows| ==> rows[i].data.outcome != Accepted
    ensures Used(rows, c, cutoff) == 0 && Autonomous(rows, c, cutoff) == 0
  {
    if rows != [] { NothingSpent(rows[1..], c, cutoff); }
  }

  /** While the log has room the reservation counts; one row later it is forgotten. */
  lemma CrowdedUsage(cfg: Config, s: State, c: ClientId, limit: int, n: nat)
    requires Crowded(cfg, s, c, limit, n) && cfg.window >= 0
    ensures Spent(cfg, s, c) == limit
    ensures n < cfg.auditMax ==> UsedNow(cfg, s, c) == limit
    ensures n == cfg.auditMax ==> UsedNow(cfg, s, c) == 0
  {
    var h, cut := s.history, Cutoff(cfg, s);
    NothingSpent(h[1..], c, cut);
    AllMine(h, c, cut);
    UsedAgainstHistory(h, c, s.pruned, cut, cfg.auditMax);
    if n == cfg.auditMax {
      assert h[..1] == [h[0]] && [h[0]][1..] == [];
    }
  }

  lemma FirstOrder(cfg: Config, s: State, c: ClientId, item: string, limit: int)
    requires Init(cfg, s) && cfg.window >= 0 && 0 < limit <= 1_000_000 && 1 <= |item| <= 200
    ensures var end := Play(Moves(cfg), s, [PutGrant(c, limit)] + Within(OrderId(0), Order(c, item, limit)));
            end.Some? && Crowded(cfg, end.value, c, limit, 0)
  {
    var job := Order(c, item, limit);
    var s1 := Next(cfg, s, PutGrant(c, limit));
    PlayFirst(Moves(cfg), s, PutGrant(c, limit), Within(OrderId(0), job));
    assert UsedNow(cfg, s1, c) == 0;
    WithinIsPlaced(cfg, s1, OrderId(0), job);
    InitHolds(cfg, s);
    StepKeeps(cfg, s, PutGrant(c, limit));
    PlayKeeps(cfg, s1, Within(OrderId(0), job));
  }

  lemma NextRow(s: State, t: State, c: ClientId, limit: int, n: nat, id: ActionId)
    requires CrowdedRows(s, c, limit, n) && OneMoreRow(s, t, c, id)
    ensures CrowdedRows(t, c, limit, n + 1)
  {
    forall i | 0 <= i <= n ensures t.history[i] == s.history[i] {
      assert t.history[..n + 1][i] == s.history[i];
    }
  }

  lemma OneMoreQuiet(cfg: Config, s: State, c: ClientId, item: string, limit: int, n: nat) returns (steps: seq<Step>)
    requires Quiet(s, c, limit, n) && cfg.pendingTtl >= 0 && 0 < limit && 1 <= |item| <= 200
    requires UsedNow(cfg, s, c) == limit && forall p :: p in s.queue ==> p.id in s.acts
    ensures Play(Moves(cfg), s, steps).Some? && Quiet(Play(Moves(cfg), s, steps).value, c, limit, n + 1)
    ensures forall step :: step in steps ==> !step.PutGrant?
  {
    var id := OrderId(n + 1);
    steps := OverIsRecorded(cfg, s, id, Order(c, item, 1));
    var t := Play(Moves(cfg), s, steps).value;
    NextRow(s, t, c, limit, n, id);
    assert forall k :: k in t.acts ==> k in s.acts || k == id;
  }

  /** One more order above the mandate, and one more row. */
  lemma OneMoreOrder(cfg: Config, s: State, c: ClientId, item: string, limit: int, n: nat) returns (steps: seq<Step>)
    requires Crowded(cfg, s, c, limit, n) && cfg.window >= 0 && cfg.pendingTtl >= 0 && n < cfg.auditMax
    requires 0 < limit && 1 <= |item| <= 200
    ensures Play(Moves(cfg), s, steps).Some? && Crowded(cfg, Play(Moves(cfg), s, steps).value, c, limit, n + 1)
    ensures forall step :: step in steps ==> !step.PutGrant?
  {
    assert UsedNow(cfg, s, c) == limit by { CrowdedUsage(cfg, s, c, limit, n); }
    steps := OneMoreQuiet(cfg, s, c, item, limit, n);
    PlayKeeps(cfg, s, steps);
  }

  /** As many orders above the mandate as the log holds rows, each of which leaves one. */
  lemma {:induction false} CrowdOut(cfg: Config, s: State, c: ClientId, item: string, limit: int, n: nat)
    returns (steps: seq<Step>)
    requires Crowded(cfg, s, c, limit, 0) && cfg.window >= 0 && cfg.pendingTtl >= 0 && n <= cfg.auditMax
    requires 0 < limit && 1 <= |item| <= 200
    ensures Play(Moves(cfg), s, steps).Some? && Crowded(cfg, Play(Moves(cfg), s, steps).value, c, limit, n)
    ensures forall step :: step in steps ==> !step.PutGrant?
  {
    steps := [];
    if n > 0 {
      var before := CrowdOut(cfg, s, c, item, limit, n - 1);
      var one := OneMoreOrder(cfg, Play(Moves(cfg), s, before).value, c, item, limit, n - 1);
      PlayOn(Moves(cfg), s, before, one);
      steps := before + one;
    }
  }

  lemma SecondOrderFits(cfg: Config, s: State, id: ActionId, job: Job, limit: int)
    requires Crowded(cfg, s, job.client, limit, cfg.auditMax) && cfg.window >= 0 && job.amount <= limit
    requires |id| == cfg.auditMax + 2 && W.OrderInBounds(job.item, job.quantity, job.amount)
    ensures CanOrder(s, id, job) && UsedNow(cfg, s, job.client) + job.amount <= s.grants[job.client]
    ensures Spent(cfg, s, job.client) == limit
  {
    CrowdedUsage(cfg, s, job.client, limit, cfg.auditMax);
  }

  lemma PlacedSpends(cfg: Config, s: State, id: ActionId, job: Job)
    requires CanOrder(s, id, job) && UsedNow(cfg, s, job.client) + job.amount <= s.grants[job.client] && cfg.window >= 0
    ensures var end := Play(Moves(cfg), s, Within(id, job));
            end.Some? && Spent(cfg, end.value, job.client) == Spent(cfg, s, job.client) + job.amount
  {
    WithinIsPlaced(cfg, s, id, job);
    RecordingSpends(cfg, s, Reservation(s, id, job), job.client);
    assert Placed(cfg, s, id, job).history == Recorded(cfg, s, Reservation(s, id, job)).history;
  }

  /** Once the reservation is forgotten, another one of the same amount goes through. */
  lemma SecondOrder(cfg: Config, s: State, c: ClientId, item: string, limit: int)
    requires Crowded(cfg, s, c, limit, cfg.auditMax) && cfg.window >= 0 && 0 < limit <= 1_000_000 && 1 <= |item| <= 200
    ensures var end := Play(Moves(cfg), s, Within(OrderId(cfg.auditMax + 1), Order(c, item, limit)));
            end.Some? && Spent(cfg, end.value, c) == 2 * limit
  {
    var id, job := OrderId(cfg.auditMax + 1), Order(c, item, limit);
    SecondOrderFits(cfg, s, id, job, limit);
    PlacedSpends(cfg, s, id, job);
  }

  /**
   The proviso of mandate safety cannot be dropped, whatever the cap: a run from the start in which a client with
   one grant of `limit` reserves that amount, places as many orders above its mandate as the log holds rows, and
   then reserves the amount again.
   */
  lemma EvictionDoublesSpending(cfg: Config, s: State, c: ClientId, item: string, limit: int) returns (steps: seq<Step>)
    requires Init(cfg, s) && cfg.window >= 0 && cfg.pendingTtl >= 0 && 0 < limit <= 1_000_000 && 1 <= |item| <= 200
    ensures Play(Moves(cfg), s, steps).Some? && Spent(cfg, Play(Moves(cfg), s, steps).value, c) == 2 * limit
    ensures forall step :: step in steps && step.PutGrant? ==> step == PutGrant(c, limit)
  {
    var first := [PutGrant(c, limit)] + Within(OrderId(0), Order(c, item, limit));
    FirstOrder(cfg, s, c, item, limit);
    var rest := AfterFirst(cfg, Play(Moves(cfg), s, first).value, c, item, limit);
    PlayOn(Moves(cfg), s, first, rest);
    WithinGrantsNothing(OrderId(0), Order(c, item, limit));
    steps := first + rest;
  }

  lemma WithinGrantsNothing(id: ActionId, job: Job)
    ensures forall step :: step in Within(id, job) ==> !step.PutGrant?
  {
    assert Within(id, job) == [Arrive(id, job), ReadBudget(id), Reserve];
  }

  lemma AfterFirst(cfg: Config, s: State, c: ClientId, item: string, limit: int) returns (steps: seq<Step>)
    requires Crowded(cfg, s, c, limit, 0) && cfg.window >= 0 && cfg.pendingTtl >= 0
    requires 0 < limit <= 1_000_000 && 1 <= |item| <= 200
    ensures Play(Moves(cfg), s, steps).Some? && Spent(cfg, Play(Moves(cfg), s, steps).value, c) == 2 * limit
    ensures forall step :: step in steps ==> !step.PutGrant?
  {
    var last := Within(OrderId(cfg.auditMax + 1), Order(c, item, limit));
    var crowd := CrowdOut(cfg, s, c, item, limit, cfg.auditMax);
    SecondOrder(cfg, Play(Moves(cfg), s, crowd).value, c, item, limit);
    PlayOn(Moves(cfg), s, crowd, last);
    WithinGrantsNothing(OrderId(cfg.auditMax + 1), Order(c, item, limit));
    steps := crowd + last;
  }
}
