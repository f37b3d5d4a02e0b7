/**
 What holds in every reachable state of the gateway: the pruned log is the full history pruned once, and
 the stage of each action fixes its audit trail, its place in the queue and its resolution.
 */
module GatewayInvariant {
  import opened Common
  import opened Retention
  import opened Ledger
  import opened Gateway
  import R = Resolutions
  import Q = Queue
  import W = Wire

  // ---------- what a stage says ----------

  function QueuePart(byHuman: bool): seq<Mark> { if byHuman then [Mark(Queued, None)] else [] }

  /** The complete audit trail of an action in this stage. */
  function ExpectedTrail(st: Stage): seq<Mark> {
    match st
    case Minted(_) => []
    case Checked => []
    case QueueIsFull => []
    case TurnedAway => [Mark(Rejected, None)]
    case Admitted => []
    case Listed => QueuePart(true)
    case Waiting => QueuePart(true)
    case Popped(_) => QueuePart(true)
    case Noted(e) => QueuePart(true) + [Mark(ExitOutcome(e), None)]
    case Left(e) => QueuePart(true) + [Mark(ExitOutcome(e), None)]
    case Approved(_) => QueuePart(true)
    case InFlight(h, _, _, _) => QueuePart(h) + [Mark(Accepted, Some(h))]
    case Answered(h, _) => QueuePart(h) + [Mark(Accepted, Some(h))]
    case Settled(h, r) => QueuePart(h) + [Mark(SettledOutcome(r), Some(h))]
    case Finished(h, r) => QueuePart(h) + [Mark(SettledOutcome(r), Some(h))]
    case Crashed(h) => QueuePart(h) + [Mark(Accepted, Some(h))]
  }

  predicate InQueue(st: Stage) { st.Admitted? || st.Listed? || st.Waiting? }

  function QueuedIf(byHuman: bool): set<R.Status> { if byHuman then {R.Queued} else {} }

  /** The statuses a resolution of the action can show, if the map still has one. */
  function Statuses(st: Stage): set<R.Status> {
    match st
    case Waiting => {R.Queued}
    case Popped(_) => {R.Queued}
    case Noted(_) => {R.Queued}
    case Left(e) => {ExitStatus(e)}
    case Approved(_) => {R.Queued}
    case InFlight(h, _, _, _) => QueuedIf(h)
    case Answered(h, _) => QueuedIf(h)
    case Settled(h, _) => QueuedIf(h)
    case Finished(_, r) => {FinalStatus(r)}
    case Crashed(h) => QueuedIf(h)
    case _ => {}
  }

  /** Stages that last only while the lock is held. */
  predicate NeedsLock(st: Stage) {
    st.Checked? || st.Admitted? || st.Listed? || st.Popped? || st.Noted? || st.Approved?
  }

  function QueuedOrder(k: After): set<ActionId> { if k.ThenQueue? then {k.id} else {} }

  /** The actions whose handling the lock holder is in the middle of. */
  function Held(n: Session): set<ActionId> {
    match n
    case Free => {}
    case Budget(id, _, _) => {id}
    case Expiring(_, _, k) => QueuedOrder(k)
    case Noting(id, _, _, _, k) => {id} + QueuedOrder(k)
    case Resolving(id, _, _, _, k) => {id} + QueuedOrder(k)
    case Listing(id, _, _) => {id}
    case Announcing(id) => {id}
    case Reserving(id, _) => {id}
    case Purging(_, _, _) => {}
  }

  predicate GrantSize(limit: int) { 0 < limit <= GRANT_MAX }

  predicate LimitsOk(st: Stage) {
    match st
    case Minted(limit) => GrantSize(limit)
    case Approved(limit) => GrantSize(limit)
    case InFlight(_, limit, used, _) => GrantSize(limit) && used >= 0
    case _ => true
  }

  // ---------- the invariant ----------

  ghost predicate HistoryOk(cfg: Config, s: State) {
    && Sorted(s.history) && PositiveAmounts(s.history)
    && (forall e :: e in s.history ==> e.at <= s.now)
    && (forall e :: e in s.history && e.data.id.Some? ==> e.data.id.value in s.acts)
    && s.pruned <= Cutoff(cfg, s)
    && s.events == Pruned(s.history, s.pruned, cfg.auditMax)
  }

  ghost predicate ActOk(s: State, id: ActionId)
    requires id in s.acts
  {
    var a := s.acts[id];
    && Trail(s.history, id) == ExpectedTrail(a.stage)
    && OwnedBy(s.history, id, a.job.client)
    && (Q.Has(s.queue, id) <==> InQueue(a.stage))
    && (forall r :: r in s.resolutions && r.data.id == id ==> r.data.status in Statuses(a.stage))
    && W.OrderInBounds(a.job.item, a.job.quantity, a.job.amount)
    && LimitsOk(a.stage)
    && (NeedsLock(a.stage) ==> id in Held(s.session))
  }

  ghost predicate ActsOk(s: State) { forall id :: id in s.acts ==> ActOk(s, id) }

  ghost predicate QueueOk(cfg: Config, s: State) {
    && Q.UniqueIds(s.queue)
    && (forall p :: p in s.queue ==> p.id in s.acts && p.job == s.acts[p.id].job)
    && (forall c :: Q.CountFor(s.queue, c) <= cfg.pendingMax)
  }

  ghost predicate ResolutionsOk(cfg: Config, s: State) {
    && R.UniqueIds(s.resolutions)
    && WithinCap(s.resolutions, cfg.resolutionMax)
    && (forall r :: r in s.resolutions ==> r.data.id in s.acts && r.client == s.acts[r.data.id].job.client)
  }

  ghost predicate GrantsOk(s: State) { forall c :: c in s.grants ==> GrantSize(s.grants[c]) }

  ghost predicate AfterOk(s: State, k: After) {
    k.ThenQueue? ==> k.id in s.acts && s.acts[k.id].stage.Checked? && GrantSize(k.limit) && k.used >= 0
  }

  /** The ids still to be popped are distinct and queued. */
  ghost predicate TodoOk(s: State, todo: seq<ActionId>) {
    Q.Distinct(todo) && forall id :: id in todo ==> Q.Has(s.queue, id)
  }

  /** What is still on the sweep's list is exactly what was overdue when the sweep began. */
  ghost predicate SweepExact(s: State, todo: seq<ActionId>, since: Time) {
    && since <= s.now
    && forall p :: p in s.queue ==> (Q.IsOverdue(p, since) <==> p.id in todo)
  }

  /** What is still on the purge list is exactly what the revoked client has queued. */
  ghost predicate PurgeExact(s: State, todo: seq<ActionId>, c: ClientId) {
    forall p :: p in s.queue ==> (p.job.client == c <==> p.id in todo)
  }

  ghost predicate ExitOk(s: State, exit: Exit, todo: seq<ActionId>, since: Time, k: After) {
    match exit
    case TimedOut => TodoOk(s, todo) && AfterOk(s, k) && SweepExact(s, todo, since)
    case Purged => TodoOk(s, todo) && k.ThenRevoke? && SweepExact(s, [], since) && PurgeExact(s, todo, k.client)
    case ApprovalRefused => k.ThenNothing?
    case Declined => k.ThenNothing?
  }

  ghost predicate SessionOk(s: State) {
    match s.session
    case Free => true
    case Budget(id, limit, used) => id in s.acts && s.acts[id].stage.Checked? && GrantSize(limit) && used >= 0
    case Expiring(todo, since, k) => TodoOk(s, todo) && AfterOk(s, k) && SweepExact(s, todo, since)
    case Noting(id, exit, todo, since, k) =>
      id in s.acts && s.acts[id].stage == Popped(exit) && ExitOk(s, exit, todo, since, k)
    case Resolving(id, exit, todo, since, k) =>
      id in s.acts && s.acts[id].stage == Noted(exit) && ExitOk(s, exit, todo, since, k)
    case Listing(id, limit, used) => id in s.acts && s.acts[id].stage.Admitted?
    case Announcing(id) => id in s.acts && s.acts[id].stage.Listed?
    case Reserving(id, limit) => id in s.acts && s.acts[id].stage == Approved(limit)
    case Purging(todo, since, c) => TodoOk(s, todo) && SweepExact(s, [], since) && PurgeExact(s, todo, c)
  }

  /** The part that does not look at stages. */
  ghost predicate StoreOk(cfg: Config, s: State) {
    HistoryOk(cfg, s) && QueueOk(cfg, s) && ResolutionsOk(cfg, s) && GrantsOk(s)
  }

  ghost predicate Inv(cfg: Config, s: State) {
    StoreOk(cfg, s) && ActsOk(s) && SessionOk(s)
  }

  // ---------- what recording, resolving and settling keep ----------

  ghost predicate GoodEvent(s: State, e: Event) {
    && e.at == s.now && e.data.amount > 0
    && (e.data.id.Some? ==> e.data.id.value in s.acts && s.acts[e.data.id.value].job.client == e.client)
  }

  function Added(e: Event, id: ActionId): seq<Mark> {
    if e.data.id == Some(id) then [MarkOf(e)] else []
  }

  lemma LatestIsSorted(h: seq<Event>, e: Event)
    requires Sorted(h) && forall f :: f in h ==> f.at <= e.at
    ensures Sorted(h + [e])
  {
    assert forall i :: 0 <= i < |h| ==> h[i] in h;
  }

  lemma TrailExtends(h: seq<Event>, e: Event, id: ActionId)
    ensures Trail(h + [e], id) == Trail(h, id) + Added(e, id)
  {
    TrailConcat(h, [e], id);
    assert [e][1..] == [];
  }

  /** Recording extends one trail and keeps the log equal to the pruned history. */
  lemma RecordingKeepsHistory(cfg: Config, s: State, e: Event)
    requires HistoryOk(cfg, s) && GoodEvent(s, e)
    ensures HistoryOk(cfg, Recorded(cfg, s, e))
    ensures forall id :: Trail(s.history + [e], id) == Trail(s.history, id) + Added(e, id)
    ensures forall id :: id in s.acts && OwnedBy(s.history, id, s.acts[id].job.client) ==>
              OwnedBy(s.history + [e], id, s.acts[id].job.client)
  {
    LatestIsSorted(s.history, e);
    PruneIncrementally(s.history, e, s.pruned, e.at - cfg.window as real, cfg.auditMax);
    forall id ensures Trail(s.history + [e], id) == Trail(s.history, id) + Added(e, id) {
      TrailExtends(s.history, e, id);
    }
  }

  lemma SettledWell(cfg: Config, s: State, v: Settlement)
    requires HistoryOk(cfg, s) && v.id in s.acts && OwnedBy(s.history, v.id, s.acts[v.id].job.client)
    ensures HistoryOk(cfg, s.(events := Settle(s.events, v), history := Settle(s.history, v)))
    ensures forall id :: id in s.acts && OwnedBy(s.history, id, s.acts[id].job.client) ==>
              OwnedBy(Settle(s.history, v), id, s.acts[id].job.client)
  {
    var h := Settle(s.history, v);
    SettleKeeps(s.history, v);
    SettlePruned(s.history, v, s.pruned, cfg.auditMax, s.acts[v.id].job.client);
    forall e | e in h
      ensures exists f :: f in s.history && f.client == e.client && f.at == e.at
                          && f.data.id == e.data.id && f.data.amount == e.data.amount
    {
      var i :| 0 <= i < |h| && h[i] == e;
      assert s.history[i] in s.history;
    }
  }

  lemma SettlingKeepsHistory(cfg: Config, s: State, v: Settlement)
    requires HistoryOk(cfg, s) && v.id in s.acts && OwnedBy(s.history, v.id, s.acts[v.id].job.client)
    ensures HistoryOk(cfg, s.(events := Settle(s.events, v), history := Settle(s.history, v)))
    ensures forall id :: Trail(Settle(s.history, v), id) ==
              if id == v.id then Amended(Trail(s.history, id), MarkFor(v.outcome, v.reason)) else Trail(s.history, id)
    ensures forall id :: id in s.acts && OwnedBy(s.history, id, s.acts[id].job.client) ==>
              OwnedBy(Settle(s.history, v), id, s.acts[id].job.client)
  {
    var h := Settle(s.history, v);
    SettledWell(cfg, s, v);
    forall id ensures Trail(h, id) ==
              if id == v.id then Amended(Trail(s.history, id), MarkFor(v.outcome, v.reason)) else Trail(s.history, id)
    {
      SettleTrail(s.history, v, id);
    }
  }

  /** An act that a step leaves alone stays consistent when its own rows do. */
  lemma ActFrame(s: State, t: State, id: ActionId)
    requires id in s.acts && ActOk(s, id) && id in t.acts && t.acts[id] == s.acts[id]
    requires Trail(t.history, id) == Trail(s.history, id)
    requires OwnedBy(t.history, id, s.acts[id].job.client)
    requires Q.Has(t.queue, id) <==> Q.Has(s.queue, id)
    requires forall r :: r in t.resolutions && r.data.id == id ==> r in s.resolutions
    requires NeedsLock(s.acts[id].stage) ==> id in Held(t.session)
    ensures ActOk(t, id)
  {}
}
