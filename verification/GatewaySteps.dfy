/** Every step of the gateway keeps the invariant, so every reachable state has it. */
module GatewaySteps {
  import opened Common
  import opened Retention
  import opened Ledger
  import opened Gateway
  import opened GatewayInvariant
  import R = Resolutions
  import Q = Queue
  import W = Wire
  import H = Handoff

  // ---------- the store ----------

  ghost predicate SameJobs(s: State, t: State) {
    s.acts.Keys <= t.acts.Keys && forall id :: id in s.acts ==> t.acts[id].job == s.acts[id].job
  }

  /** Moving stages and the session leaves the store as good as it was. */
  lemma StoreFrame(cfg: Config, s: State, t: State)
    requires StoreOk(cfg, s) && SameJobs(s, t)
    requires t == s.(acts := t.acts, session := t.session)
    ensures StoreOk(cfg, t)
  {
    assert HistoryOk(cfg, t);
    assert QueueOk(cfg, t);
    assert ResolutionsOk(cfg, t);
    assert GrantsOk(t);
  }

  lemma StoreRecorded(cfg: Config, s: State, e: Event)
    requires StoreOk(cfg, s) && GoodEvent(s, e)
    ensures StoreOk(cfg, Recorded(cfg, s, e))
  {
    RecordingKeepsHistory(cfg, s, e);
    assert QueueOk(cfg, Recorded(cfg, s, e));
    assert ResolutionsOk(cfg, Recorded(cfg, s, e));
  }

  lemma StoreResolved(cfg: Config, s: State, x: ActionId, status: R.Status, ch: Option<string>, o: Option<string>)
    requires StoreOk(cfg, s) && x in s.acts
    ensures StoreOk(cfg, Resolved(cfg, s, x, status, ch, o))
    ensures forall r :: r in Resolved(cfg, s, x, status, ch, o).resolutions ==>
              if r.data.id == x then r.data.status == status else r in s.resolutions
  {
    var t := Resolved(cfg, s, x, status, ch, o);
    var u := R.Update(x, s.acts[x].job.client, status, ch, o);
    var ttl := cfg.resolutionTtl as real;
    R.PutTouchesOneAction(s.resolutions, u, s.now, ttl, cfg.resolutionMax);
    R.BoundsAreKept(s.resolutions, u, x, s.now, ttl, cfg.resolutionMax);
    R.PutKeepsOwners(s.resolutions, u, s.now, ttl, cfg.resolutionMax);
    assert ResolutionsOk(cfg, t);
    assert HistoryOk(cfg, t);
    assert QueueOk(cfg, t);
  }

  lemma StorePopped(cfg: Config, s: State, x: ActionId)
    requires StoreOk(cfg, s)
    ensures StoreOk(cfg, s.(queue := Q.Without(s.queue, x)))
  {
    var t := s.(queue := Q.Without(s.queue, x));
    Q.WithoutMembers(s.queue, x);
    forall c ensures Q.CountFor(t.queue, c) <= cfg.pendingMax {
      Q.WithoutCount(s.queue, x, c);
      assert Q.CountFor(s.queue, c) <= cfg.pendingMax;
    }
    assert QueueOk(cfg, t);
    assert HistoryOk(cfg, t);
    assert ResolutionsOk(cfg, t);
  }

  lemma StorePushed(cfg: Config, s: State, p: Q.Pending)
    requires StoreOk(cfg, s) && p.id in s.acts && p.job == s.acts[p.id].job
    requires !Q.Has(s.queue, p.id) && Q.CountFor(s.queue, p.job.client) < cfg.pendingMax
    ensures StoreOk(cfg, s.(queue := s.queue + [p]))
    ensures forall id :: Q.Has(s.queue + [p], id) <==> Q.Has(s.queue, id) || id == p.id
  {
    var t := s.(queue := s.queue + [p]);
    assert forall i :: 0 <= i < |s.queue| ==> s.queue[i] in s.queue;
    forall c ensures Q.CountFor(t.queue, c) <= cfg.pendingMax {
      Q.AppendCount(s.queue, p, c);
      assert Q.CountFor(s.queue, c) <= cfg.pendingMax;
    }
    forall id ensures Q.Has(t.queue, id) <==> Q.Has(s.queue, id) || id == p.id {
      assert forall q :: q in t.queue <==> q in s.queue || q == p;
    }
    assert QueueOk(cfg, t);
    assert HistoryOk(cfg, t);
    assert ResolutionsOk(cfg, t);
  }

  // ---------- the acts ----------

  /** What act x's neighbours see of a step that works on x. */
  ghost predicate OthersKept(s: State, t: State, x: ActionId) {
    && t.acts.Keys == s.acts.Keys + {x}
    && (forall id :: id in s.acts && id != x ==> t.acts[id] == s.acts[id])
    && (forall id :: id in s.acts && id != x ==> Trail(t.history, id) == Trail(s.history, id))
    && (forall id :: id in s.acts && id != x && OwnedBy(s.history, id, s.acts[id].job.client) ==>
          OwnedBy(t.history, id, s.acts[id].job.client))
    && (forall id :: id != x ==> (Q.Has(t.queue, id) <==> Q.Has(s.queue, id)))
    && (forall r :: r in t.resolutions && r.data.id != x ==> r in s.resolutions)
    && Held(s.session) <= Held(t.session) + {x}
  }

  lemma ActsFrame(s: State, t: State, x: ActionId)
    requires ActsOk(s) && OthersKept(s, t, x) && ActOk(t, x)
    ensures ActsOk(t)
  {
    forall id | id in t.acts ensures ActOk(t, id) {
      if id != x {
        assert ActOk(s, id);
        ActFrame(s, t, id);
      }
    }
  }

  lemma ActsUntouched(s: State, t: State)
    requires ActsOk(s) && t.acts == s.acts && t.queue == s.queue
    requires forall id :: id in s.acts ==> Trail(t.history, id) == Trail(s.history, id)
    requires forall id :: id in s.acts && OwnedBy(s.history, id, s.acts[id].job.client) ==>
               OwnedBy(t.history, id, s.acts[id].job.client)
    requires forall r :: r in t.resolutions ==> r in s.resolutions
    requires Held(s.session) <= Held(t.session)
    ensures ActsOk(t)
  {
    forall id | id in t.acts ensures ActOk(t, id) {
      assert ActOk(s, id);
      ActFrame(s, t, id);
    }
  }

  lemma ActsStaged(s: State, t: State, x: ActionId, st: Stage)
    requires ActsOk(s) && x in s.acts && t == Staged(s, x, st).(session := t.session)
    requires ExpectedTrail(st) == ExpectedTrail(s.acts[x].stage) && InQueue(st) == InQueue(s.acts[x].stage)
    requires Statuses(s.acts[x].stage) <= Statuses(st) && LimitsOk(st)
    requires (NeedsLock(st) ==> x in Held(t.session)) && Held(s.session) <= Held(t.session) + {x}
    ensures ActsOk(t)
  {
    assert ActOk(s, x);
    ActsFrame(s, t, x);
  }

  lemma RecordedOthers(cfg: Config, s: State, t: State, x: ActionId, o: Outcome, r: Reason, st: Stage)
    requires HistoryOk(cfg, s) && x in s.acts && ActOk(s, x) && Held(s.session) <= Held(t.session) + {x}
    requires t == Staged(Recorded(cfg, s, ActEvent(s, x, o, r)), x, st).(session := t.session)
    ensures OthersKept(s, t, x)
  {
    var e := ActEvent(s, x, o, r);
    RecordingKeepsHistory(cfg, s, e);
    forall id | id in s.acts && id != x ensures Trail(t.history, id) == Trail(s.history, id) {
      assert Added(e, id) == [];
    }
  }

  lemma RecordedOwn(cfg: Config, s: State, t: State, x: ActionId, o: Outcome, r: Reason, st: Stage)
    requires HistoryOk(cfg, s) && x in s.acts && ActOk(s, x)
    requires t == Staged(Recorded(cfg, s, ActEvent(s, x, o, r)), x, st).(session := t.session)
    requires ExpectedTrail(st) == ExpectedTrail(s.acts[x].stage) + [MarkFor(o, r)]
    requires InQueue(st) == InQueue(s.acts[x].stage)
    requires Statuses(s.acts[x].stage) <= Statuses(st) && LimitsOk(st)
    requires NeedsLock(st) ==> x in Held(t.session)
    ensures ActOk(t, x)
  {
    RecordingKeepsHistory(cfg, s, ActEvent(s, x, o, r));
  }

  lemma ActsRecorded(cfg: Config, s: State, t: State, x: ActionId, o: Outcome, r: Reason, st: Stage)
    requires HistoryOk(cfg, s) && ActsOk(s) && x in s.acts
    requires t == Staged(Recorded(cfg, s, ActEvent(s, x, o, r)), x, st).(session := t.session)
    requires ExpectedTrail(st) == ExpectedTrail(s.acts[x].stage) + [MarkFor(o, r)]
    requires InQueue(st) == InQueue(s.acts[x].stage)
    requires Statuses(s.acts[x].stage) <= Statuses(st) && LimitsOk(st)
    requires (NeedsLock(st) ==> x in Held(t.session)) && Held(s.session) <= Held(t.session) + {x}
    ensures ActsOk(t)
  {
    assert ActOk(s, x);
    RecordedOthers(cfg, s, t, x, o, r, st);
    RecordedOwn(cfg, s, t, x, o, r, st);
    ActsFrame(s, t, x);
  }

  lemma ActsResolved(
    cfg: Config, s: State, t: State, x: ActionId, status: R.Status, ch: Option<string>, o: Option<string>, st: Stage)
    requires StoreOk(cfg, s) && ActsOk(s) && x in s.acts
    requires t == Staged(Resolved(cfg, s, x, status, ch, o), x, st).(session := t.session)
    requires ExpectedTrail(st) == ExpectedTrail(s.acts[x].stage) && InQueue(st) == InQueue(s.acts[x].stage)
    requires status in Statuses(st) && LimitsOk(st) && !NeedsLock(st)
    requires Held(s.session) <= Held(t.session) + {x}
    ensures ActsOk(t)
  {
    assert ActOk(s, x);
    StoreResolved(cfg, s, x, status, ch, o);
    assert OthersKept(s, t, x);
    ActsFrame(s, t, x);
  }

  lemma PoppedOthers(s: State, t: State, x: ActionId, st: Stage)
    requires Q.UniqueIds(s.queue) && x in s.acts
    requires t == Staged(s, x, st).(queue := Q.Without(s.queue, x), session := t.session)
    requires Held(s.session) <= Held(t.session)
    ensures OthersKept(s, t, x) && !Q.Has(t.queue, x)
  {
    Q.WithoutMembers(s.queue, x);
  }

  lemma PoppedOwn(s: State, t: State, x: ActionId, st: Stage)
    requires x in s.acts && ActOk(s, x) && s.acts[x].stage.Waiting? && !Q.Has(t.queue, x)
    requires t == Staged(s, x, st).(queue := t.queue, session := t.session)
    requires st.Popped? || (st.Approved? && GrantSize(st.limit))
    requires x in Held(t.session)
    ensures ActOk(t, x)
  {}

  lemma ActsPopped(cfg: Config, s: State, t: State, x: ActionId, st: Stage)
    requires StoreOk(cfg, s) && ActsOk(s) && x in s.acts && s.acts[x].stage.Waiting?
    requires t == Staged(s, x, st).(queue := Q.Without(s.queue, x), session := t.session)
    requires st.Popped? || (st.Approved? && GrantSize(st.limit))
    requires x in Held(t.session) && Held(s.session) <= Held(t.session)
    ensures ActsOk(t)
  {
    PoppedOthers(s, t, x, st);
    assert ActOk(s, x);
    PoppedOwn(s, t, x, st);
    ActsFrame(s, t, x);
  }

  // ---------- the lock holder ----------

  /** Unlocked steps move acts the lock holder is not working on. */
  lemma SessionFrame(s: State, t: State, x: ActionId, a: Act)
    requires SessionOk(s) && t.session == s.session && t.queue == s.queue && t.now == s.now
    requires t.acts == s.acts[x := a]
    requires x in s.acts ==> !NeedsLock(s.acts[x].stage) && !s.acts[x].stage.Listed?
    ensures SessionOk(t)
  {}

  /** Whoever is in the queue while the lock holder is not adding is fully announced. */
  lemma QueuedIsWaiting(s: State, x: ActionId)
    requires ActsOk(s) && SessionOk(s) && x in s.acts && Q.Has(s.queue, x)
    requires s.session.Expiring? || s.session.Purging?
    ensures s.acts[x].stage.Waiting?
  {
    assert ActOk(s, x);
  }

  lemma TodoAfterPop(cfg: Config, s: State, todo: seq<ActionId>)
    requires QueueOk(cfg, s) && TodoOk(s, todo) && todo != []
    ensures TodoOk(s.(queue := Q.Without(s.queue, todo[0])), todo[1..])
  {
    var x := todo[0];
    Q.WithoutMembers(s.queue, x);
    forall id | id in todo[1..] ensures Q.Has(Q.Without(s.queue, x), id) {
      var i :| 0 <= i < |todo[1..]| && todo[1..][i] == id;
      assert todo[i + 1] == id && id in todo && id != x;
      var p := Q.Find(s.queue, id);
      assert p in Q.Without(s.queue, x);
    }
  }

  // ---------- generic steps ----------

  /** Stage b continues stage a after the event marks `ms`. */
  predicate Continues(a: Stage, b: Stage, ms: seq<Mark>) {
    ExpectedTrail(b) == ExpectedTrail(a) + ms && InQueue(b) == InQueue(a) && Statuses(a) <= Statuses(b)
  }

  lemma StagesContinue(a: Stage, limit: int, used: int)
    ensures a.Checked? ==> Continues(a, InFlight(false, limit, used, false), [Mark(Accepted, Some(false))])
    ensures a.Checked? ==> Continues(a, QueueIsFull, [])
    ensures a.Admitted? ==> Continues(a, Listed, [Mark(Queued, None)])
    ensures a.QueueIsFull? ==> Continues(a, TurnedAway, [Mark(Rejected, None)])
    ensures a.Approved? ==> Continues(a, InFlight(true, limit, used, false), [Mark(Accepted, Some(true))])
    ensures a.Popped? ==> Continues(a, Noted(a.exit), [Mark(ExitOutcome(a.exit), None)])
  {}

  lemma RecordStore(cfg: Config, s: State, x: ActionId, o: Outcome, r: Reason, st: Stage, n: Session)
    requires StoreOk(cfg, s) && x in s.acts && ActOk(s, x)
    ensures StoreOk(cfg, Staged(Recorded(cfg, s, ActEvent(s, x, o, r)), x, st).(session := n))
  {
    StoreRecorded(cfg, s, ActEvent(s, x, o, r));
    StoreFrame(cfg, Recorded(cfg, s, ActEvent(s, x, o, r)),
               Staged(Recorded(cfg, s, ActEvent(s, x, o, r)), x, st).(session := n));
  }

  /** A step that records one event of act x and moves its stage. */
  lemma RecordStep(cfg: Config, s: State, x: ActionId, o: Outcome, r: Reason, st: Stage, n: Session)
    requires StoreOk(cfg, s) && ActsOk(s) && x in s.acts
    requires Continues(s.acts[x].stage, st, [MarkFor(o, r)]) && LimitsOk(st)
    requires (NeedsLock(st) ==> x in Held(n)) && Held(s.session) <= Held(n) + {x}
    ensures StoreOk(cfg, Staged(Recorded(cfg, s, ActEvent(s, x, o, r)), x, st).(session := n))
    ensures ActsOk(Staged(Recorded(cfg, s, ActEvent(s, x, o, r)), x, st).(session := n))
  {
    assert ActOk(s, x);
    RecordStore(cfg, s, x, o, r, st, n);
    ActsRecorded(cfg, s, Staged(Recorded(cfg, s, ActEvent(s, x, o, r)), x, st).(session := n), x, o, r, st);
  }

  /** A step that writes the resolution of act x and moves its stage. */
  lemma ResolveStep(
    cfg: Config, s: State, x: ActionId, status: R.Status, ch: Option<string>, o: Option<string>, st: Stage, n: Session)
    requires StoreOk(cfg, s) && ActsOk(s) && x in s.acts
    requires ExpectedTrail(st) == ExpectedTrail(s.acts[x].stage) && InQueue(st) == InQueue(s.acts[x].stage)
    requires status in Statuses(st) && LimitsOk(st) && !NeedsLock(st)
    requires Held(s.session) <= Held(n) + {x}
    ensures StoreOk(cfg, Staged(Resolved(cfg, s, x, status, ch, o), x, st).(session := n))
    ensures ActsOk(Staged(Resolved(cfg, s, x, status, ch, o), x, st).(session := n))
  {
    var t := Staged(Resolved(cfg, s, x, status, ch, o), x, st).(session := n);
    StoreResolved(cfg, s, x, status, ch, o);
    StoreFrame(cfg, Resolved(cfg, s, x, status, ch, o), t);
    ActsResolved(cfg, s, t, x, status, ch, o, st);
  }

  /** A step that takes act x out of the queue. */
  lemma TakeStep(cfg: Config, s: State, x: ActionId, st: Stage, n: Session)
    requires StoreOk(cfg, s) && ActsOk(s) && x in s.acts && s.acts[x].stage.Waiting?
    requires st.Popped? || (st.Approved? && GrantSize(st.limit))
    requires x in Held(n) && Held(s.session) <= Held(n)
    ensures StoreOk(cfg, Taken(s, x, st, n))
    ensures ActsOk(Taken(s, x, st, n))
  {
    StorePopped(cfg, s, x);
    StoreFrame(cfg, s.(queue := Q.Without(s.queue, x)), Taken(s, x, st, n));
    ActsPopped(cfg, s, Taken(s, x, st, n), x, st);
  }

  /** A step that only moves the stage of act x. */
  lemma StageStep(cfg: Config, s: State, x: ActionId, st: Stage, n: Session)
    requires StoreOk(cfg, s) && ActsOk(s) && x in s.acts
    requires ExpectedTrail(st) == ExpectedTrail(s.acts[x].stage) && InQueue(st) == InQueue(s.acts[x].stage)
    requires Statuses(s.acts[x].stage) <= Statuses(st) && LimitsOk(st)
    requires (NeedsLock(st) ==> x in Held(n)) && Held(s.session) <= Held(n) + {x}
    ensures StoreOk(cfg, Staged(s, x, st).(session := n))
    ensures ActsOk(Staged(s, x, st).(session := n))
  {
    StoreFrame(cfg, s, Staged(s, x, st).(session := n));
    ActsStaged(s, Staged(s, x, st).(session := n), x, st);
  }

  // ---------- steps that touch no act ----------

  lemma TickKeeps(cfg: Config, s: State, dt: Time)
    requires Inv(cfg, s) && dt >= 0.0
    ensures Inv(cfg, s.(now := s.now + dt))
  {
    var t := s.(now := s.now + dt);
    ActsUntouched(s, t);
    assert HistoryOk(cfg, t) && QueueOk(cfg, t) && ResolutionsOk(cfg, t);
  }

  lemma GrantsKeep(cfg: Config, s: State, grants: map<ClientId, int>)
    requires Inv(cfg, s) && GrantsOk(s.(grants := grants))
    ensures Inv(cfg, s.(grants := grants))
  {
    var t := s.(grants := grants);
    ActsUntouched(s, t);
    assert HistoryOk(cfg, t) && QueueOk(cfg, t) && ResolutionsOk(cfg, t);
  }

  lemma DenyKeeps(cfg: Config, s: State, c: ClientId, item: string, amount: int, reason: Reason)
    requires Inv(cfg, s) && amount > 0
    ensures Inv(cfg, Denied(cfg, s, c, item, amount, reason))
  {
    var e := EventNow(s, c, item, amount, Rejected, reason, None);
    RecordingKeepsHistory(cfg, s, e);
    StoreRecorded(cfg, s, e);
    ActsUntouched(s, Recorded(cfg, s, e));
  }

  lemma PollKeeps(cfg: Config, s: State, id: ActionId)
    requires Inv(cfg, s)
    ensures Inv(cfg, s.(resolutions := R.Get(s.resolutions, id, s.now, cfg.resolutionTtl as real).1))
  {
    var t := s.(resolutions := R.Get(s.resolutions, id, s.now, cfg.resolutionTtl as real).1);
    var u := R.Update(id, "", R.Queued, None, None);
    R.BoundsAreKept(s.resolutions, u, id, s.now, cfg.resolutionTtl as real, cfg.resolutionMax);
    ActsUntouched(s, t);
    assert HistoryOk(cfg, t) && QueueOk(cfg, t) && ResolutionsOk(cfg, t);
  }

  lemma SweepKeeps(cfg: Config, s: State, k: After)
    requires Inv(cfg, s) && AfterOk(s, k) && Held(s.session) <= QueuedOrder(k)
    ensures Inv(cfg, Sweep(s, k))
  {
    Q.OverdueMembers(s.queue, s.now);
    StoreFrame(cfg, s, Sweep(s, k));
    ActsUntouched(s, Sweep(s, k));
  }

  lemma RevokeKeeps(cfg: Config, s: State, c: ClientId)
    requires Inv(cfg, s) && s.session.Free?
    ensures Inv(cfg, Sweep(s.(grants := s.grants - {c}), ThenRevoke(c)))
  {
    GrantsKeep(cfg, s, s.grants - {c});
    SweepKeeps(cfg, s.(grants := s.grants - {c}), ThenRevoke(c));
  }

  lemma SessionKeeps(cfg: Config, s: State, n: Session)
    requires Inv(cfg, s) && Held(s.session) == {} && SessionOk(s.(session := n))
    ensures Inv(cfg, s.(session := n))
  {
    StoreFrame(cfg, s, s.(session := n));
    ActsUntouched(s, s.(session := n));
  }

  // ---------- the order handler ----------

  lemma {:induction false} TrailOfStranger(log: seq<Event>, id: ActionId)
    requires forall e :: e in log ==> e.data.id != Some(id)
    ensures Trail(log, id) == []
  {
    if log != [] {
      assert log[0] in log;
      TrailOfStranger(log[1..], id);
    }
  }

  lemma ArriveKeeps(cfg: Config, s: State, id: ActionId, job: Job, limit: int)
    requires Inv(cfg, s) && id !in s.acts && GrantSize(limit) && W.OrderInBounds(job.item, job.quantity, job.amount)
    ensures Inv(cfg, s.(acts := s.acts[id := Act(job, Minted(limit))]))
  {
    var t := s.(acts := s.acts[id := Act(job, Minted(limit))]);
    forall e | e in s.history ensures e.data.id != Some(id) {
      assert e.data.id.Some? ==> e.data.id.value in s.acts;
    }
    TrailOfStranger(s.history, id);
    StoreFrame(cfg, s, t);
    assert ActOk(t, id);
    ActsFrame(s, t, id);
    SessionFrame(s, t, id, Act(job, Minted(limit)));
  }

  lemma UsageIsNonNegative(cfg: Config, s: State, c: ClientId)
    requires HistoryOk(cfg, s)
    ensures UsedNow(cfg, s, c) >= 0
  {
    CappedMembers(Since(s.history, s.pruned), cfg.auditMax);
    SinceMembers(s.history, s.pruned);
    UsedNonNegative(s.events, c, Cutoff(cfg, s));
  }

  lemma ReadBudgetKeeps(cfg: Config, s: State, id: ActionId)
    requires Inv(cfg, s) && s.session.Free? && id in s.acts && s.acts[id].stage.Minted?
    ensures Inv(cfg, BudgetRead(cfg, s, id))
  {
    assert ActOk(s, id);
    UsageIsNonNegative(cfg, s, s.acts[id].job.client);
    StageStep(cfg, s, id, Checked, BudgetRead(cfg, s, id).session);
  }

  lemma ReserveKeeps(cfg: Config, s: State)
    requires Inv(cfg, s) && s.session.Budget?
    ensures Inv(cfg, Reserved(cfg, s))
  {
    var n := s.session;
    StagesContinue(s.acts[n.id].stage, n.limit, n.used);
    RecordStep(cfg, s, n.id, Accepted, Handoff(false, InProgress), InFlight(false, n.limit, n.used, false), Free);
  }

  lemma ListKeeps(cfg: Config, s: State)
    requires Inv(cfg, s) && s.session.Listing?
    ensures Inv(cfg, QueueListed(cfg, s))
  {
    var n := s.session;
    StagesContinue(s.acts[n.id].stage, 0, 0);
    RecordStep(cfg, s, n.id, Queued, QueueReason(n), Listed, Announcing(n.id));
  }

  lemma AnnounceKeeps(cfg: Config, s: State)
    requires Inv(cfg, s) && s.session.Announcing?
    ensures Inv(cfg, Announced(cfg, s))
  {
    ResolveStep(cfg, s, s.session.id, R.Queued, None, None, Waiting, Free);
  }

  lemma SameSession(t: State, n: Session)
    requires t.session == n
    ensures t.(session := n) == t
  {}

  lemma FullRecord(cfg: Config, s: State, id: ActionId)
    requires StoreOk(cfg, s) && ActsOk(s) && id in s.acts && s.acts[id].stage.QueueIsFull?
    ensures StoreOk(cfg, FullRefused(cfg, s, id)) && ActsOk(FullRefused(cfg, s, id))
  {
    SameSession(FullRefused(cfg, s, id), s.session);
    StagesContinue(s.acts[id].stage, 0, 0);
    RecordStep(cfg, s, id, Rejected, QueueFull, TurnedAway, s.session);
  }

  lemma FullSession(cfg: Config, s: State, id: ActionId)
    requires SessionOk(s) && id in s.acts && s.acts[id].stage.QueueIsFull?
    ensures SessionOk(FullRefused(cfg, s, id))
  {
    SessionFrame(s, FullRefused(cfg, s, id), id, s.acts[id].(stage := TurnedAway));
  }

  lemma RefuseFullKeeps(cfg: Config, s: State, id: ActionId)
    requires Inv(cfg, s) && id in s.acts && s.acts[id].stage.QueueIsFull?
    ensures Inv(cfg, FullRefused(cfg, s, id))
  {
    FullRecord(cfg, s, id);
    FullSession(cfg, s, id);
  }

  // ---------- leaving the queue ----------

  /** Popping the head of a work list leaves the rest of the list good. */
  lemma PopShrinks(cfg: Config, s: State, t: State, todo: seq<ActionId>)
    requires QueueOk(cfg, s) && TodoOk(s, todo) && todo != []
    requires t.queue == Q.Without(s.queue, todo[0]) && t.now == s.now
    ensures TodoOk(t, todo[1..])
    ensures forall since :: SweepExact(s, todo, since) ==> SweepExact(t, todo[1..], since)
    ensures forall since :: SweepExact(s, [], since) ==> SweepExact(t, [], since)
    ensures forall c :: PurgeExact(s, todo, c) ==> PurgeExact(t, todo[1..], c)
  {
    TodoAfterPop(cfg, s, todo);
    Q.WithoutMembers(s.queue, todo[0]);
    assert todo == [todo[0]] + todo[1..];
  }

  lemma PoppedSession(cfg: Config, s: State)
    requires QueueOk(cfg, s) && SessionOk(s) && Enabled(cfg, s, PopOverdue) && s.acts[s.session.todo[0]].stage.Waiting?
    ensures SessionOk(OverduePopped(s))
  {
    PopShrinks(cfg, s, OverduePopped(s), s.session.todo);
  }

  lemma PurgedSession(cfg: Config, s: State)
    requires QueueOk(cfg, s) && SessionOk(s) && Enabled(cfg, s, PopPurged)
    ensures SessionOk(PurgedPopped(s))
  {
    PopShrinks(cfg, s, PurgedPopped(s), s.session.todo);
  }

  lemma PopOverdueKeeps(cfg: Config, s: State)
    requires Inv(cfg, s) && s.session.Expiring? && s.session.todo != []
    ensures s.session.todo[0] in s.acts && Inv(cfg, OverduePopped(s))
  {
    var n := s.session;
    assert n.todo[0] in n.todo && Q.Has(s.queue, n.todo[0]);
    QueuedIsWaiting(s, n.todo[0]);
    TakeStep(cfg, s, n.todo[0], Popped(TimedOut), OverduePopped(s).session);
    PoppedSession(cfg, s);
  }

  lemma PopPurgedKeeps(cfg: Config, s: State)
    requires Inv(cfg, s) && s.session.Purging? && s.session.todo != []
    ensures s.session.todo[0] in s.acts && Inv(cfg, PurgedPopped(s))
  {
    var n := s.session;
    assert n.todo[0] in n.todo && Q.Has(s.queue, n.todo[0]);
    QueuedIsWaiting(s, n.todo[0]);
    TakeStep(cfg, s, n.todo[0], Popped(Purged), PurgedPopped(s).session);
    PurgedSession(cfg, s);
  }

  lemma NoteKeeps(cfg: Config, s: State)
    requires Inv(cfg, s) && s.session.Noting?
    ensures Inv(cfg, ExitNoted(cfg, s))
  {
    var n := s.session;
    StagesContinue(s.acts[n.id].stage, 0, 0);
    RecordStep(cfg, s, n.id, ExitOutcome(n.exit), ExitReason(n.exit), Noted(n.exit), ExitNoted(cfg, s).session);
  }

  lemma ResumeHolds(s: State)
    requires SessionOk(s) && s.session.Resolving?
    ensures var n := s.session;
            && n.id in s.acts && s.acts[n.id].stage == Noted(n.exit)
            && Held(n) <= Held(Resume(n.exit, n.todo, n.since, n.k)) + {n.id}
  {}

  lemma LeftStep(cfg: Config, s: State, x: ActionId, exit: Exit, n: Session)
    requires StoreOk(cfg, s) && ActsOk(s) && x in s.acts && s.acts[x].stage == Noted(exit)
    requires Held(s.session) <= Held(n) + {x}
    ensures var t := Staged(Resolved(cfg, s, x, ExitStatus(exit), None, None), x, Left(exit)).(session := n);
            StoreOk(cfg, t) && ActsOk(t)
  {
    ResolveStep(cfg, s, x, ExitStatus(exit), None, None, Left(exit), n);
  }

  lemma ResumedSession(cfg: Config, s: State)
    requires SessionOk(s) && s.session.Resolving?
    ensures SessionOk(ExitResolved(cfg, s))
  {}

  lemma ResolveKeeps(cfg: Config, s: State)
    requires Inv(cfg, s) && s.session.Resolving?
    ensures Inv(cfg, ExitResolved(cfg, s))
  {
    ResumeHolds(s);
    LeftStep(cfg, s, s.session.id, s.session.exit, ExitResolved(cfg, s).session);
    ResumedSession(cfg, s);
  }

  // ---------- after the sweep ----------

  lemma AdmittedOthers(s: State, p: Q.Pending, n: Session)
    requires p.id in s.acts && Held(s.session) <= Held(n)
    requires forall id :: Q.Has(s.queue + [p], id) <==> Q.Has(s.queue, id) || id == p.id
    ensures OthersKept(s, QueuedUp(s, p, n), p.id)
  {}

  lemma AdmittedOwn(s: State, p: Q.Pending, n: Session)
    requires p.id in s.acts && s.acts[p.id].stage.Checked? && ActOk(s, p.id) && Q.Has(s.queue + [p], p.id)
    requires p.id in Held(n)
    ensures ActOk(QueuedUp(s, p, n), p.id)
  {}

  lemma AdmittedActs(cfg: Config, s: State, p: Q.Pending, n: Session)
    requires ActsOk(s) && p.id in s.acts && s.acts[p.id].stage.Checked?
    requires forall id :: Q.Has(s.queue + [p], id) <==> Q.Has(s.queue, id) || id == p.id
    requires p.id in Held(n) && Held(s.session) <= Held(n)
    ensures ActsOk(QueuedUp(s, p, n))
  {
    assert ActOk(s, p.id);
    AdmittedOthers(s, p, n);
    AdmittedOwn(s, p, n);
    ActsFrame(s, QueuedUp(s, p, n), p.id);
  }

  lemma AdmitStep(cfg: Config, s: State, p: Q.Pending, n: Session)
    requires StoreOk(cfg, s) && ActsOk(s) && p.id in s.acts && s.acts[p.id].stage.Checked? && p.job == s.acts[p.id].job
    requires Q.CountFor(s.queue, p.job.client) < cfg.pendingMax
    requires p.id in Held(n) && Held(s.session) <= Held(n)
    ensures StoreOk(cfg, QueuedUp(s, p, n))
    ensures ActsOk(QueuedUp(s, p, n))
  {
    assert !Q.Has(s.queue, p.id) by { assert ActOk(s, p.id); }
    StorePushed(cfg, s, p);
    StoreFrame(cfg, s.(queue := s.queue + [p]), QueuedUp(s, p, n));
    AdmittedActs(cfg, s, p, n);
  }

  lemma TurnBackKeeps(cfg: Config, s: State, id: ActionId)
    requires Inv(cfg, s) && s.session.Expiring? && s.session.k.ThenQueue? && id == s.session.k.id
    ensures Inv(cfg, Staged(s, id, QueueIsFull).(session := Free))
  {
    StagesContinue(s.acts[id].stage, 0, 0);
    StageStep(cfg, s, id, QueueIsFull, Free);
  }

  lemma QueueUpKeeps(cfg: Config, s: State, p: Q.Pending, n: Session)
    requires Inv(cfg, s) && s.session.Expiring? && s.session.k.ThenQueue? && p.id == s.session.k.id
    requires p.job == s.acts[p.id].job && Q.CountFor(s.queue, p.job.client) < cfg.pendingMax
    requires n.Listing? && n.id == p.id
    ensures Inv(cfg, QueuedUp(s, p, n))
  {
    AdmitStep(cfg, s, p, n);
  }

  lemma QueueFullKeeps(cfg: Config, s: State)
    requires Inv(cfg, s) && s.session.Expiring? && s.session.k.ThenQueue?
    requires Q.CountFor(s.queue, s.acts[s.session.k.id].job.client) >= cfg.pendingMax
    ensures Inv(cfg, QueueTried(cfg, s))
  {
    assert QueueTried(cfg, s) == Staged(s, s.session.k.id, QueueIsFull).(session := Free);
    TurnBackKeeps(cfg, s, s.session.k.id);
  }

  lemma QueueTriedRoom(cfg: Config, s: State, p: Q.Pending)
    requires s.session.Expiring? && s.session.k.ThenQueue? && s.session.k.id in s.acts
    requires p == Q.Pending(s.session.k.id, s.acts[s.session.k.id].job, s.now, s.now + cfg.pendingTtl as real)
    requires Q.CountFor(s.queue, s.acts[s.session.k.id].job.client) < cfg.pendingMax
    ensures QueueTried(cfg, s) == QueuedUp(s, p, Listing(p.id, s.session.k.limit, s.session.k.used))
  {}

  lemma QueueRoomKeeps(cfg: Config, s: State)
    requires Inv(cfg, s) && s.session.Expiring? && s.session.k.ThenQueue?
    requires Q.CountFor(s.queue, s.acts[s.session.k.id].job.client) < cfg.pendingMax
    ensures Inv(cfg, QueueTried(cfg, s))
  {
    var k := s.session.k;
    var p := Q.Pending(k.id, s.acts[k.id].job, s.now, s.now + cfg.pendingTtl as real);
    QueueTriedRoom(cfg, s, p);
    QueueUpKeeps(cfg, s, p, Listing(k.id, k.limit, k.used));
  }

  lemma QueueKeeps(cfg: Config, s: State)
    requires Inv(cfg, s) && s.session.Expiring? && s.session.k.ThenQueue?
    ensures Inv(cfg, QueueTried(cfg, s))
  {
    if Q.CountFor(s.queue, s.acts[s.session.k.id].job.client) >= cfg.pendingMax {
      QueueFullKeeps(cfg, s);
    } else {
      QueueRoomKeeps(cfg, s);
    }
  }

  lemma GrantedKeeps(cfg: Config, s: State, x: ActionId, limit: int)
    requires Inv(cfg, s) && x in s.acts && s.acts[x].stage.Waiting? && Held(s.session) == {} && GrantSize(limit)
    ensures Inv(cfg, Taken(s, x, Approved(limit), Reserving(x, limit)))
  {
    TakeStep(cfg, s, x, Approved(limit), Reserving(x, limit));
  }

  /** A human's "no", or a "yes" to a client without a grant. */
  lemma DecidedKeeps(cfg: Config, s: State, x: ActionId, exit: Exit, since: Time)
    requires Inv(cfg, s) && x in s.acts && s.acts[x].stage.Waiting? && Held(s.session) == {}
    requires exit.ApprovalRefused? || exit.Declined?
    ensures Inv(cfg, Taken(s, x, Popped(exit), Noting(x, exit, [], since, ThenNothing)))
  {
    TakeStep(cfg, s, x, Popped(exit), Noting(x, exit, [], since, ThenNothing));
  }

  lemma ApproveKeeps(cfg: Config, s: State)
    requires Inv(cfg, s) && s.session.Expiring? && s.session.k.ThenApprove?
    ensures Inv(cfg, ApprovalTaken(s))
  {
    var x := s.session.k.id;
    if Q.Has(s.queue, x) {
      var c := Q.Find(s.queue, x).job.client;
      QueuedIsWaiting(s, x);
      if c in s.grants {
        GrantedKeeps(cfg, s, x, s.grants[c]);
      } else {
        DecidedKeeps(cfg, s, x, ApprovalRefused, s.session.since);
      }
    } else {
      SessionKeeps(cfg, s, Free);
    }
  }

  lemma RejectKeeps(cfg: Config, s: State)
    requires Inv(cfg, s) && s.session.Expiring? && s.session.k.ThenReject?
    ensures Inv(cfg, RejectionTaken(s))
  {
    var x := s.session.k.id;
    if Q.Has(s.queue, x) {
      QueuedIsWaiting(s, x);
      DecidedKeeps(cfg, s, x, Declined, s.session.since);
    } else {
      SessionKeeps(cfg, s, Free);
    }
  }

  lemma SweptKeeps(cfg: Config, s: State)
    requires Inv(cfg, s) && s.session.Expiring? && s.session.todo == []
    ensures Inv(cfg, AfterSweep(cfg, s))
  {
    match s.session.k {
      case ThenQueue(_, _, _) => QueueKeeps(cfg, s);
      case ThenApprove(_) => ApproveKeeps(cfg, s);
      case ThenReject(_) => RejectKeeps(cfg, s);
      case ThenNothing => SessionKeeps(cfg, s, Free);
      case ThenRevoke(c) =>
        Q.IdsOfMembers(s.queue, c);
        SessionKeeps(cfg, s, Purging(Q.IdsOf(s.queue, c), s.session.since, c));
    }
  }

  lemma ReserveApprovedKeeps(cfg: Config, s: State)
    requires Inv(cfg, s) && s.session.Reserving?
    ensures Inv(cfg, ApprovalReserved(cfg, s))
  {
    var n := s.session;
    var used := UsedNow(cfg, s, s.acts[n.id].job.client);
    assert GrantSize(n.limit) && used >= 0 by {
      assert ActOk(s, n.id);
      UsageIsNonNegative(cfg, s, s.acts[n.id].job.client);
    }
    StagesContinue(s.acts[n.id].stage, n.limit, used);
    RecordStep(cfg, s, n.id, Accepted, Handoff(true, InProgress), InFlight(true, n.limit, used, false), Free);
  }

  // ---------- the handoff and its settlement ----------

  lemma InFlightKeeps(cfg: Config, s: State, x: ActionId, st: Stage)
    requires Inv(cfg, s) && x in s.acts && s.acts[x].stage.InFlight?
    requires (st.InFlight? || st.Answered? || st.Crashed?) && st.byHuman == s.acts[x].stage.byHuman && LimitsOk(st)
    ensures Inv(cfg, Staged(s, x, st))
  {
    StageStep(cfg, s, x, st, s.session);
    SessionFrame(s, Staged(s, x, st), x, s.acts[x].(stage := st));
  }

  lemma RetryKeeps(cfg: Config, s: State, id: ActionId)
    requires id in s.acts && s.acts[id].stage.InFlight? && Inv(cfg, s)
    ensures Inv(cfg, Staged(s, id, s.acts[id].stage.(retried := true)))
  {
    assert LimitsOk(s.acts[id].stage) by { assert ActOk(s, id); }
    InFlightKeeps(cfg, s, id, s.acts[id].stage.(retried := true));
  }

  lemma ReturnKeeps(cfg: Config, s: State, id: ActionId, outcome: H.Outcome)
    requires id in s.acts && s.acts[id].stage.InFlight? && Inv(cfg, s)
    ensures Inv(cfg, HandoffReturned(s, id, outcome))
  {
    InFlightKeeps(cfg, s, id, HandoffReturned(s, id, outcome).acts[id].stage);
  }

  lemma SettledTrail(id: ActionId, st: Stage)
    requires st.Answered?
    ensures Amended(ExpectedTrail(st), MarkFor(SettlementOf(id, st).outcome, SettlementOf(id, st).reason))
         == ExpectedTrail(Settled(st.byHuman, st.result))
  {
    AmendedLast(QueuePart(st.byHuman), Mark(Accepted, Some(st.byHuman)),
                Mark(SettledOutcome(st.result), Some(st.byHuman)));
  }

  lemma AmendedLast(t: seq<Mark>, last: Mark, o: Mark)
    ensures Amended(t + [last], o) == t + [o]
  {}

  lemma SettledStore(cfg: Config, s: State, id: ActionId)
    requires StoreOk(cfg, s) && id in s.acts && ActOk(s, id) && s.acts[id].stage.Answered?
    ensures StoreOk(cfg, EventSettled(s, id))
  {
    var t, v := EventSettled(s, id), SettlementOf(id, s.acts[id].stage);
    var m := s.(events := t.events, history := t.history);
    SettlingKeepsHistory(cfg, s, v);
    assert QueueOk(cfg, m) && ResolutionsOk(cfg, m);
    StoreFrame(cfg, m, t);
  }

  lemma SettledOthers(cfg: Config, s: State, id: ActionId)
    requires HistoryOk(cfg, s) && id in s.acts && ActOk(s, id) && s.acts[id].stage.Answered?
    ensures OthersKept(s, EventSettled(s, id), id)
  {
    SettlingKeepsHistory(cfg, s, SettlementOf(id, s.acts[id].stage));
  }

  lemma SettledOwn(cfg: Config, s: State, id: ActionId)
    requires HistoryOk(cfg, s) && id in s.acts && ActOk(s, id) && s.acts[id].stage.Answered?
    ensures ActOk(EventSettled(s, id), id)
  {
    var st, t := s.acts[id].stage, EventSettled(s, id);
    assert Trail(t.history, id) == ExpectedTrail(t.acts[id].stage) && OwnedBy(t.history, id, s.acts[id].job.client) by {
      SettlingKeepsHistory(cfg, s, SettlementOf(id, st));
      SettledTrail(id, st);
    }
  }

  lemma SettledActs(cfg: Config, s: State, id: ActionId)
    requires HistoryOk(cfg, s) && ActsOk(s) && id in s.acts && s.acts[id].stage.Answered?
    ensures ActsOk(EventSettled(s, id))
  {
    assert ActOk(s, id);
    SettledOthers(cfg, s, id);
    SettledOwn(cfg, s, id);
    ActsFrame(s, EventSettled(s, id), id);
  }

  lemma SettleEventKeeps(cfg: Config, s: State, id: ActionId)
    requires Inv(cfg, s) && id in s.acts && s.acts[id].stage.Answered?
    ensures Inv(cfg, EventSettled(s, id))
  {
    assert ActOk(s, id);
    SettledStore(cfg, s, id);
    SettledActs(cfg, s, id);
    var st := s.acts[id].stage;
    SessionFrame(s, EventSettled(s, id), id, s.acts[id].(stage := Settled(st.byHuman, st.result)));
  }

  lemma FinalResolution(cfg: Config, s: State, x: ActionId, ch: Option<string>, o: Option<string>, st: Stage)
    requires StoreOk(cfg, s) && ActsOk(s) && x in s.acts && s.acts[x].stage.Settled?
    requires st == Finished(s.acts[x].stage.byHuman, s.acts[x].stage.result)
    ensures StoreOk(cfg, Staged(Resolved(cfg, s, x, FinalStatus(st.result), ch, o), x, st))
    ensures ActsOk(Staged(Resolved(cfg, s, x, FinalStatus(st.result), ch, o), x, st))
  {
    SameSession(Staged(Resolved(cfg, s, x, FinalStatus(st.result), ch, o), x, st), s.session);
    ResolveStep(cfg, s, x, FinalStatus(st.result), ch, o, st, s.session);
  }

  lemma FinalSession(cfg: Config, s: State, id: ActionId)
    requires SessionOk(s) && id in s.acts && s.acts[id].stage.Settled?
    ensures SessionOk(ResolutionSettled(cfg, s, id))
  {
    var t := ResolutionSettled(cfg, s, id);
    SessionFrame(s, t, id, t.acts[id]);
  }

  lemma SettleResolutionKeeps(cfg: Config, s: State, id: ActionId)
    requires Inv(cfg, s) && id in s.acts && s.acts[id].stage.Settled?
    ensures Inv(cfg, ResolutionSettled(cfg, s, id))
  {
    var r := s.acts[id].stage.result;
    var st := Finished(s.acts[id].stage.byHuman, r);
    FinalResolution(cfg, s, id, SettledChannel(r), SettledOrder(r), st);
    FinalSession(cfg, s, id);
  }

  // ---------- every step ----------

  predicate HoldsLock(step: Step) {
    step.Reserve? || step.ExceedMandate? || step.PopOverdue? || step.Note? || step.Resolve? || step.Swept?
    || step.List? || step.Announce? || step.ReserveApproved? || step.PopPurged? || step.EndPurge?
  }

  predicate TakesLock(step: Step) {
    step.ReadBudget? || step.StartApprove? || step.StartReject? || step.StartRevoke? || step.StartSweep?
  }

  /** The steps that take actions out of the queue and see them off. */
  predicate ClearsQueue(step: Step) {
    step.PopOverdue? || step.Note? || step.Resolve? || step.Swept? || step.PopPurged? || step.EndPurge?
  }

  lemma ClearingStepKeeps(cfg: Config, s: State, step: Step)
    requires Inv(cfg, s) && Enabled(cfg, s, step) && ClearsQueue(step)
    ensures Inv(cfg, Next(cfg, s, step))
  {
    match step {
      case PopOverdue => PopOverdueKeeps(cfg, s);
      case Note => NoteKeeps(cfg, s);
      case Resolve => ResolveKeeps(cfg, s);
      case Swept => SweptKeeps(cfg, s);
      case PopPurged => PopPurgedKeeps(cfg, s);
      case EndPurge => SessionKeeps(cfg, s, Free);
    }
  }

  lemma AddingStepKeeps(cfg: Config, s: State, step: Step)
    requires Inv(cfg, s) && Enabled(cfg, s, step) && HoldsLock(step) && !ClearsQueue(step)
    ensures Inv(cfg, Next(cfg, s, step))
  {
    match step {
      case Reserve => ReserveKeeps(cfg, s);
      case ExceedMandate => SweepKeeps(cfg, s, ThenQueue(s.session.id, s.session.limit, s.session.used));
      case List => ListKeeps(cfg, s);
      case Announce => AnnounceKeeps(cfg, s);
      case ReserveApproved => ReserveApprovedKeeps(cfg, s);
    }
  }

  lemma LockedStepKeeps(cfg: Config, s: State, step: Step)
    requires Inv(cfg, s) && Enabled(cfg, s, step) && HoldsLock(step)
    ensures Inv(cfg, Next(cfg, s, step))
  {
    if ClearsQueue(step) {
      ClearingStepKeeps(cfg, s, step);
    } else {
      AddingStepKeeps(cfg, s, step);
    }
  }

  lemma LockingStepKeeps(cfg: Config, s: State, step: Step)
    requires Inv(cfg, s) && Enabled(cfg, s, step) && TakesLock(step)
    ensures Inv(cfg, Next(cfg, s, step))
  {
    match step {
      case ReadBudget(id) => ReadBudgetKeeps(cfg, s, id);
      case StartApprove(id) => SweepKeeps(cfg, s, ThenApprove(id));
      case StartReject(id) => SweepKeeps(cfg, s, ThenReject(id));
      case StartRevoke(c) => RevokeKeeps(cfg, s, c);
      case StartSweep => SweepKeeps(cfg, s, ThenNothing);
    }
  }

  predicate OfOneAct(step: Step) {
    step.Retry? || step.Return? || step.SettleEvent? || step.SettleResolution?
  }

  lemma ActStepKeeps(cfg: Config, s: State, step: Step)
    requires Inv(cfg, s) && Enabled(cfg, s, step) && OfOneAct(step)
    ensures Inv(cfg, Next(cfg, s, step))
  {
    match step {
      case Retry(id) => RetryKeeps(cfg, s, id);
      case Return(id, outcome) => ReturnKeeps(cfg, s, id, outcome);
      case SettleEvent(id) => SettleEventKeeps(cfg, s, id);
      case SettleResolution(id) => SettleResolutionKeeps(cfg, s, id);
    }
  }

  lemma OtherStepKeeps(cfg: Config, s: State, step: Step)
    requires Inv(cfg, s) && Enabled(cfg, s, step) && !HoldsLock(step) && !TakesLock(step) && !OfOneAct(step)
    ensures Inv(cfg, Next(cfg, s, step))
  {
    match step {
      case Tick(dt) => TickKeeps(cfg, s, dt);
      case PutGrant(c, limit) => GrantsKeep(cfg, s, s.grants[c := limit]);
      case DenyUnknown(item, amount, reason) => DenyKeeps(cfg, s, "unknown", item, amount, reason);
      case DenyNoGrant(c, item, amount) => DenyKeeps(cfg, s, c, item, amount, NoGrant);
      case Arrive(id, job) => ArriveKeeps(cfg, s, id, job, s.grants[job.client]);
      case RefuseFull(id) => RefuseFullKeeps(cfg, s, id);
      case Poll(id) => PollKeeps(cfg, s, id);
    }
  }

  lemma {:induction false} StepKeeps(cfg: Config, s: State, step: Step)
    requires Inv(cfg, s) && Enabled(cfg, s, step)
    ensures Inv(cfg, Next(cfg, s, step))
  {
    if HoldsLock(step) {
      LockedStepKeeps(cfg, s, step);
    } else if TakesLock(step) {
      LockingStepKeeps(cfg, s, step);
    } else if OfOneAct(step) {
      ActStepKeeps(cfg, s, step);
    } else {
      OtherStepKeeps(cfg, s, step);
    }
  }

  lemma InitHolds(cfg: Config, s: State)
    requires Init(cfg, s)
    ensures Inv(cfg, s)
  {
    assert HistoryOk(cfg, s) && ResolutionsOk(cfg, s) && QueueOk(cfg, s);
  }

  /** The invariant holds at every point of every run. */
  lemma {:induction false} Reachable(cfg: Config, ss: seq<State>, steps: seq<Step>, i: nat)
    requires IsRun(cfg, ss, steps) && i < |ss|
    ensures Inv(cfg, ss[i])
  {
    if i == 0 {
      InitHolds(cfg, ss[0]);
    } else {
      Reachable(cfg, ss, steps, i - 1);
      StepKeeps(cfg, ss[i - 1], steps[i - 1]);
    }
  }
}
