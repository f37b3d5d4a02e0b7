/**
 The store as the program holds it: tables that each call updates in place. Every method is proved to do
 what the state machine's steps do to the same tables.
 */
module StoreObject {
  import opened Common
  import opened Retention
  import opened Ledger
  import G = Gateway
  import L = RateLimit
  import Q = Queue
  import R = Resolutions

  /** The backward counting scan that both prunes share: collect newest first, then reverse. */
  method KeepNewestPerClient<D>(rows: seq<Row<D>>, cap: nat) returns (kept: seq<Row<D>>)
    ensures kept == Capped(rows, cap)
  {
    var perClient: map<ClientId, nat> := map[];
    var newestFirst: seq<Row<D>> := [];
    var i := |rows|;
    while i > 0
      invariant 0 <= i <= |rows|
      invariant forall c :: (if c in perClient then perClient[c] else 0) == CountOf(rows[i..], c)
      invariant Reverse(newestFirst) == Capped(rows[i..], cap)
    {
      i := i - 1;
      var r := rows[i];
      assert rows[i..] == [r] + rows[i + 1..];
      CappedCons(r, rows[i + 1..], cap);
      forall c ensures CountOf(rows[i..], c) == CountOf(rows[i + 1..], c) + if c == r.client then 1 else 0 {
        OfCons(r, rows[i + 1..], c);
      }
      perClient := perClient[r.client := (if r.client in perClient then perClient[r.client] else 0) + 1];
      if perClient[r.client] <= cap {
        ReverseAppend(newestFirst, r);
        newestFirst := newestFirst + [r];
      }
    }
    assert rows[0..] == rows;
    kept := Reverse(newestFirst);
  }

  class Store {
    const cfg: G.Config
    var events: seq<Event>
    var pending: seq<Q.Pending>
    var resolutions: seq<R.Resolution>
    var rateLimitHits: L.Hits

    constructor (cfg: G.Config)
      ensures this.cfg == cfg && events == [] && pending == [] && resolutions == [] && rateLimitHits == map[]
    {
      this.cfg := cfg;
      events, pending, resolutions, rateLimitHits := [], [], [], map[];
    }

    /** `check_rate_limit`. */
    method CheckRateLimit(c: L.Call) returns (allowed: bool)
      modifies this`rateLimitHits
      ensures rateLimitHits == L.Step(old(rateLimitHits), c)
      ensures allowed == L.Allowed(old(rateLimitHits), c)
    {
      var key := L.Key(c.bucket, c.address);
      var hits := L.Recent(L.Lookup(rateLimitHits, key), c.at, c.window);
      hits := hits + [c.at];
      rateLimitHits := rateLimitHits[key := hits];
      allowed := |hits| <= c.max;
    }

    /** `record_tier3_event`: append, age out, then keep each client's newest events by a reversed counting scan. */
    method RecordTier3Event(e: Event)
      modifies this`events
      ensures events == Record(old(events), e, cfg.window as real, cfg.auditMax)
    {
      events := events + [e];
      events := Since(events, e.at - cfg.window as real);
      events := KeepNewestPerClient(events, cfg.auditMax);
    }

    /** `tier3_used_cents`. */
    method Tier3UsedCents(client: ClientId, now: Time) returns (used: int)
      ensures used == Used(events, client, now - cfg.window as real)
    {
      var cutoff := now - cfg.window as real;
      used := 0;
      for i := 0 to |events|
        invariant used + Used(events[i..], client, cutoff) == Used(events, client, cutoff)
      {
        assert events[i..][1..] == events[i + 1..];
        var e := events[i];
        if e.client == client && e.data.outcome == Accepted && e.at >= cutoff {
          used := used + e.data.amount;
        }
      }
    }

    /** `settle_tier3_event`: search newest first, rewrite the first hit, stop. */
    method SettleTier3Event(v: Settlement)
      modifies this`events
      ensures events == Settle(old(events), v)
    {
      NewestWithIsNewest(events, v.id);
      var i := |events|;
      while i > 0
        invariant 0 <= i <= |events| && events == old(events)
        invariant forall j :: i <= j < |events| ==> events[j].data.id != Some(v.id)
      {
        i := i - 1;
        if events[i].data.id == Some(v.id) {
          events := events[i := Resettled(events[i], v)];
          return;
        }
      }
    }

    /** `queue_tier3_action`. */
    method QueueTier3Action(id: ActionId, job: Job, now: Time) returns (action: Q.Pending)
      modifies this`pending
      ensures action == Q.Pending(id, job, now, now + cfg.pendingTtl as real)
      ensures pending == Q.Enqueue(old(pending), action)
      ensures !Q.Has(old(pending), id) ==> pending == old(pending) + [action]
      ensures Q.UniqueIds(old(pending)) && Q.Has(old(pending), id) ==>
                |pending| == |old(pending)| && forall i :: 0 <= i < |pending| ==>
                  pending[i] == if old(pending)[i].id == id then action else old(pending)[i]
    {
      action := Q.Pending(id, job, now, now + cfg.pendingTtl as real);
      if !Q.Has(pending, id) {
        Q.EnqueueNew(pending, action);
      } else if Q.UniqueIds(pending) {
        Q.EnqueueKnown(pending, action);
      }
      pending := Q.Enqueue(pending, action);
    }

    /** `set_tier3_resolution`: update in place, or insert, age out and cap each client, keeping insertion order. */
    method SetTier3Resolution(u: R.Update, now: Time)
      modifies this`resolutions
      ensures resolutions == R.Put(old(resolutions), u, now, cfg.resolutionTtl as real, cfg.resolutionMax)
    {
      var k := R.IndexOf(resolutions, u.id);
      if k >= 0 {
        resolutions := resolutions[k := R.Refreshed(resolutions[k], u, now)];
        return;
      }
      resolutions := resolutions + [R.Created(u, now)];
      resolutions := Since(resolutions, now - cfg.resolutionTtl as real);
      resolutions := KeepNewestPerClient(resolutions, cfg.resolutionMax);
    }

    /** `get_tier3_resolution`: a stale entry is dropped when it is looked up. */
    method GetTier3Resolution(id: ActionId, now: Time) returns (r: Option<R.Resolution>)
      modifies this`resolutions
      ensures (r, resolutions) == R.Get(old(resolutions), id, now, cfg.resolutionTtl as real)
    {
      var k := R.IndexOf(resolutions, id);
      if k < 0 {
        return None;
      }
      if now - resolutions[k].at > cfg.resolutionTtl as real {
        resolutions := resolutions[..k] + resolutions[k + 1..];
        return None;
      }
      r := Some(resolutions[k]);
    }

    /** One round of the sweep: pop, audit, resolve. */
    method ExpireOne(id: ActionId, now: Time)
      requires Q.Has(pending, id)
      modifies this`events, this`pending, this`resolutions
      ensures Tables(events, pending, resolutions) ==
              Expire(cfg, old(Tables(events, pending, resolutions)), Q.Find(old(pending), id), now)
    {
      var p := Q.Find(pending, id);
      pending := Q.Without(pending, id);
      RecordTier3Event(ExpiryEvent(p, now));
      SetTier3Resolution(ExpiryUpdate(p), now);
    }

    /** `prune_tier3_pending`, at one reading of the clock: pop, audit and resolve every overdue entry. */
    method PruneTier3Pending(now: Time)
      requires Q.UniqueIds(pending)
      modifies this`events, this`pending, this`resolutions
      ensures Tables(events, pending, resolutions) ==
              SweepAll(cfg, old(Tables(events, pending, resolutions)), Q.Overdue(old(pending), now), now)
      ensures pending == Live(old(pending), now)
    {
      ghost var start := Tables(events, pending, resolutions);
      var overdue := Q.Overdue(pending, now);
      SweepLeavesLive(cfg, start, now);
      Q.OverdueAreQueued(pending, now);
      for i := 0 to |overdue|
        invariant Q.UniqueIds(pending) && forall j :: i <= j < |overdue| ==> Q.Has(pending, overdue[j])
        invariant SweepAll(cfg, Tables(events, pending, resolutions), overdue[i..], now)
               == SweepAll(cfg, start, overdue, now)
      {
        StillQueued(pending, overdue, i);
        SweepStep(cfg, Tables(events, pending, resolutions), overdue, i, now);
        ExpireOne(overdue[i], now);
      }
      assert overdue[|overdue|..] == [];
    }
  }

  // ---------- the sweep as a function on the tables ----------

  lemma StillQueued(q: seq<Q.Pending>, ids: seq<ActionId>, i: nat)
    requires Q.UniqueIds(q) && Q.Distinct(ids) && i < |ids|
    requires forall j :: i <= j < |ids| ==> Q.Has(q, ids[j])
    ensures Q.UniqueIds(Q.Without(q, ids[i]))
    ensures forall j :: i < j < |ids| ==> Q.Has(Q.Without(q, ids[i]), ids[j])
  {
    Q.WithoutMembers(q, ids[i]);
    forall j | i < j < |ids| ensures Q.Has(Q.Without(q, ids[i]), ids[j]) {
      var p := Q.Find(q, ids[j]);
      assert p in Q.Without(q, ids[i]);
    }
  }

  datatype Tables = Tables(events: seq<Event>, pending: seq<Q.Pending>, resolutions: seq<R.Resolution>)

  function ExpiryEvent(p: Q.Pending, now: Time): Event {
    Row(p.job.client, now, Entry(p.job.item, p.job.amount, Expired, ApprovalExpired, None, Some(p.id)))
  }

  function ExpiryUpdate(p: Q.Pending): R.Update { R.Update(p.id, p.job.client, R.Expired, None, None) }

  function Expire(cfg: G.Config, t: Tables, p: Q.Pending, now: Time): Tables {
    Tables(Record(t.events, ExpiryEvent(p, now), cfg.window as real, cfg.auditMax),
           Q.Without(t.pending, p.id),
           R.Put(t.resolutions, ExpiryUpdate(p), now, cfg.resolutionTtl as real, cfg.resolutionMax))
  }

  function SweepAll(cfg: G.Config, t: Tables, ids: seq<ActionId>, now: Time): Tables
    decreases ids
  {
    if ids == [] then t
    else
      var u := if Q.Has(t.pending, ids[0]) then Expire(cfg, t, Q.Find(t.pending, ids[0]), now) else t;
      SweepAll(cfg, u, ids[1..], now)
  }

  lemma SweepStep(cfg: G.Config, t: Tables, ids: seq<ActionId>, i: nat, now: Time)
    requires i < |ids| && Q.Has(t.pending, ids[i])
    ensures SweepAll(cfg, t, ids[i..], now)
         == SweepAll(cfg, Expire(cfg, t, Q.Find(t.pending, ids[i]), now), ids[i + 1..], now)
  {
    assert ids[i..][0] == ids[i] && ids[i..][1..] == ids[i + 1..];
  }

  /** The entries that are not overdue, in order. */
  function Live(q: seq<Q.Pending>, now: Time): seq<Q.Pending> {
    if q == [] then [] else (if Q.IsOverdue(q[0], now) then [] else [q[0]]) + Live(q[1..], now)
  }

  /** Taking out a list of ids one by one. */
  function WithoutAll(q: seq<Q.Pending>, ids: seq<ActionId>): seq<Q.Pending>
    decreases ids
  {
    if ids == [] then q else WithoutAll(Q.Without(q, ids[0]), ids[1..])
  }

  lemma {:induction false} WithoutAbsent(q: seq<Q.Pending>, id: ActionId)
    requires !Q.Has(q, id)
    ensures Q.Without(q, id) == q
  {
    if q != [] {
      assert q[0] in q;
      assert forall p :: p in q[1..] ==> p in q;
      WithoutAbsent(q[1..], id);
    }
  }

  lemma {:induction false} SweepRemoves(cfg: G.Config, t: Tables, ids: seq<ActionId>, now: Time)
    ensures SweepAll(cfg, t, ids, now).pending == WithoutAll(t.pending, ids)
    decreases ids
  {
    if ids != [] {
      if Q.Has(t.pending, ids[0]) {
        SweepRemoves(cfg, Expire(cfg, t, Q.Find(t.pending, ids[0]), now), ids[1..], now);
      } else {
        WithoutAbsent(t.pending, ids[0]);
        SweepRemoves(cfg, t, ids[1..], now);
      }
    }
  }

  lemma {:induction false} WithoutAllKeepsHead(p: Q.Pending, q: seq<Q.Pending>, ids: seq<ActionId>)
    requires p.id !in ids
    ensures WithoutAll([p] + q, ids) == [p] + WithoutAll(q, ids)
    decreases ids
  {
    if ids != [] {
      assert ([p] + q)[1..] == q && ids[0] in ids;
      WithoutAllKeepsHead(p, Q.Without(q, ids[0]), ids[1..]);
    }
  }

  lemma {:induction false} OverdueTakenOut(q: seq<Q.Pending>, now: Time)
    requires Q.UniqueIds(q)
    ensures WithoutAll(q, Q.Overdue(q, now)) == Live(q, now)
  {
    if q != [] {
      var p, rest := q[0], q[1..];
      assert q == [p] + rest && Q.UniqueIds(rest);
      Q.HeadIsNew(q);
      OverdueTakenOut(rest, now);
      var o := Q.Overdue(rest, now);
      if Q.IsOverdue(p, now) {
        assert Q.Overdue(q, now)[1..] == o && Q.Without(q, p.id) == rest;
      } else {
        Q.OverdueMembers(rest, now);
        WithoutAllKeepsHead(p, rest, o);
        assert Q.Overdue(q, now) == o;
      }
    }
  }

  /** The sweep removes exactly the overdue entries and keeps the others in order. */
  lemma SweepLeavesLive(cfg: G.Config, t: Tables, now: Time)
    requires Q.UniqueIds(t.pending)
    ensures SweepAll(cfg, t, Q.Overdue(t.pending, now), now).pending == Live(t.pending, now)
    ensures forall p :: p in Live(t.pending, now) ==> p in t.pending && !Q.IsOverdue(p, now)
    ensures forall p :: p in t.pending && !Q.IsOverdue(p, now) ==> p in Live(t.pending, now)
  {
    SweepRemoves(cfg, t, Q.Overdue(t.pending, now), now);
    OverdueTakenOut(t.pending, now);
    LiveMembers(t.pending, now);
  }

  lemma {:induction false} LiveMembers(q: seq<Q.Pending>, now: Time)
    ensures forall p :: p in Live(q, now) ==> p in q && !Q.IsOverdue(p, now)
    ensures forall p :: p in q && !Q.IsOverdue(p, now) ==> p in Live(q, now)
  {
    if q != [] {
      assert q == [q[0]] + q[1..];
      LiveMembers(q[1..], now);
    }
  }

  /** One round of the sweep loop is the state machine's pop, note and resolve, when the clock stands still. */
  lemma RoundIsThreeSteps(s: G.State, cfg: G.Config)
    requires s.session.Expiring? && s.session.todo != [] && s.session.todo[0] in s.acts
    requires Q.Has(s.queue, s.session.todo[0])
    requires Q.Find(s.queue, s.session.todo[0]).job == s.acts[s.session.todo[0]].job
    ensures var t := G.ExitResolved(cfg, G.ExitNoted(cfg, G.OverduePopped(s)));
            && Tables(t.events, t.queue, t.resolutions) ==
               Expire(cfg, Tables(s.events, s.queue, s.resolutions), Q.Find(s.queue, s.session.todo[0]), s.now)
            && t.session == G.Expiring(s.session.todo[1..], s.session.since, s.session.k)
  {}
}
