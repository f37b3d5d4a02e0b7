/** What a sweep clears, what changes a grant, and that a handoff that returns is settled. */
module GatewayUpkeep {
  import opened Common
  import opened Playing
  import opened Ledger
  import opened Gateway
  import opened GatewayInvariant
  import opened GatewaySteps
  import opened GatewayLifecycle
  import opened GatewayAudit
  import GR = GatewayRuns
  import H = Handoff
  import Q = Queue
  import R = Resolutions
  import W = Wire

  // ---------- a sweep ----------

  /** The lock holder is in the sweep that it began at `since`. */
  predicate InSweep(n: Session, since: Time) {
    match n
    case Expiring(_, t, _) => t == since
    case Noting(_, e, _, t, _) => e.TimedOut? && t == since
    case Resolving(_, e, _, t, _) => e.TimedOut? && t == since
    case _ => false
  }

  /** Nothing has come into the queue since it was q, and what has gone had run out of time and is going as expired. */
  ghost predicate Clearing(s: State, q: seq<Q.Pending>, since: Time) {
    && InSweep(s.session, since)
    && (forall p :: p in s.queue ==> p in q)
    && (forall p :: p in q ==> p in s.queue || (p.expiresAt < since && Expires(s.acts, p.id)))
  }

  predicate Expires(acts: map<ActionId, Act>, id: ActionId) {
    id in acts && (acts[id].stage == Popped(TimedOut) || acts[id].stage == Noted(TimedOut)
                   || acts[id].stage == Left(TimedOut))
  }

  predicate BeginsSweep(step: Step) {
    step.StartApprove? || step.StartReject? || step.StartRevoke? || step.StartSweep? || step.ExceedMandate?
  }

  lemma SweepBegins(cfg: Config, s: State, step: Step)
    requires Enabled(cfg, s, step) && BeginsSweep(step)
    ensures Clearing(Next(cfg, s, step), s.queue, s.now)
  {}

  lemma ExpiringGoesOn(s: State, t: State, id: ActionId)
    requires Advances(s, t) && Expires(s.acts, id)
    ensures Expires(t.acts, id)
  {}

  lemma QueueStays(cfg: Config, s: State, step: Step, q: seq<Q.Pending>, since: Time)
    requires Enabled(cfg, s, step) && !step.PopOverdue? && !step.Swept? && Clearing(s, q, since)
    ensures Next(cfg, s, step).queue == s.queue && InSweep(Next(cfg, s, step).session, since)
  {}

  lemma PopExpires(cfg: Config, s: State, q: seq<Q.Pending>, since: Time, p: Q.Pending)
    requires QueueOk(cfg, s) && SessionOk(s) && Enabled(cfg, s, PopOverdue) && Clearing(s, q, since)
    requires p in s.queue && p !in OverduePopped(s).queue
    ensures p.expiresAt < since && Expires(OverduePopped(s).acts, p.id)
  {
    Q.WithoutMembers(s.queue, s.session.todo[0]);
    assert p.id == s.session.todo[0] && p.id in s.session.todo;
    assert Q.IsOverdue(p, since);
  }

  lemma PopClears(cfg: Config, s: State, q: seq<Q.Pending>, since: Time)
    requires QueueOk(cfg, s) && SessionOk(s) && Enabled(cfg, s, PopOverdue) && Clearing(s, q, since)
    requires Advances(s, OverduePopped(s))
    ensures Clearing(OverduePopped(s), q, since)
  {
    var t := OverduePopped(s);
    Q.WithoutMembers(s.queue, s.session.todo[0]);
    forall p | p in q && p !in t.queue ensures p.expiresAt < since && Expires(t.acts, p.id) {
      if p in s.queue { PopExpires(cfg, s, q, since, p); } else { ExpiringGoesOn(s, t, p.id); }
    }
  }

  lemma ClearingStep(cfg: Config, s: State, step: Step, q: seq<Q.Pending>, since: Time)
    requires Inv(cfg, s) && Enabled(cfg, s, step) && !step.Swept? && Clearing(s, q, since)
    ensures Clearing(Next(cfg, s, step), q, since)
  {
    StepAdvances(cfg, s, step);
    if step.PopOverdue? {
      PopClears(cfg, s, q, since);
    } else {
      QueueStays(cfg, s, step, q, since);
      forall p | p in q && p !in s.queue ensures Expires(Next(cfg, s, step).acts, p.id) {
        ExpiringGoesOn(s, Next(cfg, s, step), p.id);
      }
    }
  }

  lemma RunClears(cfg: Config, ss: seq<State>, steps: seq<Step>, i: nat, q: seq<Q.Pending>, since: Time)
    requires IsRun(cfg, ss, steps) && i < |steps| && !steps[i].Swept? && Clearing(ss[i], q, since)
    ensures Clearing(ss[i + 1], q, since)
  {
    RunStep(cfg, ss, steps, i);
    Reachable(cfg, ss, steps, i);
    ClearingStep(cfg, ss[i], steps[i], q, since);
  }

  lemma {:induction false} ClearingOn(ss: seq<State>, i: nat, j: nat, q: seq<Q.Pending>, since: Time)
    requires i <= j < |ss| && Clearing(ss[i], q, since)
    requires forall n :: i <= n < j && Clearing(ss[n], q, since) ==> Clearing(ss[n + 1], q, since)
    ensures Clearing(ss[j], q, since)
  {
    if i < j {
      ClearingOn(ss, i, j - 1, q, since);
      assert Clearing(ss[j - 1 + 1], q, since);
    }
  }

  lemma ClearedSoFar(
    cfg: Config, ss: seq<State>, steps: seq<Step>, i: nat, j: nat, q: seq<Q.Pending>, since: Time)
    requires IsRun(cfg, ss, steps) && i <= j < |ss| && Clearing(ss[i], q, since)
    requires forall n :: i <= n < j ==> !steps[n].Swept?
    ensures Clearing(ss[j], q, since)
  {
    forall n | i <= n < j && Clearing(ss[n], q, since) ensures Clearing(ss[n + 1], q, since) {
      RunClears(cfg, ss, steps, n, q, since);
    }
    ClearingOn(ss, i, j, q, since);
  }

  /** Once the sweep is through its list, nothing that had run out of time is left, and what went has left for good. */
  lemma SweepIsThrough(cfg: Config, s: State, q: seq<Q.Pending>, since: Time)
    requires ActsOk(s) && SessionOk(s) && Enabled(cfg, s, Swept) && Clearing(s, q, since)
    ensures forall p :: p in s.queue <==> p in q && p.expiresAt >= since
    ensures forall p :: p in q && p.expiresAt < since ==> p.id in s.acts && s.acts[p.id].stage == Left(TimedOut)
  {
    forall p | p in s.queue ensures p.expiresAt >= since {
      assert !Q.IsOverdue(p, since);
    }
    forall p | p in q && p.expiresAt < since ensures p.id in s.acts && s.acts[p.id].stage == Left(TimedOut) {
      assert Expires(s.acts, p.id) && ActOk(s, p.id);
      assert s.session.k.ThenQueue? ==> s.acts[s.session.k.id].stage.Checked?;
    }
  }

  /** The two events of an order that waited in vain. */
  ghost predicate ExpiredAfterQueueing(s: State, id: ActionId) {
    && id in s.acts
    && var job, rows := s.acts[id].job, EventsOf(s.history, id);
       && |rows| == 2 && rows[0].data.outcome == Queued
       && rows[1].client == job.client
       && rows[1].data == Entry(job.item, job.amount, Expired, ApprovalExpired, None, Some(id))
  }

  lemma ExpiredRows(s: State, id: ActionId)
    requires id in s.acts && s.acts[id].stage == Left(TimedOut)
    requires var rows, trail := EventsOf(s.history, id), ExpectedTrail(s.acts[id].stage);
             && |rows| == |trail|
             && forall k :: 0 <= k < |rows| ==> MarkOf(rows[k]) == trail[k] && Fits(s.acts[id], rows[k])
    ensures ExpiredAfterQueueing(s, id)
  {
    EventsAreTrail(s.history, id);
    var rows := EventsOf(s.history, id);
    assert |rows| == 2 && rows[1] in rows && Fits(s.acts[id], rows[1]);
  }

  /**
   Whatever request begins a sweep: when the sweep is through, the queue holds exactly the entries of its beginning
   whose time had not run out then, and each of the others has left as expired, with its two events to show for it.
   */
  lemma SweepClearsExactly(cfg: Config, ss: seq<State>, steps: seq<Step>, i: nat, j: nat)
    requires IsRun(cfg, ss, steps) && i < j < |steps| && BeginsSweep(steps[i]) && steps[j].Swept?
    requires forall n :: i < n < j ==> !steps[n].Swept?
    ensures forall p :: p in ss[j].queue <==> p in ss[i].queue && p.expiresAt >= ss[i].now
    ensures forall p :: p in ss[i].queue && p.expiresAt < ss[i].now ==> ExpiredAfterQueueing(ss[j], p.id)
  {
    RunStep(cfg, ss, steps, i);
    SweepBegins(cfg, ss[i], steps[i]);
    ClearedSoFar(cfg, ss, steps, i + 1, j, ss[i].queue, ss[i].now);
    RunStep(cfg, ss, steps, j);
    assert ActsOk(ss[j]) && SessionOk(ss[j]) by { Reachable(cfg, ss, steps, j); }
    SweepIsThrough(cfg, ss[j], ss[i].queue, ss[i].now);
    forall p | p in ss[i].queue && p.expiresAt < ss[i].now ensures ExpiredAfterQueueing(ss[j], p.id) {
      EventsOfAction(cfg, ss, steps, j, p.id);
      ExpiredRows(ss[j], p.id);
    }
  }

  // ---------- grants ----------

  lemma SweepKeepsGrants(cfg: Config, s: State)
    requires Enabled(cfg, s, Swept)
    ensures AfterSweep(cfg, s).grants == s.grants
  {}

  lemma GrantStep(cfg: Config, s: State, step: Step, c: ClientId)
    requires Enabled(cfg, s, step)
    ensures var t := Next(cfg, s, step);
            if step.PutGrant? && step.client == c then c in t.grants && t.grants[c] == step.limit
            else if step == StartRevoke(c) then c !in t.grants
            else (c in t.grants <==> c in s.grants) && (c in s.grants ==> t.grants[c] == s.grants[c])
  {
    if step.Swept? { SweepKeepsGrants(cfg, s); }
  }

  /** Over every run a client's grant is what the admin last put, and changes in no other way than by being revoked. */
  lemma GrantsFollowTheAdmin(cfg: Config, ss: seq<State>, steps: seq<Step>, i: nat, c: ClientId)
    requires IsRun(cfg, ss, steps) && i < |steps|
    ensures var s, t, step := ss[i], ss[i + 1], steps[i];
            if step.PutGrant? && step.client == c then c in t.grants && t.grants[c] == step.limit
            else if step == StartRevoke(c) then c !in t.grants
            else (c in t.grants <==> c in s.grants) && (c in s.grants ==> t.grants[c] == s.grants[c])
  {
    RunStep(cfg, ss, steps, i);
    GrantStep(cfg, ss[i], steps[i], c);
  }

  /** Nothing but the lock keeps the admin from revoking, and nothing at all a client with a grant from ordering. */
  lemma RequestsCanStart(cfg: Config, s: State, c: ClientId, limit: int, id: ActionId, job: Job)
    ensures 1 <= limit <= 10_000_000 ==> Enabled(cfg, s, PutGrant(c, limit))
    ensures s.session.Free? ==> Enabled(cfg, s, StartRevoke(c)) && Enabled(cfg, s, StartSweep)
    ensures (id !in s.acts && job.client in s.grants && 1 <= |job.item| <= 200
             && 1 <= job.quantity <= 10_000 && 1 <= job.amount <= 1_000_000) ==> Enabled(cfg, s, Arrive(id, job))
  {}

  // ---------- a handoff that returns ----------

  /** What the client of a handoff with this result polls. */
  predicate TellsResult(d: R.Fate, r: W.Result) {
    match r
    case Down => d.status.Failed?
    case Unknown => d.status.ExecutionUnknown?
    case Ok(executed, channel, _, reference) =>
      if executed then d.status.Executed? && (channel.Some? ==> d.channel == channel)
                       && (reference.Some? ==> d.order == reference)
      else d.status.Failed?
  }

  lemma ResultIsPolled(cfg: Config, s: State, id: ActionId)
    requires ResolutionsOk(cfg, s) && Enabled(cfg, s, SettleResolution(id))
    requires cfg.resolutionMax > 0 && cfg.resolutionTtl >= 0
    ensures var t := Next(cfg, s, SettleResolution(id));
            var g := R.Get(t.resolutions, id, t.now, cfg.resolutionTtl as real).0;
            g.Some? && TellsResult(g.value.data, s.acts[id].stage.result)
  {
    var r := s.acts[id].stage.result;
    var u := R.Update(id, s.acts[id].job.client, FinalStatus(r), SettledChannel(r), SettledOrder(r));
    R.PutThenGet(s.resolutions, u, s.now, cfg.resolutionTtl as real, cfg.resolutionMax, s.now);
  }

  function Settling(id: ActionId, r: W.Result): seq<Step> {
    [Return(id, H.Returned(r))] + ([SettleEvent(id)] + ([SettleResolution(id)] + []))
  }

  /** The states on the way: the result is there, and then the event says so. */
  function WithResult(s: State, id: ActionId, r: W.Result): State
    requires id in s.acts && s.acts[id].stage.InFlight?
  {
    Staged(s, id, Answered(s.acts[id].stage.byHuman, r))
  }

  lemma ReturnIsTaken(cfg: Config, s: State, id: ActionId, r: W.Result)
    requires id in s.acts && s.acts[id].stage.InFlight?
    ensures Enabled(cfg, s, Return(id, H.Returned(r)))
    ensures Next(cfg, s, Return(id, H.Returned(r))) == WithResult(s, id, r)
  {}

  lemma SettlementFollows(cfg: Config, s: State, id: ActionId)
    requires id in s.acts && s.acts[id].stage.Answered?
    ensures Enabled(cfg, s, SettleEvent(id))
    ensures var t := Next(cfg, s, SettleEvent(id));
            && id in t.acts && t.acts[id].stage == Settled(s.acts[id].stage.byHuman, s.acts[id].stage.result)
            && t.resolutions == s.resolutions && Enabled(cfg, t, SettleResolution(id))
  {}

  lemma FinishFollows(cfg: Config, s: State, id: ActionId)
    requires Enabled(cfg, s, SettleResolution(id))
    ensures var t := Next(cfg, s, SettleResolution(id));
            id in t.acts && t.acts[id].stage == Finished(s.acts[id].stage.byHuman, s.acts[id].stage.result)
  {}

  /**
   From every reachable state a handoff that returns is settled, whoever holds the lock: the handler's own steps finish
   the action with that result, and its client polls what the result says.
   */
  lemma HandoffIsSettled(cfg: Config, ss: seq<State>, steps: seq<Step>, i: nat, id: ActionId, r: W.Result)
    requires IsRun(cfg, ss, steps) && i < |ss| && id in ss[i].acts && ss[i].acts[id].stage.InFlight?
    requires cfg.resolutionMax > 0 && cfg.resolutionTtl >= 0
    ensures var end := Play(GR.Moves(cfg), ss[i], Settling(id, r));
            && end.Some? && id in end.value.acts
            && end.value.acts[id].stage == Finished(ss[i].acts[id].stage.byHuman, r)
            && var g := R.Get(end.value.resolutions, id, end.value.now, cfg.resolutionTtl as real).0;
               g.Some? && TellsResult(g.value.data, r)
  {
    Reachable(cfg, ss, steps, i);
    SettlingPlays(cfg, ss[i], id, r);
  }

  lemma SettlingPlays(cfg: Config, s: State, id: ActionId, r: W.Result)
    requires Inv(cfg, s) && id in s.acts && s.acts[id].stage.InFlight?
    requires cfg.resolutionMax > 0 && cfg.resolutionTtl >= 0
    ensures var end := Play(GR.Moves(cfg), s, Settling(id, r));
            && end.Some? && id in end.value.acts
            && end.value.acts[id].stage == Finished(s.acts[id].stage.byHuman, r)
            && var g := R.Get(end.value.resolutions, id, end.value.now, cfg.resolutionTtl as real).0;
               g.Some? && TellsResult(g.value.data, r)
  {
    var t := WithResult(s, id, r);
    ReturnIsTaken(cfg, s, id, r);
    StepKeeps(cfg, s, Return(id, H.Returned(r)));
    SettlementFollows(cfg, t, id);
    StepKeeps(cfg, t, SettleEvent(id));
    var u := Next(cfg, t, SettleEvent(id));
    FinishFollows(cfg, u, id);
    ResultIsPolled(cfg, u, id);
    PlayFirst(GR.Moves(cfg), u, SettleResolution(id), []);
    PlayFirst(GR.Moves(cfg), t, SettleEvent(id), [SettleResolution(id)] + []);
    PlayFirst(GR.Moves(cfg), s, Return(id, H.Returned(r)), [SettleEvent(id)] + ([SettleResolution(id)] + []));
  }

  // ---------- an order that finds the queue full ----------

  lemma RefusalStages(cfg: Config, s: State, id: ActionId)
    requires Enabled(cfg, s, RefuseFull(id))
    ensures id in Next(cfg, s, RefuseFull(id)).acts && Next(cfg, s, RefuseFull(id)).acts[id].stage.TurnedAway?
  {}

  lemma OneRow(s: State, id: ActionId)
    requires id in s.acts && s.acts[id].stage.TurnedAway?
    requires var rows, trail := EventsOf(s.history, id), ExpectedTrail(s.acts[id].stage);
             && |rows| == |trail|
             && forall k :: 0 <= k < |rows| ==> MarkOf(rows[k]) == trail[k] && Fits(s.acts[id], rows[k])
    ensures var job, rows := s.acts[id].job, EventsOf(s.history, id);
            |rows| == 1 && rows[0].client == job.client
            && rows[0].data == Entry(job.item, job.amount, Rejected, QueueFull, None, Some(id))
  {
    EventsAreTrail(s.history, id);
    var rows := EventsOf(s.history, id);
    assert |rows| == 1 && rows[0] in rows && Fits(s.acts[id], rows[0]);
  }

  /** An order that found the queue full can always be turned away, and then its one event says why. */
  lemma RefusalIsWritten(cfg: Config, ss: seq<State>, steps: seq<Step>, i: nat, id: ActionId)
    requires IsRun(cfg, ss, steps) && i < |ss| && id in ss[i].acts && ss[i].acts[id].stage.QueueIsFull?
    ensures Enabled(cfg, ss[i], RefuseFull(id))
    ensures i < |steps| && steps[i] == RefuseFull(id) ==>
              && id in ss[i + 1].acts && ss[i + 1].acts[id].stage.TurnedAway?
              && var job, rows := ss[i + 1].acts[id].job, EventsOf(ss[i + 1].history, id);
                 |rows| == 1 && rows[0].client == job.client
                 && rows[0].data == Entry(job.item, job.amount, Rejected, QueueFull, None, Some(id))
  {
    if i < |steps| && steps[i] == RefuseFull(id) {
      RunStep(cfg, ss, steps, i);
      RefusalStages(cfg, ss[i], id);
      EventsOfAction(cfg, ss, steps, i + 1, id);
      OneRow(ss[i + 1], id);
    }
  }
}
