/** What every reachable state of the gateway promises about its log, its queue, its map and its envelopes. */
module GatewayTheorems {
  import opened Common
  import opened Retention
  import opened Ledger
  import opened Gateway
  import opened GatewayInvariant
  import opened GatewaySteps
  import R = Resolutions
  import Q = Queue
  import W = Wire
  import H = Handoff

  // ---------- the log against the full history ----------

  /**
   In every reachable state the log holds, for each client, exactly the newest `auditMax` events that were
   in the window at the last prune, in their original order, settlements included.
   */
  lemma LogRefinesHistory(cfg: Config, ss: seq<State>, steps: seq<Step>, i: nat, c: ClientId)
    requires IsRun(cfg, ss, steps) && i < |ss|
    ensures Of(ss[i].events, c) == Newest(Since(Of(ss[i].history, c), ss[i].pruned), cfg.auditMax)
    ensures Subsequence(ss[i].events, ss[i].history)
  {
    Reachable(cfg, ss, steps, i);
    PrunedOf(ss[i].history, ss[i].pruned, cfg.auditMax, c);
    PrunedSubsequence(ss[i].history, ss[i].pruned, cfg.auditMax);
  }

  lemma UsageAgainstHistory(cfg: Config, s: State, c: ClientId)
    requires HistoryOk(cfg, s)
    ensures UsedNow(cfg, s, c) + Used(Evicted(s.history, c, Cutoff(cfg, s), cfg.auditMax), c, Cutoff(cfg, s))
         == Used(s.history, c, Cutoff(cfg, s))
    ensures 0 <= UsedNow(cfg, s, c) <= Used(s.history, c, Cutoff(cfg, s))
    ensures UsedNow(cfg, s, c) == Used(s.history, c, Cutoff(cfg, s))
       <==> forall e :: e in Evicted(s.history, c, Cutoff(cfg, s), cfg.auditMax) ==> e.data.outcome != Accepted
  {
    UsedAgainstHistory(s.history, c, s.pruned, Cutoff(cfg, s), cfg.auditMax);
    UsedExactIff(s.history, c, s.pruned, Cutoff(cfg, s), cfg.auditMax);
    UsageIsNonNegative(cfg, s, c);
  }

  /** The usage a handler reads is the true windowed sum less what the cap evicted, so never more than it. */
  lemma UsageRefinesHistory(cfg: Config, ss: seq<State>, steps: seq<Step>, i: nat, c: ClientId)
    requires IsRun(cfg, ss, steps) && i < |ss|
    ensures var s, cut := ss[i], Cutoff(cfg, ss[i]);
            var lost := Evicted(s.history, c, cut, cfg.auditMax);
            && UsedNow(cfg, s, c) + Used(lost, c, cut) == Used(s.history, c, cut)
            && 0 <= UsedNow(cfg, s, c) <= Used(s.history, c, cut)
            && (UsedNow(cfg, s, c) == Used(s.history, c, cut) <==> forall e :: e in lost ==> e.data.outcome != Accepted)
  {
    Reachable(cfg, ss, steps, i);
    UsageAgainstHistory(cfg, ss[i], c);
  }

  lemma LogIsPast(cfg: Config, s: State)
    requires HistoryOk(cfg, s)
    ensures forall e :: e in s.events ==> e.at <= s.now
  {
    CappedMembers(Since(s.history, s.pruned), cfg.auditMax);
    SinceMembers(s.history, s.pruned);
  }

  lemma LogIsTidy(cfg: Config, s: State, e: Event)
    requires HistoryOk(cfg, s) && e.at == s.now
    ensures WithinCap(s.events, cfg.auditMax) && Sorted(s.events + [e])
  {
    CappedWithinCap(Since(s.history, s.pruned), cfg.auditMax);
    PrunedIsSorted(s.history, s.pruned, cfg.auditMax);
    CappedMembers(Since(s.history, s.pruned), cfg.auditMax);
    SinceMembers(s.history, s.pruned);
    forall i, j | 0 <= i < j < |s.events + [e]| ensures (s.events + [e])[i].at <= (s.events + [e])[j].at {
      assert s.events[i] in s.events;
    }
  }

  /** In every reachable state, whatever is recorded for one client leaves every other client's usage as it was. */
  lemma RecordingIsolatesClients(cfg: Config, ss: seq<State>, steps: seq<Step>, i: nat, e: Event, c: ClientId)
    requires IsRun(cfg, ss, steps) && i < |ss| && e.at == ss[i].now && e.client != c
    ensures UsedNow(cfg, Recorded(cfg, ss[i], e), c) == UsedNow(cfg, ss[i], c)
    ensures Of(Recorded(cfg, ss[i], e).events, c) == Since(Of(ss[i].events, c), Cutoff(cfg, ss[i]))
  {
    Reachable(cfg, ss, steps, i);
    LogIsTidy(cfg, ss[i], e);
    RecordIsolatesClients(ss[i].events, e, cfg.window as real, cfg.auditMax, c);
  }

  // ---------- settlement ----------

  /** What the log still shows of an action whose handoff has returned ends in its reservation. */
  lemma NewestInLog(cfg: Config, s: State, id: ActionId)
    requires HistoryOk(cfg, s) && id in s.acts && ActOk(s, id) && s.acts[id].stage.Answered?
    ensures var k := NewestWith(s.events, id);
            k >= 0 ==> MarkOf(s.events[k]) == Mark(Accepted, Some(s.acts[id].stage.byHuman))
  {
    if NewestWith(s.events, id) >= 0 {
      AnsweredEnds(s.acts[id].stage);
      EndOfLog(cfg, s, id);
    }
  }

  lemma AnsweredEnds(st: Stage)
    requires st.Answered?
    ensures var full := ExpectedTrail(st); full != [] && full[|full| - 1] == Mark(Accepted, Some(st.byHuman))
  {}

  /** The log's newest event of an action is the newest of its history. */
  lemma EndOfLog(cfg: Config, s: State, id: ActionId)
    requires HistoryOk(cfg, s) && id in s.acts && OwnedBy(s.history, id, s.acts[id].job.client)
    requires NewestWith(s.events, id) >= 0
    ensures var full := Trail(s.history, id);
            full != [] && MarkOf(s.events[NewestWith(s.events, id)]) == full[|full| - 1]
  {
    var full, kept := Trail(s.history, id), Trail(s.events, id);
    TrailOfPruned(s.history, id, s.acts[id].job.client, s.pruned, cfg.auditMax);
    var m :| 0 <= m <= |full| && kept == full[m..];
    TrailEnd(s.events, id);
    assert full[m..][|kept| - 1] == full[|full| - 1];
  }

  /** Settlement `v` rewrites the event at k of the log, and only that one. */
  ghost predicate RewritesOnly(before: seq<Event>, after: seq<Event>, k: nat, v: Settlement) {
    && k < |before| == |after|
    && after[k] == Resettled(before[k], v)
    && forall j :: 0 <= j < |before| && j != k ==> after[j] == before[j]
  }

  /**
   Settling rewrites at most the action's own accepted reservation: if the log still holds any event of the
   action, the newest one is that reservation, and if it does not, nothing changes.
   */
  lemma SettlementHitsReservation(cfg: Config, ss: seq<State>, steps: seq<Step>, i: nat, id: ActionId)
    requires IsRun(cfg, ss, steps) && i < |ss| && id in ss[i].acts && ss[i].acts[id].stage.Answered?
    ensures var s := ss[i];
            var k, st, after := NewestWith(s.events, id), s.acts[id].stage, EventSettled(s, id).events;
            if k < 0 then after == s.events
            else
              && MarkOf(s.events[k]) == Mark(Accepted, Some(st.byHuman))
              && RewritesOnly(s.events, after, k, SettlementOf(id, st))
  {
    Reachable(cfg, ss, steps, i);
    assert ActOk(ss[i], id);
    NewestInLog(cfg, ss[i], id);
  }

  /** The budget that settling action `id` gives back: its reservation's amount, if that still counts. */
  function Freed(cfg: Config, s: State, id: ActionId): int
    requires id in s.acts && s.acts[id].stage.Answered?
  {
    var k := NewestWith(s.events, id);
    if k >= 0 && s.events[k].at >= Cutoff(cfg, s) && H.Releases(H.Returned(s.acts[id].stage.result))
    then s.events[k].data.amount
    else 0
  }

  /** The log holds events of an action only under the client that ordered it. */
  lemma LogOwner(cfg: Config, s: State, id: ActionId)
    requires HistoryOk(cfg, s) && id in s.acts && OwnedBy(s.history, id, s.acts[id].job.client)
    requires NewestWith(s.events, id) >= 0
    ensures s.events[NewestWith(s.events, id)].client == s.acts[id].job.client
  {
    var k := NewestWith(s.events, id);
    NewestWithIsNewest(s.events, id);
    CappedMembers(Since(s.history, s.pruned), cfg.auditMax);
    SinceMembers(s.history, s.pruned);
    assert s.events[k] in s.events && s.events[k] in s.history;
  }

  /**
   Settlement gives the reservation back to its client exactly when the handoff's conclusion releases it, and
   changes no other client's usage.
   */
  lemma SettlementReleasesBudget(cfg: Config, ss: seq<State>, steps: seq<Step>, i: nat, id: ActionId, c: ClientId)
    requires IsRun(cfg, ss, steps) && i < |ss| && id in ss[i].acts && ss[i].acts[id].stage.Answered?
    ensures UsedNow(cfg, EventSettled(ss[i], id), c)
         == UsedNow(cfg, ss[i], c) - if c == ss[i].acts[id].job.client then Freed(cfg, ss[i], id) else 0
  {
    var s, k := ss[i], NewestWith(ss[i].events, id);
    assert HistoryOk(cfg, s) && ActOk(s, id) by { Reachable(cfg, ss, steps, i); }
    if k >= 0 {
      NewestInLog(cfg, s, id);
      LogOwner(cfg, s, id);
      UsedUpdate(s.events, k, Resettled(s.events[k], SettlementOf(id, s.acts[id].stage)), c, Cutoff(cfg, s));
    }
  }

  // ---------- the queue ----------

  /** Every client has at most `pendingMax` queued actions, and all ids in the queue are distinct. */
  lemma QueueIsBounded(cfg: Config, ss: seq<State>, steps: seq<Step>, i: nat, c: ClientId)
    requires IsRun(cfg, ss, steps) && i < |ss|
    ensures Q.CountFor(ss[i].queue, c) <= cfg.pendingMax && Q.UniqueIds(ss[i].queue)
  {
    Reachable(cfg, ss, steps, i);
  }

  /** An order is refused for a full queue only if that many entries of the client were live when the sweep began. */
  lemma RefusalCountsOnlyLiveEntries(cfg: Config, ss: seq<State>, steps: seq<Step>, i: nat)
    requires IsRun(cfg, ss, steps) && i < |steps| && steps[i].Swept? && ss[i].session.k.ThenQueue?
    requires ss[i].session.k.id in ss[i + 1].acts && ss[i + 1].acts[ss[i].session.k.id].stage.QueueIsFull?
    ensures ss[i].session.k.id in ss[i].acts
    ensures Q.CountFor(ss[i].queue, ss[i].acts[ss[i].session.k.id].job.client) == cfg.pendingMax
    ensures forall p :: p in ss[i].queue ==> !Q.IsOverdue(p, ss[i].session.since)
  {
    assert QueueOk(cfg, ss[i]) && SessionOk(ss[i]) by { Reachable(cfg, ss, steps, i); }
    assert ss[i + 1] == QueueTried(cfg, ss[i]);
    QueueWasFull(cfg, ss[i]);
  }

  lemma PurgeLeavesNone(cfg: Config, s: State)
    requires SessionOk(s) && Enabled(cfg, s, EndPurge)
    ensures forall p :: p in Next(cfg, s, EndPurge).queue ==> p.job.client != s.session.client
  {
    assert PurgeExact(s, [], s.session.client);
  }

  lemma QueueWasFull(cfg: Config, s: State)
    requires QueueOk(cfg, s) && SessionOk(s) && s.session.Expiring? && s.session.todo == [] && s.session.k.ThenQueue?
    requires QueueTried(cfg, s).acts[s.session.k.id].stage.QueueIsFull?
    ensures Q.CountFor(s.queue, s.acts[s.session.k.id].job.client) == cfg.pendingMax
    ensures forall p :: p in s.queue ==> !Q.IsOverdue(p, s.session.since)
  {
    assert Q.CountFor(s.queue, s.acts[s.session.k.id].job.client) <= cfg.pendingMax;
  }

  /** When a revocation ends, nothing of the revoked client is left to approve. */
  lemma RevocationEmptiesQueue(cfg: Config, ss: seq<State>, steps: seq<Step>, i: nat)
    requires IsRun(cfg, ss, steps) && i < |steps| && steps[i].EndPurge?
    ensures forall p :: p in ss[i + 1].queue ==> p.job.client != ss[i].session.client
  {
    assert ss[i].session.Purging? && SessionOk(ss[i]) by { Reachable(cfg, ss, steps, i); }
    PurgeLeavesNone(cfg, ss[i]);
  }

  // ---------- the resolution map ----------

  /** The map keeps one entry per action, at most `resolutionMax` per client, under the client that ordered it. */
  lemma ResolutionsAreBounded(cfg: Config, ss: seq<State>, steps: seq<Step>, i: nat, c: ClientId)
    requires IsRun(cfg, ss, steps) && i < |ss|
    ensures CountOf(ss[i].resolutions, c) <= cfg.resolutionMax && R.UniqueIds(ss[i].resolutions)
    ensures forall r :: r in ss[i].resolutions ==>
              r.data.id in ss[i].acts && r.client == ss[i].acts[r.data.id].job.client
  {
    Reachable(cfg, ss, steps, i);
  }

  /** The status a poll shows for a conclusion. */
  function PolledStatus(r: W.Result): R.Status {
    if r.Unknown? then R.ExecutionUnknown else if r.Ok? && r.executed then R.Executed else R.Failed
  }

  /** Once a handoff is settled its client's poll shows the outcome and, if executed, the agent's reference. */
  lemma OutcomeIsPolled(cfg: Config, ss: seq<State>, steps: seq<Step>, i: nat, id: ActionId)
    requires IsRun(cfg, ss, steps) && i < |ss| && id in ss[i].acts && ss[i].acts[id].stage.Settled?
    requires cfg.resolutionMax > 0 && cfg.resolutionTtl >= 0
    ensures var t, result := ResolutionSettled(cfg, ss[i], id), ss[i].acts[id].stage.result;
            var g := R.Get(t.resolutions, id, t.now, cfg.resolutionTtl as real).0;
            && g.Some? && g.value.data.status == PolledStatus(result)
            && g.value.client == ss[i].acts[id].job.client
            && (g.value.data.status.Executed? && result.reference.Some? ==> g.value.data.order == result.reference)
            && (g.value.data.status.Executed? && result.channel.Some? ==> g.value.data.channel == result.channel)
  {
    var s, r := ss[i], ss[i].acts[id].stage.result;
    assert ResolutionsOk(cfg, s) by { Reachable(cfg, ss, steps, i); }
    var u := R.Update(id, s.acts[id].job.client, FinalStatus(r), SettledChannel(r), SettledOrder(r));
    R.PutThenGet(s.resolutions, u, s.now, cfg.resolutionTtl as real, cfg.resolutionMax, s.now);
    var k := R.IndexOf(s.resolutions, id);
    if k >= 0 {
      assert s.resolutions[k] in s.resolutions;
    }
  }

  // ---------- bounds ----------

  /** Every order taken in and every grant is within the bounds that the request models put on them. */
  lemma RequestsAreBounded(cfg: Config, ss: seq<State>, steps: seq<Step>, i: nat)
    requires IsRun(cfg, ss, steps) && i < |ss|
    ensures forall id :: id in ss[i].acts ==>
              var job := ss[i].acts[id].job;
              1 <= |job.item| <= 200 && 1 <= job.quantity <= 10_000 && 1 <= job.amount <= 1_000_000
    ensures forall c :: c in ss[i].grants ==> 1 <= ss[i].grants[c] <= 10_000_000
  {
    assert ActsOk(ss[i]) && GrantsOk(ss[i]) by { Reachable(cfg, ss, steps, i); }
    forall id | id in ss[i].acts
      ensures var job := ss[i].acts[id].job;
              1 <= |job.item| <= 200 && 1 <= job.quantity <= 10_000 && 1 <= job.amount <= 1_000_000
    {
      assert ActOk(ss[i], id);
    }
  }

  // ---------- the envelope ----------

  /**
   Every envelope the gateway can send, for an order or an approval, passes the agent's bounds if and only if the
   action's and the client's ids have the lengths the agent accepts; usage above the limit is no obstacle.
   */
  lemma EnvelopeIsAccepted(cfg: Config, ss: seq<State>, steps: seq<Step>, i: nat, id: ActionId, at: Time)
    requires IsRun(cfg, ss, steps) && i < |ss| && cfg.window > 0
    requires id in ss[i].acts && ss[i].acts[id].stage.InFlight?
    ensures var job, st := ss[i].acts[id].job, ss[i].acts[id].stage;
            W.AgentAccepts(W.BuildEnvelope(id, job, st.byHuman, st.limit, st.used, cfg.window, at))
            <==> 1 <= |id| <= 64 && 1 <= |job.client| <= 200
  {
    Reachable(cfg, ss, steps, i);
    assert ActOk(ss[i], id);
  }
}
