/**
 Mandate safety: however orders, approvals, settlements and other clients interleave, what a client's
 orders reserve on their own inside one window stays within the largest grant it was ever given.
 */
module GatewayMandate {
  import opened Common
  import opened Retention
  import opened Ledger
  import opened Gateway
  import opened GatewayInvariant
  import opened GatewaySteps
  import Q = Queue

  /** Unreleased autonomous reservations of client c inside the current window, over the full history. */
  function Spent(cfg: Config, s: State, c: ClientId): int { Autonomous(s.history, c, Cutoff(cfg, s)) }

  /** The client's in-window events still fit under the per-client cap. */
  ghost predicate FitsTheCap(cfg: Config, s: State, c: ClientId) {
    |Since(Of(s.history, c), Cutoff(cfg, s))| <= cfg.auditMax
  }

  /** Weaker: the cap may have cut events of the window, but no autonomous reservation. */
  ghost predicate NoSpendingEvicted(cfg: Config, s: State, c: ClientId) {
    forall e :: e in Evicted(s.history, c, Cutoff(cfg, s), cfg.auditMax) ==> !IsAutonomous(e)
  }

  /** The budget a client's order has read covers everything the client has spent. */
  ghost predicate Covered(cfg: Config, s: State, c: ClientId, limit: int) {
    && Spent(cfg, s, c) <= limit
    && (c in s.grants ==> s.grants[c] <= limit)
    && (forall id :: id in s.acts && s.acts[id].job.client == c && s.acts[id].stage.Minted? ==>
          s.acts[id].stage.limit <= limit)
    && (s.session.Budget? && s.session.id in s.acts && s.acts[s.session.id].job.client == c ==>
          s.session.limit <= limit && Spent(cfg, s, c) <= s.session.used)
  }

  /**
   What the theorem asks of a step: grants stay at most `limit`, and when an order of c reads its usage the cap
   hides no spending.
   */
  ghost predicate Disciplined(cfg: Config, s: State, step: Step, c: ClientId, limit: int) {
    && (step.PutGrant? && step.client == c ==> step.limit <= limit)
    && (step.ReadBudget? && step.id in s.acts && s.acts[step.id].job.client == c ==> NoSpendingEvicted(cfg, s, c))
  }

  /** Usage as the order handler reads it covers autonomous spending. */
  lemma UsageCoversSpending(cfg: Config, s: State, c: ClientId)
    requires HistoryOk(cfg, s) && NoSpendingEvicted(cfg, s, c)
    ensures Spent(cfg, s, c) <= UsedNow(cfg, s, c)
  {
    UsedCoversAutonomous(s.history, c, s.pruned, Cutoff(cfg, s), cfg.auditMax);
  }

  /** Recording anything but an autonomous reservation leaves spending alone. */
  lemma RecordingSpends(cfg: Config, s: State, e: Event, c: ClientId)
    requires e.at == s.now && cfg.window >= 0
    ensures Spent(cfg, Recorded(cfg, s, e), c)
         == Spent(cfg, s, c) + if e.client == c && IsAutonomous(e) then e.data.amount else 0
  {
    AutonomousConcat(s.history, [e], c, Cutoff(cfg, s));
    assert [e][1..] == [];
  }

  /** A step that moves one act, and spends nothing, keeps the cover. */
  lemma CoverFrame(cfg: Config, s: State, t: State, c: ClientId, limit: int, x: ActionId, st: Stage)
    requires Covered(cfg, s, c, limit) && x in s.acts
    requires t.acts == s.acts[x := s.acts[x].(stage := st)] && t.grants == s.grants
    requires Spent(cfg, t, c) <= Spent(cfg, s, c)
    requires !st.Minted? && (t.session == s.session || !t.session.Budget?)
    ensures Covered(cfg, t, c, limit)
  {}

  lemma ReadBudgetCovers(cfg: Config, s: State, c: ClientId, limit: int, id: ActionId)
    requires HistoryOk(cfg, s) && Covered(cfg, s, c, limit)
    requires id in s.acts && s.acts[id].stage.Minted? && (s.acts[id].job.client == c ==> NoSpendingEvicted(cfg, s, c))
    ensures Covered(cfg, BudgetRead(cfg, s, id), c, limit)
  {
    if s.acts[id].job.client == c {
      UsageCoversSpending(cfg, s, c);
    }
  }

  lemma ReserveCovers(cfg: Config, s: State, c: ClientId, limit: int)
    requires Covered(cfg, s, c, limit) && cfg.window >= 0 && s.session.Budget? && s.session.id in s.acts
    requires s.session.used + s.acts[s.session.id].job.amount <= s.session.limit
    ensures Covered(cfg, Reserved(cfg, s), c, limit)
  {
    var n := s.session;
    var e := ActEvent(s, n.id, Accepted, Handoff(false, InProgress));
    RecordingSpends(cfg, s, e, c);
  }

  lemma SettleCovers(cfg: Config, s: State, c: ClientId, limit: int, id: ActionId)
    requires HistoryOk(cfg, s) && Covered(cfg, s, c, limit)
    requires id in s.acts && ActOk(s, id) && s.acts[id].stage.Answered?
    ensures Covered(cfg, EventSettled(s, id), c, limit)
  {
    var st := s.acts[id].stage;
    var v := SettlementOf(id, st);
    if NewestWith(s.history, id) >= 0 {
      TrailEnd(s.history, id);
      var t := ExpectedTrail(st);
      assert t[|t| - 1] == Mark(Accepted, Some(st.byHuman));
    }
    SettleAutonomous(s.history, v, c, Cutoff(cfg, s));
    CoverFrame(cfg, s, EventSettled(s, id), c, limit, id, Settled(st.byHuman, st.result));
  }

  /** A step that records an event of act x which is not an autonomous reservation. */
  lemma OtherRecordCovers(
    cfg: Config, s: State, c: ClientId, limit: int, x: ActionId, o: Outcome, r: Reason, st: Stage, n: Session)
    requires Covered(cfg, s, c, limit) && cfg.window >= 0 && x in s.acts && !st.Minted?
    requires o != Accepted || (r.Handoff? && r.byHuman)
    requires n == s.session || !n.Budget?
    ensures Covered(cfg, Staged(Recorded(cfg, s, ActEvent(s, x, o, r)), x, st).(session := n), c, limit)
  {
    RecordingSpends(cfg, s, ActEvent(s, x, o, r), c);
    CoverFrame(cfg, s, Staged(Recorded(cfg, s, ActEvent(s, x, o, r)), x, st).(session := n), c, limit, x, st);
  }

  lemma LockedStepCovers(cfg: Config, s: State, step: Step, c: ClientId, limit: int)
    requires Covered(cfg, s, c, limit) && cfg.window >= 0 && Enabled(cfg, s, step) && HoldsLock(step)
    ensures Covered(cfg, Next(cfg, s, step), c, limit)
  {
    var n := s.session;
    match step {
      case Reserve => ReserveCovers(cfg, s, c, limit);
      case Note =>
        OtherRecordCovers(cfg, s, c, limit, n.id, ExitOutcome(n.exit), ExitReason(n.exit), Noted(n.exit),
                          ExitNoted(cfg, s).session);
      case List => OtherRecordCovers(cfg, s, c, limit, n.id, Queued, QueueReason(n), Listed, Announcing(n.id));
      case ReserveApproved =>
        OtherRecordCovers(cfg, s, c, limit, n.id, Accepted, Handoff(true, InProgress),
                          ApprovalReserved(cfg, s).acts[n.id].stage, Free);
      case Swept => SweptCovers(cfg, s, c, limit);
      case Resolve => CoverFrame(cfg, s, ExitResolved(cfg, s), c, limit, n.id, Left(n.exit));
      case Announce => CoverFrame(cfg, s, Announced(cfg, s), c, limit, n.id, Waiting);
      case PopOverdue => CoverFrame(cfg, s, OverduePopped(s), c, limit, n.todo[0], Popped(TimedOut));
      case PopPurged => CoverFrame(cfg, s, PurgedPopped(s), c, limit, n.todo[0], Popped(Purged));
      case ExceedMandate =>
      case EndPurge =>
    }
  }

  lemma TakenCovers(cfg: Config, s: State, c: ClientId, limit: int, id: ActionId)
    requires Covered(cfg, s, c, limit) && Enabled(cfg, s, Swept) && Q.Has(s.queue, id)
    requires s.session.k == ThenApprove(id) || s.session.k == ThenReject(id)
    ensures Covered(cfg, AfterSweep(cfg, s), c, limit)
  {
    var p := Q.Find(s.queue, id);
    if s.session.k.ThenApprove? {
      CoverFrame(cfg, s, ApprovalTaken(s), c, limit, id, ApprovalTaken(s).acts[id].stage);
    } else {
      CoverFrame(cfg, s, RejectionTaken(s), c, limit, id, Popped(Declined));
    }
  }

  lemma SweptCovers(cfg: Config, s: State, c: ClientId, limit: int)
    requires Covered(cfg, s, c, limit) && Enabled(cfg, s, Swept)
    ensures Covered(cfg, AfterSweep(cfg, s), c, limit)
  {
    match s.session.k {
      case ThenQueue(id, _, _) =>
        CoverFrame(cfg, s, QueueTried(cfg, s), c, limit, id, QueueTried(cfg, s).acts[id].stage);
      case ThenApprove(id) => if Q.Has(s.queue, id) { TakenCovers(cfg, s, c, limit, id); }
      case ThenReject(id) => if Q.Has(s.queue, id) { TakenCovers(cfg, s, c, limit, id); }
      case _ =>
    }
  }

  lemma FreeStepCovers(cfg: Config, s: State, step: Step, c: ClientId, limit: int)
    requires HistoryOk(cfg, s) && Covered(cfg, s, c, limit) && cfg.window >= 0
    requires Enabled(cfg, s, step) && !HoldsLock(step) && !step.SettleEvent?
    requires Disciplined(cfg, s, step, c, limit) && (s.session.Budget? ==> s.session.id in s.acts)
    ensures Covered(cfg, Next(cfg, s, step), c, limit)
  {
    match step {
      case Tick(dt) => AutonomousAges(s.history, c, Cutoff(cfg, s), Cutoff(cfg, Next(cfg, s, step)));
      case DenyUnknown(item, amount, reason) =>
        RecordingSpends(cfg, s, EventNow(s, "unknown", item, amount, Rejected, reason, None), c);
      case DenyNoGrant(d, item, amount) =>
        RecordingSpends(cfg, s, EventNow(s, d, item, amount, Rejected, NoGrant, None), c);
      case ReadBudget(id) => ReadBudgetCovers(cfg, s, c, limit, id);
      case RefuseFull(id) => OtherRecordCovers(cfg, s, c, limit, id, Rejected, QueueFull, TurnedAway, s.session);
      case SettleResolution(id) =>
        CoverFrame(cfg, s, ResolutionSettled(cfg, s, id), c, limit, id, ResolutionSettled(cfg, s, id).acts[id].stage);
      case Retry(id) => CoverFrame(cfg, s, Next(cfg, s, step), c, limit, id, s.acts[id].stage.(retried := true));
      case Return(id, o) =>
        CoverFrame(cfg, s, HandoffReturned(s, id, o), c, limit, id, HandoffReturned(s, id, o).acts[id].stage);
      case _ =>
    }
  }

  lemma StepCovers(cfg: Config, s: State, step: Step, c: ClientId, limit: int)
    requires Inv(cfg, s) && Covered(cfg, s, c, limit) && cfg.window >= 0
    requires Enabled(cfg, s, step) && Disciplined(cfg, s, step, c, limit)
    ensures Covered(cfg, Next(cfg, s, step), c, limit)
  {
    if HoldsLock(step) {
      LockedStepCovers(cfg, s, step, c, limit);
    } else if step.SettleEvent? {
      assert ActOk(s, step.id);
      SettleCovers(cfg, s, c, limit, step.id);
    } else {
      FreeStepCovers(cfg, s, step, c, limit);
    }
  }

  /**
   For every run in which client c's grants never exceed `limit`, and no autonomous reservation of the window
   has been evicted when an order of c reads its usage, autonomous spending in the trailing window is at most
   `limit` throughout.
   */
  lemma {:induction false} MandateSafety(cfg: Config, ss: seq<State>, steps: seq<Step>, c: ClientId, limit: nat, i: nat)
    requires IsRun(cfg, ss, steps) && i < |ss| && cfg.window >= 0
    requires forall k :: 0 <= k < |steps| ==> Disciplined(cfg, ss[k], steps[k], c, limit)
    ensures Spent(cfg, ss[i], c) <= limit
    ensures Covered(cfg, ss[i], c, limit)
  {
    if i > 0 {
      MandateSafety(cfg, ss, steps, c, limit, i - 1);
      Reachable(cfg, ss, steps, i - 1);
      StepCovers(cfg, ss[i - 1], steps[i - 1], c, limit);
    }
  }

  /** In particular the theorem applies while the client's in-window events fit under the per-client cap. */
  lemma MandateSafetyWithinCap(cfg: Config, ss: seq<State>, steps: seq<Step>, c: ClientId, limit: nat, i: nat)
    requires IsRun(cfg, ss, steps) && i < |ss| && cfg.window >= 0
    requires forall k :: 0 <= k < |steps| ==> FitsTheCap(cfg, ss[k], c)
    requires forall k :: 0 <= k < |steps| && steps[k].PutGrant? && steps[k].client == c ==> steps[k].limit <= limit
    ensures Spent(cfg, ss[i], c) <= limit
  {
    forall k | 0 <= k < |steps| ensures Disciplined(cfg, ss[k], steps[k], c, limit) {
      assert FitsTheCap(cfg, ss[k], c);
    }
    MandateSafety(cfg, ss, steps, c, limit, i);
  }

  /** Autonomous spending of the current window that the cap has cut out of the log. */
  function EvictedSpending(cfg: Config, s: State, c: ClientId): int {
    Autonomous(Evicted(s.history, c, Cutoff(cfg, s), cfg.auditMax), c, Cutoff(cfg, s))
  }

  /** What of a client's limit an order of this amount would leave, going by the log's own autonomous spending. */
  function Slack(cfg: Config, s: State, c: ClientId, amount: int, limit: int): int {
    limit - amount - Autonomous(s.events, c, Cutoff(cfg, s))
  }

  /** The two steps with which an order reads its budget and reserves, and what is then spent. */
  lemma ReservationSpends(cfg: Config, s: State, id: ActionId)
    requires HistoryOk(cfg, s) && cfg.window >= 0 && id in s.acts && s.acts[id].stage.Minted?
    ensures var job, t := s.acts[id].job, BudgetRead(cfg, s, id);
            Enabled(cfg, t, Reserve) ==>
              Spent(cfg, Next(cfg, t, Reserve), job.client)
              == Autonomous(s.events, job.client, Cutoff(cfg, s)) + EvictedSpending(cfg, s, job.client) + job.amount
  {
    var t, c := BudgetRead(cfg, s, id), s.acts[id].job.client;
    if Enabled(cfg, t, Reserve) {
      var e := ActEvent(t, id, Accepted, Handoff(false, InProgress));
      RecordingSpends(cfg, t, e, c);
      assert Next(cfg, t, Reserve).history == Recorded(cfg, t, e).history;
      AutonomousAgainstHistory(s.history, c, s.pruned, Cutoff(cfg, s), cfg.auditMax);
    }
  }

  /**
   In any reachable state, an order that reads its budget now is reserved beyond its limit iff it fits what the
   log shows as used and the cap has evicted more autonomous spending than the order would leave room for.
   */
  lemma ReservationExceedsIff(cfg: Config, ss: seq<State>, steps: seq<Step>, i: nat, id: ActionId)
    requires IsRun(cfg, ss, steps) && i < |ss| && cfg.window >= 0
    requires ss[i].session.Free? && id in ss[i].acts && ss[i].acts[id].stage.Minted?
    ensures var s := ss[i];
            var job, limit, t := s.acts[id].job, s.acts[id].stage.limit, BudgetRead(cfg, s, id);
            (Enabled(cfg, t, Reserve) && Spent(cfg, Next(cfg, t, Reserve), job.client) > limit)
            <==> UsedNow(cfg, s, job.client) + job.amount <= limit
                 && EvictedSpending(cfg, s, job.client) > Slack(cfg, s, job.client, job.amount, limit)
  {
    assert HistoryOk(cfg, ss[i]) by { Reachable(cfg, ss, steps, i); }
    ReservationSpends(cfg, ss[i], id);
  }
}
