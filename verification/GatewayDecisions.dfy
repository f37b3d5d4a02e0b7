/**
 What the handlers that hold the lock come to: an order is reserved, queued or refused, an approval or a rejection of
 a live entry takes effect, whatever else goes on meanwhile; and each of them can always be started and finished.
 */
module GatewayDecisions {
  import opened Common
  import opened Playing
  import opened Ledger
  import opened Gateway
  import opened GatewayInvariant
  import opened GatewaySteps
  import opened GatewayLifecycle
  import opened GatewayAudit
  import GE = GatewayEnvelope
  import GK = GatewayLock
  import GR = GatewayRuns
  import Q = Queue
  import R = Resolutions

  /** What the lock holder has set out to do. */
  datatype Goal =
    | ToReject(id: ActionId)
    | ToApprove(id: ActionId, granted: bool)                               // does the client hold a grant?
    | ToOrder(id: ActionId, limit: int, used: int, from: Time)             // what was read, and when

  ghost predicate Polled(cfg: Config, s: State, id: ActionId, status: R.Status) {
    var g := R.Get(s.resolutions, id, s.now, cfg.resolutionTtl as real).0;
    g.Some? && g.value.data.status == status
  }

  /** The action waits in the queue, and the running sweep will not take it. */
  ghost predicate StillWaits(s: State, id: ActionId, todo: seq<ActionId>) {
    id in s.acts && s.acts[id].stage.Waiting? && Q.Has(s.queue, id) && id !in todo
  }

  ghost predicate Rejecting(cfg: Config, s: State, id: ActionId) {
    match s.session
    case Expiring(todo, _, k) => k == ThenReject(id) && StillWaits(s, id, todo)
    case Noting(x, e, todo, _, k) =>
      (e.TimedOut? && k == ThenReject(id) && StillWaits(s, id, todo)) || (x == id && e.Declined?)
    case Resolving(x, e, todo, _, k) =>
      (e.TimedOut? && k == ThenReject(id) && StillWaits(s, id, todo)) || (x == id && e.Declined?)
    case Free => id in s.acts && s.acts[id].stage == Left(Declined) && Polled(cfg, s, id, R.Rejected)
    case _ => false
  }

  ghost predicate WaitsFor(s: State, id: ActionId, granted: bool, todo: seq<ActionId>) {
    StillWaits(s, id, todo) && (granted <==> s.acts[id].job.client in s.grants)
  }

  ghost predicate Approving(cfg: Config, s: State, id: ActionId, granted: bool) {
    match s.session
    case Expiring(todo, _, k) => k == ThenApprove(id) && WaitsFor(s, id, granted, todo)
    case Noting(x, e, todo, _, k) =>
      || (e.TimedOut? && k == ThenApprove(id) && WaitsFor(s, id, granted, todo))
      || (!granted && x == id && e.ApprovalRefused?)
    case Resolving(x, e, todo, _, k) =>
      || (e.TimedOut? && k == ThenApprove(id) && WaitsFor(s, id, granted, todo))
      || (!granted && x == id && e.ApprovalRefused?)
    case Reserving(x, _) => granted && x == id
    case Free =>
      && id in s.acts
      && if granted then s.acts[id].stage.InFlight? && s.acts[id].stage.byHuman && !s.acts[id].stage.retried
         else s.acts[id].stage == Left(ApprovalRefused) && Polled(cfg, s, id, R.Rejected)
    case _ => false
  }

  /** The order is the newest entry of the queue, there was room for it, and it expires one TTL after it was queued. */
  ghost predicate IsQueued(cfg: Config, s: State, id: ActionId, from: Time) {
    && id in s.acts && s.queue != []
    && var p, others := s.queue[|s.queue| - 1], s.queue[..|s.queue| - 1];
       && p.id == id && p.job == s.acts[id].job
       && from <= p.queuedAt <= s.now && p.expiresAt == p.queuedAt + cfg.pendingTtl as real
       && Q.CountFor(others, p.job.client) < cfg.pendingMax
  }

  ghost predicate IsRefused(cfg: Config, s: State, id: ActionId) {
    && id in s.acts && s.acts[id].stage.QueueIsFull? && !Q.Has(s.queue, id)
    && Q.CountFor(s.queue, s.acts[id].job.client) >= cfg.pendingMax
  }

  ghost predicate Ordering(cfg: Config, s: State, id: ActionId, limit: int, used: int, from: Time) {
    && id in s.acts && from <= s.now
    && var over := used + s.acts[id].job.amount > limit;
       match s.session
       case Budget(_, _, _) => s.session == Budget(id, limit, used)
       case Expiring(_, _, k) => over && k == ThenQueue(id, limit, used)
       case Noting(_, e, _, _, k) => over && e.TimedOut? && k == ThenQueue(id, limit, used)
       case Resolving(_, e, _, _, k) => over && e.TimedOut? && k == ThenQueue(id, limit, used)
       case Listing(x, _, _) => over && x == id && IsQueued(cfg, s, id, from)
       case Announcing(x) => over && x == id && IsQueued(cfg, s, id, from)
       case Free =>
         if !over then s.acts[id].stage == InFlight(false, limit, used, false)
         else IsRefused(cfg, s, id)
              || (s.acts[id].stage.Waiting? && IsQueued(cfg, s, id, from) && Polled(cfg, s, id, R.Queued))
       case _ => false
  }

  ghost predicate Serving(cfg: Config, s: State, g: Goal) {
    match g
    case ToReject(id) => Rejecting(cfg, s, id)
    case ToApprove(id, granted) => Approving(cfg, s, id, granted)
    case ToOrder(id, limit, used, from) => Ordering(cfg, s, id, limit, used, from)
  }

  /** A grant that comes in time decides otherwise. */
  ghost predicate Undisturbed(s: State, step: Step, g: Goal) {
    g.ToApprove? && !g.granted && step.PutGrant? && g.id in s.acts ==> step.client != s.acts[g.id].job.client
  }

  // ---------- what the other handlers do meanwhile ----------

  /** While the lock is held the others leave alone whatever is in the queue or on its way out. */
  lemma OthersKeepAway(cfg: Config, s: State, step: Step, id: ActionId)
    requires Enabled(cfg, s, step) && !HoldsLock(step) && !s.session.Free? && id in s.acts
    requires s.acts[id].stage.Waiting?
    ensures id in Next(cfg, s, step).acts && Next(cfg, s, step).acts[id] == s.acts[id]
  {}

  lemma OthersKeepQueue(cfg: Config, s: State, step: Step)
    requires Enabled(cfg, s, step) && !HoldsLock(step) && !s.session.Free?
    ensures Next(cfg, s, step).queue == s.queue && Next(cfg, s, step).session == s.session
    ensures Next(cfg, s, step).now >= s.now
  {}

  lemma OthersKeepGrants(cfg: Config, s: State, step: Step, c: ClientId)
    requires Enabled(cfg, s, step) && !HoldsLock(step) && !s.session.Free? && !(step.PutGrant? && step.client == c)
    ensures c in Next(cfg, s, step).grants <==> c in s.grants
  {}

  lemma OthersGrant(cfg: Config, s: State, step: Step, c: ClientId)
    requires Enabled(cfg, s, step) && !HoldsLock(step) && !s.session.Free? && c in s.grants
    ensures c in Next(cfg, s, step).grants
  {}

  lemma OthersKeepServing(cfg: Config, s: State, step: Step, g: Goal)
    requires Inv(cfg, s) && Enabled(cfg, s, step) && !HoldsLock(step) && !s.session.Free?
    requires Serving(cfg, s, g) && Undisturbed(s, step, g)
    ensures Serving(cfg, Next(cfg, s, step), g)
  {
    var t := Next(cfg, s, step);
    assert t.queue == s.queue && t.session == s.session && t.now >= s.now by { OthersKeepQueue(cfg, s, step); }
    match g {
      case ToReject(id) => OthersKeepRejecting(cfg, s, step, t, id);
      case ToApprove(id, granted) => OthersKeepApproving(cfg, s, step, t, id, granted);
      case ToOrder(id, _, _, _) =>
        assert id in t.acts && t.acts[id].job == s.acts[id].job by { StepAdvances(cfg, s, step); }
    }
  }

  lemma OthersKeepRejecting(cfg: Config, s: State, step: Step, t: State, id: ActionId)
    requires Enabled(cfg, s, step) && !HoldsLock(step) && !s.session.Free? && t == Next(cfg, s, step)
    requires t.queue == s.queue && t.session == s.session && Rejecting(cfg, s, id)
    ensures Rejecting(cfg, t, id)
  {
    if id in s.acts && s.acts[id].stage.Waiting? { OthersKeepAway(cfg, s, step, id); }
  }

  lemma OthersKeepApproving(cfg: Config, s: State, step: Step, t: State, id: ActionId, granted: bool)
    requires Enabled(cfg, s, step) && !HoldsLock(step) && !s.session.Free? && t == Next(cfg, s, step)
    requires t.queue == s.queue && t.session == s.session
    requires Approving(cfg, s, id, granted) && Undisturbed(s, step, ToApprove(id, granted))
    ensures Approving(cfg, t, id, granted)
  {
    if id in s.acts && s.acts[id].stage.Waiting? {
      OthersKeepAway(cfg, s, step, id);
      if granted {
        if s.acts[id].job.client in s.grants { OthersGrant(cfg, s, step, s.acts[id].job.client); }
      } else {
        OthersKeepGrants(cfg, s, step, s.acts[id].job.client);
      }
    }
  }

  // ---------- the lock holder's own steps ----------

  lemma PopKeepsWaiting(cfg: Config, s: State, id: ActionId)
    requires QueueOk(cfg, s) && Enabled(cfg, s, PopOverdue) && StillWaits(s, id, s.session.todo)
    ensures StillWaits(OverduePopped(s), id, s.session.todo[1..])
  {
    var x := s.session.todo[0];
    assert x in s.session.todo;
    Q.WithoutMembers(s.queue, x);
    var p := Q.Find(s.queue, id);
    assert p in Q.Without(s.queue, x);
  }

  lemma NoteKeepsWaiting(cfg: Config, s: State, id: ActionId)
    requires SessionStages(s) && Enabled(cfg, s, Note) && StillWaits(s, id, s.session.todo)
    ensures StillWaits(ExitNoted(cfg, s), id, s.session.todo)
  {}

  lemma ResolveKeepsWaiting(cfg: Config, s: State, id: ActionId)
    requires SessionStages(s) && Enabled(cfg, s, Resolve) && StillWaits(s, id, s.session.todo)
    ensures StillWaits(ExitResolved(cfg, s), id, s.session.todo)
  {}

  /** What was just written is what a poll shows. */
  lemma JustResolved(cfg: Config, s: State, x: ActionId, status: R.Status, ch: Option<string>, o: Option<string>)
    requires ResolutionsOk(cfg, s) && x in s.acts && cfg.resolutionMax > 0 && cfg.resolutionTtl >= 0
    ensures Polled(cfg, Resolved(cfg, s, x, status, ch, o), x, status)
  {
    var u := R.Update(x, s.acts[x].job.client, status, ch, o);
    R.PutThenGet(s.resolutions, u, s.now, cfg.resolutionTtl as real, cfg.resolutionMax, s.now);
  }

  lemma ExitIsPolled(cfg: Config, s: State)
    requires ResolutionsOk(cfg, s) && Enabled(cfg, s, Resolve) && cfg.resolutionMax > 0 && cfg.resolutionTtl >= 0
    ensures Polled(cfg, ExitResolved(cfg, s), s.session.id, ExitStatus(s.session.exit))
  {
    JustResolved(cfg, s, s.session.id, ExitStatus(s.session.exit), None, None);
  }

  lemma RejectionIsTaken(cfg: Config, s: State, id: ActionId)
    requires Enabled(cfg, s, Swept) && Rejecting(cfg, s, id)
    ensures Rejecting(cfg, AfterSweep(cfg, s), id)
  {}

  lemma SweepingRejection(cfg: Config, s: State, step: Step, id: ActionId)
    requires QueueOk(cfg, s) && SessionStages(s) && Enabled(cfg, s, step) && (step.PopOverdue? || step.Note?)
    requires Rejecting(cfg, s, id)
    ensures Rejecting(cfg, Next(cfg, s, step), id)
  {
    if step.PopOverdue? {
      PopKeepsWaiting(cfg, s, id);
    } else if s.session.exit.TimedOut? {
      NoteKeepsWaiting(cfg, s, id);
    }
  }

  lemma ResolvingRejection(cfg: Config, s: State, id: ActionId)
    requires ResolutionsOk(cfg, s) && SessionStages(s) && Enabled(cfg, s, Resolve)
    requires Rejecting(cfg, s, id) && cfg.resolutionMax > 0 && cfg.resolutionTtl >= 0
    ensures Rejecting(cfg, ExitResolved(cfg, s), id)
  {
    if s.session.exit.TimedOut? { ResolveKeepsWaiting(cfg, s, id); } else { ExitIsPolled(cfg, s); }
  }

  lemma HolderKeepsRejecting(cfg: Config, s: State, step: Step, id: ActionId)
    requires QueueOk(cfg, s) && ResolutionsOk(cfg, s) && SessionStages(s) && Enabled(cfg, s, step) && HoldsLock(step)
    requires Rejecting(cfg, s, id) && cfg.resolutionMax > 0 && cfg.resolutionTtl >= 0
    ensures Rejecting(cfg, Next(cfg, s, step), id)
  {
    if step.PopOverdue? || step.Note? {
      SweepingRejection(cfg, s, step, id);
    } else if step.Resolve? {
      ResolvingRejection(cfg, s, id);
    } else if step.Swept? {
      RejectionIsTaken(cfg, s, id);
    }
  }

  lemma ApprovalIsTaken(cfg: Config, s: State, id: ActionId, granted: bool)
    requires QueueOk(cfg, s) && Enabled(cfg, s, Swept) && Approving(cfg, s, id, granted)
    ensures Approving(cfg, AfterSweep(cfg, s), id, granted)
  {
    var p := Q.Find(s.queue, id);
    assert p.job == s.acts[id].job;
  }

  lemma SweepingApproval(cfg: Config, s: State, step: Step, id: ActionId, granted: bool)
    requires QueueOk(cfg, s) && SessionStages(s) && Enabled(cfg, s, step) && (step.PopOverdue? || step.Note?)
    requires Approving(cfg, s, id, granted)
    ensures Approving(cfg, Next(cfg, s, step), id, granted)
  {
    if step.PopOverdue? {
      PopKeepsWaiting(cfg, s, id);
    } else if s.session.exit.TimedOut? {
      NoteKeepsWaiting(cfg, s, id);
    }
  }

  lemma ResolvingApproval(cfg: Config, s: State, id: ActionId, granted: bool)
    requires ResolutionsOk(cfg, s) && SessionStages(s) && Enabled(cfg, s, Resolve)
    requires Approving(cfg, s, id, granted) && cfg.resolutionMax > 0 && cfg.resolutionTtl >= 0
    ensures Approving(cfg, ExitResolved(cfg, s), id, granted)
  {
    if s.session.exit.TimedOut? { ResolveKeepsWaiting(cfg, s, id); } else { ExitIsPolled(cfg, s); }
  }

  lemma HolderKeepsApproving(cfg: Config, s: State, step: Step, id: ActionId, granted: bool)
    requires QueueOk(cfg, s) && ResolutionsOk(cfg, s) && SessionStages(s) && Enabled(cfg, s, step) && HoldsLock(step)
    requires Approving(cfg, s, id, granted) && cfg.resolutionMax > 0 && cfg.resolutionTtl >= 0
    ensures Approving(cfg, Next(cfg, s, step), id, granted)
  {
    if step.PopOverdue? || step.Note? {
      SweepingApproval(cfg, s, step, id, granted);
    } else if step.Resolve? {
      ResolvingApproval(cfg, s, id, granted);
    } else if step.Swept? {
      ApprovalIsTaken(cfg, s, id, granted);
    }
  }

  lemma FullIsRefused(cfg: Config, s: State, id: ActionId)
    requires s.session.Expiring? && s.session.k.ThenQueue? && s.session.k.id == id && id in s.acts
    requires Q.CountFor(s.queue, s.acts[id].job.client) >= cfg.pendingMax && !Q.Has(s.queue, id)
    ensures var t := QueueTried(cfg, s); IsRefused(cfg, t, id) && t.session.Free? && t.now == s.now
    ensures QueueTried(cfg, s).acts[id].job == s.acts[id].job
  {}

  lemma RoomIsTaken(cfg: Config, s: State, id: ActionId)
    requires s.session.Expiring? && s.session.k.ThenQueue? && s.session.k.id == id && id in s.acts
    requires Q.CountFor(s.queue, s.acts[id].job.client) < cfg.pendingMax
    ensures var t := QueueTried(cfg, s);
            t.session.Listing? && t.session.id == id && t.now == s.now && IsQueued(cfg, t, id, s.now)
    ensures QueueTried(cfg, s).acts[id].job == s.acts[id].job
  {
    var t := QueueTried(cfg, s);
    var p := Q.Pending(id, s.acts[id].job, s.now, s.now + cfg.pendingTtl as real);
    assert t.queue == s.queue + [p];
    assert t.queue[..|t.queue| - 1] == s.queue && t.queue[|t.queue| - 1] == p;
  }

  lemma QueueingIsTried(cfg: Config, s: State, id: ActionId, limit: int, used: int, from: Time)
    requires QueueOk(cfg, s) && SessionStages(s) && ActsOk(s)
    requires Enabled(cfg, s, Swept) && Ordering(cfg, s, id, limit, used, from)
    ensures Ordering(cfg, QueueTried(cfg, s), id, limit, used, from)
  {
    assert !Q.Has(s.queue, id) by { assert ActOk(s, id); }
    if Q.CountFor(s.queue, s.acts[id].job.client) >= cfg.pendingMax {
      FullIsRefused(cfg, s, id);
    } else {
      RoomIsTaken(cfg, s, id);
    }
  }

  lemma AnnouncedOrder(cfg: Config, s: State, id: ActionId, limit: int, used: int, from: Time)
    requires ResolutionsOk(cfg, s) && SessionStages(s) && Enabled(cfg, s, Announce)
    requires Ordering(cfg, s, id, limit, used, from) && cfg.resolutionMax > 0 && cfg.resolutionTtl >= 0
    ensures Ordering(cfg, Announced(cfg, s), id, limit, used, from)
  {
    JustResolved(cfg, s, id, R.Queued, None, None);
  }

  lemma ListedOrder(cfg: Config, s: State, id: ActionId, limit: int, used: int, from: Time)
    requires SessionStages(s) && Enabled(cfg, s, List) && Ordering(cfg, s, id, limit, used, from)
    ensures Ordering(cfg, QueueListed(cfg, s), id, limit, used, from)
  {}

  lemma SweepingOrder(cfg: Config, s: State, step: Step, id: ActionId, limit: int, used: int, from: Time)
    requires SessionStages(s) && Enabled(cfg, s, step) && (step.PopOverdue? || step.Note? || step.Resolve?)
    requires Ordering(cfg, s, id, limit, used, from)
    ensures Ordering(cfg, Next(cfg, s, step), id, limit, used, from)
  {}

  lemma HolderKeepsOrdering(cfg: Config, s: State, step: Step, id: ActionId, limit: int, used: int, from: Time)
    requires Inv(cfg, s) && SessionStages(s) && Enabled(cfg, s, step) && HoldsLock(step)
    requires Ordering(cfg, s, id, limit, used, from) && cfg.resolutionMax > 0 && cfg.resolutionTtl >= 0
    ensures Ordering(cfg, Next(cfg, s, step), id, limit, used, from)
  {
    if step.PopOverdue? || step.Note? || step.Resolve? {
      SweepingOrder(cfg, s, step, id, limit, used, from);
    } else if step.Swept? {
      QueueingIsTried(cfg, s, id, limit, used, from);
    } else if step.List? {
      ListedOrder(cfg, s, id, limit, used, from);
    } else if step.Announce? {
      AnnouncedOrder(cfg, s, id, limit, used, from);
    }
  }

  lemma ServingStep(cfg: Config, s: State, step: Step, g: Goal)
    requires Inv(cfg, s) && Enabled(cfg, s, step) && !s.session.Free? && Serving(cfg, s, g) && Undisturbed(s, step, g)
    requires cfg.resolutionMax > 0 && cfg.resolutionTtl >= 0
    ensures Serving(cfg, Next(cfg, s, step), g)
  {
    if HoldsLock(step) {
      SessionStagesHold(cfg, s);
      match g {
        case ToReject(id) => HolderKeepsRejecting(cfg, s, step, id);
        case ToApprove(id, granted) => HolderKeepsApproving(cfg, s, step, id, granted);
        case ToOrder(id, limit, used, from) => HolderKeepsOrdering(cfg, s, step, id, limit, used, from);
      }
    } else {
      OthersKeepServing(cfg, s, step, g);
    }
  }

  // ---------- until the lock is free again ----------

  /** Between points i and j the lock is not let go of, and nothing decides otherwise. */
  ghost predicate Stretch(ss: seq<State>, steps: seq<Step>, i: nat, j: nat, g: Goal) {
    && i < j < |ss| == |steps| + 1
    && forall n :: i < n < j ==> !ss[n].session.Free? && Undisturbed(ss[n], steps[n], g)
  }

  lemma RunServes(cfg: Config, ss: seq<State>, steps: seq<Step>, i: nat, g: Goal)
    requires IsRun(cfg, ss, steps) && i < |steps| && !ss[i].session.Free? && Serving(cfg, ss[i], g)
    requires Undisturbed(ss[i], steps[i], g) && cfg.resolutionMax > 0 && cfg.resolutionTtl >= 0
    ensures Serving(cfg, ss[i + 1], g)
  {
    RunStep(cfg, ss, steps, i);
    Reachable(cfg, ss, steps, i);
    ServingStep(cfg, ss[i], steps[i], g);
  }

  lemma {:induction false} ServedThroughout(cfg: Config, ss: seq<State>, steps: seq<Step>, i: nat, j: nat, g: Goal)
    requires IsRun(cfg, ss, steps) && Stretch(ss, steps, i, j, g) && Serving(cfg, ss[i + 1], g)
    requires cfg.resolutionMax > 0 && cfg.resolutionTtl >= 0
    ensures Serving(cfg, ss[j], g)
  {
    if i + 1 < j {
      assert Stretch(ss, steps, i, j - 1, g);
      ServedThroughout(cfg, ss, steps, i, j - 1, g);
      RunServes(cfg, ss, steps, j - 1, g);
    }
  }

  // ---------- how each of them starts ----------

  /** The entry is in the queue and its time has not run out. */
  ghost predicate QueuedAndLive(s: State, id: ActionId) {
    exists p :: p in s.queue && p.id == id && p.expiresAt >= s.now
  }

  lemma LiveWaits(cfg: Config, s: State, id: ActionId)
    requires QueueOk(cfg, s) && ActsOk(s) && s.session.Free? && QueuedAndLive(s, id)
    ensures StillWaits(s, id, Q.Overdue(s.queue, s.now))
  {
    var p :| p in s.queue && p.id == id && p.expiresAt >= s.now;
    assert Q.Has(s.queue, id) && ActOk(s, id);
    Q.OverdueMembers(s.queue, s.now);
  }

  lemma RejectionStarts(cfg: Config, s: State, id: ActionId)
    requires QueueOk(cfg, s) && ActsOk(s) && s.session.Free? && QueuedAndLive(s, id)
    ensures Enabled(cfg, s, StartReject(id)) && Serving(cfg, Next(cfg, s, StartReject(id)), ToReject(id))
  {
    LiveWaits(cfg, s, id);
  }

  lemma ApprovalStarts(cfg: Config, s: State, id: ActionId)
    requires QueueOk(cfg, s) && ActsOk(s) && s.session.Free? && QueuedAndLive(s, id)
    ensures id in s.acts && Enabled(cfg, s, StartApprove(id))
    ensures Serving(cfg, Next(cfg, s, StartApprove(id)), ToApprove(id, s.acts[id].job.client in s.grants))
  {
    LiveWaits(cfg, s, id);
  }

  lemma OrderStarts(cfg: Config, s: State, id: ActionId)
    requires s.session.Free? && id in s.acts && s.acts[id].stage.Minted?
    ensures Enabled(cfg, s, ReadBudget(id))
    ensures Serving(cfg, Next(cfg, s, ReadBudget(id)),
                    ToOrder(id, s.acts[id].stage.limit, UsedNow(cfg, s, s.acts[id].job.client), s.now))
  {}

  // ---------- and how it ends ----------

  /** The two events of an order that was queued and then refused for this reason. */
  ghost predicate RefusedAfterQueueing(s: State, id: ActionId, reason: Reason) {
    && id in s.acts
    && var job, rows := s.acts[id].job, EventsOf(s.history, id);
       && |rows| == 2 && rows[0].data.outcome == Queued
       && rows[1].client == job.client
       && rows[1].data == Entry(job.item, job.amount, Rejected, reason, None, Some(id))
  }

  lemma TwoRows(s: State, id: ActionId)
    requires id in s.acts && s.acts[id].stage.Left?
    requires s.acts[id].stage.exit.Declined? || s.acts[id].stage.exit.ApprovalRefused?
    requires var rows, trail := EventsOf(s.history, id), ExpectedTrail(s.acts[id].stage);
             && |rows| == |trail|
             && forall k :: 0 <= k < |rows| ==> MarkOf(rows[k]) == trail[k] && Fits(s.acts[id], rows[k])
    ensures RefusedAfterQueueing(s, id,
                                 if s.acts[id].stage.exit.Declined? then RejectedByHuman else RevokedWhilePending)
  {
    EventsAreTrail(s.history, id);
    var rows := EventsOf(s.history, id);
    assert |rows| == 2 && rows[1] in rows && Fits(s.acts[id], rows[1]);
  }

  lemma ExitIsWritten(cfg: Config, ss: seq<State>, steps: seq<Step>, j: nat, id: ActionId)
    requires IsRun(cfg, ss, steps) && j < |ss| && id in ss[j].acts && ss[j].acts[id].stage.Left?
    requires ss[j].acts[id].stage.exit.Declined? || ss[j].acts[id].stage.exit.ApprovalRefused?
    ensures RefusedAfterQueueing(ss[j], id,
                                 if ss[j].acts[id].stage.exit.Declined? then RejectedByHuman else RevokedWhilePending)
    ensures !Q.Has(ss[j].queue, id)
  {
    EventsOfAction(cfg, ss, steps, j, id);
    TwoRows(ss[j], id);
    assert ActOk(ss[j], id) by { Reachable(cfg, ss, steps, j); }
  }

  /**
   A rejection takes effect: if the entry is queued and live when the admin rejects it, then once the lock is free again
   it is out of the queue, its two events are "queued" and "rejected by human", and its client polls "rejected".
   */
  lemma RejectionTakesEffect(cfg: Config, ss: seq<State>, steps: seq<Step>, i: nat, j: nat, id: ActionId)
    requires IsRun(cfg, ss, steps) && i < |steps| && steps[i] == StartReject(id) && QueuedAndLive(ss[i], id)
    requires Stretch(ss, steps, i, j, ToReject(id)) && ss[j].session.Free?
    requires cfg.resolutionMax > 0 && cfg.resolutionTtl >= 0
    ensures !Q.Has(ss[j].queue, id) && RefusedAfterQueueing(ss[j], id, RejectedByHuman)
    ensures Polled(cfg, ss[j], id, R.Rejected)
  {
    RunStep(cfg, ss, steps, i);
    assert QueueOk(cfg, ss[i]) && ActsOk(ss[i]) by { Reachable(cfg, ss, steps, i); }
    RejectionStarts(cfg, ss[i], id);
    ServedThroughout(cfg, ss, steps, i, j, ToReject(id));
    ExitIsWritten(cfg, ss, steps, j, id);
  }

  /** The two events of an order that a human approved. */
  ghost predicate ReservedAfterQueueing(s: State, id: ActionId) {
    && id in s.acts
    && var job, rows := s.acts[id].job, EventsOf(s.history, id);
       && |rows| == 2 && rows[0].data.outcome == Queued
       && rows[1].client == job.client
       && rows[1].data == Entry(job.item, job.amount, Accepted, Handoff(true, InProgress), None, Some(id))
  }

  lemma ReservedRows(s: State, id: ActionId)
    requires id in s.acts && s.acts[id].stage.InFlight? && s.acts[id].stage.byHuman
    requires var rows, trail := EventsOf(s.history, id), ExpectedTrail(s.acts[id].stage);
             && |rows| == |trail|
             && forall k :: 0 <= k < |rows| ==> MarkOf(rows[k]) == trail[k] && Fits(s.acts[id], rows[k])
    ensures ReservedAfterQueueing(s, id)
  {
    EventsAreTrail(s.history, id);
    var rows := EventsOf(s.history, id);
    assert |rows| == 2 && rows[1] in rows && Fits(s.acts[id], rows[1]);
  }

  lemma ApprovalIsWritten(cfg: Config, ss: seq<State>, steps: seq<Step>, j: nat, id: ActionId)
    requires IsRun(cfg, ss, steps) && j < |ss| && id in ss[j].acts
    requires ss[j].acts[id].stage.InFlight? && ss[j].acts[id].stage.byHuman
    ensures ReservedAfterQueueing(ss[j], id) && !Q.Has(ss[j].queue, id)
  {
    EventsOfAction(cfg, ss, steps, j, id);
    ReservedRows(ss[j], id);
    assert ActOk(ss[j], id) by { Reachable(cfg, ss, steps, j); }
  }

  /**
   An approval takes effect: if the entry is queued and live when the admin approves it, then once the lock is free
   again it is out of the queue, and reserved for its full amount in a human's name if its client held a grant when
   the approval began; refused, audited and polled as "rejected" if it held none and was given none meanwhile.
   */
  lemma ApprovalTakesEffect(cfg: Config, ss: seq<State>, steps: seq<Step>, i: nat, j: nat, id: ActionId)
    requires IsRun(cfg, ss, steps) && i < |steps| && steps[i] == StartApprove(id) && QueuedAndLive(ss[i], id)
    requires id in ss[i].acts && j < |ss| && ss[j].session.Free?
    requires Stretch(ss, steps, i, j, ToApprove(id, ss[i].acts[id].job.client in ss[i].grants))
    requires cfg.resolutionMax > 0 && cfg.resolutionTtl >= 0
    ensures !Q.Has(ss[j].queue, id) && id in ss[j].acts
    ensures ss[i].acts[id].job.client in ss[i].grants ==>
              ss[j].acts[id].stage.InFlight? && ReservedAfterQueueing(ss[j], id)
    ensures ss[i].acts[id].job.client !in ss[i].grants ==>
              RefusedAfterQueueing(ss[j], id, RevokedWhilePending) && Polled(cfg, ss[j], id, R.Rejected)
  {
    RunStep(cfg, ss, steps, i);
    assert QueueOk(cfg, ss[i]) && ActsOk(ss[i]) by { Reachable(cfg, ss, steps, i); }
    ApprovalStarts(cfg, ss[i], id);
    var granted := ss[i].acts[id].job.client in ss[i].grants;
    ServedThroughout(cfg, ss, steps, i, j, ToApprove(id, granted));
    if granted {
      ApprovalIsWritten(cfg, ss, steps, j, id);
    } else {
      ExitIsWritten(cfg, ss, steps, j, id);
    }
  }

  /**
   What becomes of an order once it has read its budget, when the lock is next free: reserved on its own if it fits its
   limit; otherwise queued behind fewer than the bound's other entries of its client, to expire one TTL later, and
   polled as "queued"; otherwise refused, because that many entries of its client are there.
   */
  lemma OrderIsDecided(cfg: Config, ss: seq<State>, steps: seq<Step>, i: nat, j: nat, id: ActionId)
    requires IsRun(cfg, ss, steps) && i < |steps| && steps[i] == ReadBudget(id)
    requires id in ss[i].acts && ss[i].acts[id].stage.Minted? && j < |ss| && ss[j].session.Free?
    requires var a := ss[i].acts[id];
             Stretch(ss, steps, i, j, ToOrder(id, a.stage.limit, UsedNow(cfg, ss[i], a.job.client), ss[i].now))
    requires cfg.resolutionMax > 0 && cfg.resolutionTtl >= 0
    ensures id in ss[j].acts && ss[j].acts[id].job == ss[i].acts[id].job
    ensures var a, t := ss[i].acts[id], ss[j];
            var limit, used := a.stage.limit, UsedNow(cfg, ss[i], a.job.client);
            if used + a.job.amount <= limit then t.acts[id].stage == InFlight(false, limit, used, false)
            else IsRefused(cfg, t, id)
                 || (t.acts[id].stage.Waiting? && IsQueued(cfg, t, id, ss[i].now) && Polled(cfg, t, id, R.Queued))
  {
    RunStep(cfg, ss, steps, i);
    var a := ss[i].acts[id];
    OrderStarts(cfg, ss[i], id);
    ServedThroughout(cfg, ss, steps, i, j, ToOrder(id, a.stage.limit, UsedNow(cfg, ss[i], a.job.client), ss[i].now));
    SameJob(cfg, ss, steps, i, j, id);
  }

  lemma SameJob(cfg: Config, ss: seq<State>, steps: seq<Step>, i: nat, j: nat, id: ActionId)
    requires IsRun(cfg, ss, steps) && i <= j < |ss| && id in ss[i].acts
    ensures id in ss[j].acts && ss[j].acts[id].job == ss[i].acts[id].job
  {
    RunAdvances(cfg, ss, steps);
    GE.JobStays(ss, i, j, id);
  }

  // ---------- none of them can be kept from it ----------

  /** The lock holder's steps alone serve the goal to its end. */
  lemma {:induction false} ServedAlone(cfg: Config, s: State, own: seq<Step>, g: Goal)
    requires Inv(cfg, s) && Serving(cfg, s, g) && cfg.resolutionMax > 0 && cfg.resolutionTtl >= 0
    requires Play(GR.Moves(cfg), s, own).Some? && forall step :: step in own ==> HoldsLock(step)
    ensures Serving(cfg, Play(GR.Moves(cfg), s, own).value, g)
    decreases own
  {
    if own != [] {
      assert own[0] in own;
      assert Enabled(cfg, s, own[0]);
      HeldIsNotFree(cfg, s, own[0]);
      ServingStep(cfg, s, own[0], g);
      StepKeeps(cfg, s, own[0]);
      ServedAlone(cfg, Next(cfg, s, own[0]), own[1..], g);
    }
  }

  lemma HeldIsNotFree(cfg: Config, s: State, step: Step)
    requires Enabled(cfg, s, step) && HoldsLock(step)
    ensures !s.session.Free? && !step.PutGrant?
  {}

  /** The step that starts work on a goal. */
  function Opening(g: Goal): Step {
    match g
    case ToReject(id) => StartReject(id)
    case ToApprove(id, _) => StartApprove(id)
    case ToOrder(id, _, _, _) => ReadBudget(id)
  }

  ghost predicate CanStart(cfg: Config, s: State, g: Goal) {
    && s.session.Free? && g.id in s.acts
    && match g
       case ToReject(id) => QueuedAndLive(s, id)
       case ToApprove(id, granted) => QueuedAndLive(s, id) && (granted <==> s.acts[id].job.client in s.grants)
       case ToOrder(id, limit, used, from) =>
         s.acts[id].stage == Minted(limit) && used == UsedNow(cfg, s, s.acts[id].job.client) && from == s.now
  }

  lemma Starts(cfg: Config, s: State, g: Goal)
    requires QueueOk(cfg, s) && ActsOk(s) && CanStart(cfg, s, g)
    ensures Enabled(cfg, s, Opening(g)) && Serving(cfg, Next(cfg, s, Opening(g)), g)
  {
    match g {
      case ToReject(id) => RejectionStarts(cfg, s, id);
      case ToApprove(id, _) => ApprovalStarts(cfg, s, id);
      case ToOrder(id, _, _, _) => OrderStarts(cfg, s, id);
    }
  }

  /**
   From every reachable state with the lock free, a rejection or an approval of a live entry and an order that has read
   its grant can start, and then the lock holder's own steps alone bring it to its end.
   */
  lemma EveryRequestIsServed(cfg: Config, ss: seq<State>, steps: seq<Step>, i: nat, g: Goal) returns (own: seq<Step>)
    requires IsRun(cfg, ss, steps) && i < |ss| && CanStart(cfg, ss[i], g)
    requires cfg.resolutionMax > 0 && cfg.resolutionTtl >= 0
    ensures forall step :: step in own ==> HoldsLock(step)
    ensures var end := Play(GR.Moves(cfg), ss[i], [Opening(g)] + own);
            end.Some? && end.value.session.Free? && Serving(cfg, end.value, g)
  {
    Reachable(cfg, ss, steps, i);
    own := ServedToTheEnd(cfg, ss[i], g);
  }

  lemma ServedToTheEnd(cfg: Config, s: State, g: Goal) returns (own: seq<Step>)
    requires Inv(cfg, s) && CanStart(cfg, s, g) && cfg.resolutionMax > 0 && cfg.resolutionTtl >= 0
    ensures forall step :: step in own ==> HoldsLock(step)
    ensures var end := Play(GR.Moves(cfg), s, [Opening(g)] + own);
            end.Some? && end.value.session.Free? && Serving(cfg, end.value, g)
  {
    Starts(cfg, s, g);
    var t := Next(cfg, s, Opening(g));
    StepKeeps(cfg, s, Opening(g));
    own := GK.LockIsReleased(cfg, t);
    ServedAlone(cfg, t, own, g);
    PlayFirst(GR.Moves(cfg), s, Opening(g), own);
  }
}
