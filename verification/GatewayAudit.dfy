/**
 The audit log tells the truth: every event of an action names its order's client, item and amount and the reason for
 what became of it, and the budget moves by exactly what the log says.
 */
module GatewayAudit {
  import opened Common
  import opened Retention
  import opened Ledger
  import opened Gateway
  import opened GatewayInvariant
  import opened GatewaySteps
  import opened GatewayLifecycle

  // ---------- what an event has to say ----------

  predicate Handed(st: Stage) { st.InFlight? || st.Answered? || st.Settled? || st.Finished? || st.Crashed? }

  predicate Concluded(st: Stage) { st.Settled? || st.Finished? }

  /** The reservation of a handed-over action that still counts: open, executed, or never heard of again. */
  predicate TellsAccepted(st: Stage, d: Entry) {
    && Handed(st) && d.reason.Handoff? && d.reason.byHuman == st.byHuman
    && if !Concluded(st) then d.reason.progress == InProgress && d.order == None
       else match st.result
            case Ok(executed, channel, decidedBy, reference) =>
              executed && d.reason.progress == ExecutedVia(channel, decidedBy) && d.order == reference
            case Unknown => d.reason.progress == ExecutionUnknown && d.order == None
            case Down => false
  }

  /** A refusal, each with its own reason: the queue, the way out of it, or a handoff that came to nothing. */
  predicate TellsRejected(st: Stage, d: Entry) {
    && d.order == None
    && match st
       case TurnedAway => d.reason == QueueFull
       case Noted(Purged) => d.reason == MandateRevoked
       case Left(Purged) => d.reason == MandateRevoked
       case Noted(ApprovalRefused) => d.reason == RevokedWhilePending
       case Left(ApprovalRefused) => d.reason == RevokedWhilePending
       case Noted(Declined) => d.reason == RejectedByHuman
       case Left(Declined) => d.reason == RejectedByHuman
       case Settled(byHuman, Down) => d.reason == Handoff(byHuman, AgentUnavailable)
       case Finished(byHuman, Down) => d.reason == Handoff(byHuman, AgentUnavailable)
       case Settled(byHuman, Ok(false, _, _, _)) => d.reason == Handoff(byHuman, CouldNotExecute)
       case Finished(byHuman, Ok(false, _, _, _)) => d.reason == Handoff(byHuman, CouldNotExecute)
       case _ => false
  }

  predicate WasQueued(st: Stage) {
    || st.Listed? || st.Waiting? || st.Popped? || st.Noted? || st.Left? || st.Approved?
    || (Handed(st) && st.byHuman)
  }

  /** The amount did not fit in what was left of the limit. */
  predicate TellsQueued(st: Stage, d: Entry) {
    && WasQueued(st) && d.order == None && d.reason.OverMandate?
    && 0 <= d.reason.remaining <= d.reason.limit && d.reason.remaining < d.amount
  }

  predicate Tells(st: Stage, d: Entry) {
    match d.outcome
    case Queued => TellsQueued(st, d)
    case Expired =>
      (st == Noted(TimedOut) || st == Left(TimedOut)) && d.reason == ApprovalExpired && d.order == None
    case Accepted => TellsAccepted(st, d)
    case Rejected => TellsRejected(st, d)
  }

  /** An event of an action: its order's own data, and a reason that fits where the action stands. */
  predicate Fits(a: Act, e: Event) {
    e.client == a.job.client && e.data.item == a.job.item && e.data.amount == a.job.amount && Tells(a.stage, e.data)
  }

  /** An event without an action: a caller turned away before an order was made of the request. */
  predicate IsDenial(e: Event) {
    && e.data.outcome == Rejected && e.data.order == None
    && if e.data.reason.NoGrant? then true
       else e.client == "unknown"
            && (e.data.reason.NoCertificate? || e.data.reason.NoToken? || e.data.reason.TokenRejected?)
  }

  predicate EventOk(acts: map<ActionId, Act>, e: Event) {
    match e.data.id
    case None => IsDenial(e)
    case Some(id) => id in acts && Fits(acts[id], e)
  }

  ghost predicate EventsOk(s: State) { forall e :: e in s.history ==> EventOk(s.acts, e) }

  /** An order on its way into the queue did not fit its limit. */
  ghost predicate OverLimit(acts: map<ActionId, Act>, id: ActionId, limit: int, used: int) {
    id in acts && used + acts[id].job.amount > limit && used >= 0 && limit > 0
  }

  ghost predicate QueueingOk(s: State) {
    match s.session
    case Expiring(_, _, ThenQueue(id, limit, used)) => OverLimit(s.acts, id, limit, used)
    case Noting(_, _, _, _, ThenQueue(id, limit, used)) => OverLimit(s.acts, id, limit, used)
    case Resolving(_, _, _, _, ThenQueue(id, limit, used)) => OverLimit(s.acts, id, limit, used)
    case Listing(id, limit, used) => OverLimit(s.acts, id, limit, used)
    case _ => true
  }

  // ---------- steps ----------

  /** What was true of an event stays true as its action moves on, until it is settled. */
  lemma TellsOn(a: Stage, b: Stage, d: Entry)
    requires Successor(a, b) && !(a.Answered? && b.Settled?) && Tells(a, d)
    ensures Tells(b, d)
  {}

  ghost predicate NothingSettles(s: State, t: State) {
    forall id :: id in s.acts && id in t.acts ==> !(s.acts[id].stage.Answered? && t.acts[id].stage.Settled?)
  }

  lemma EventStays(s: State, t: State, e: Event)
    requires Advances(s, t) && NothingSettles(s, t) && EventOk(s.acts, e)
    ensures EventOk(t.acts, e)
  {
    if e.data.id.Some? {
      TellsOn(s.acts[e.data.id.value].stage, t.acts[e.data.id.value].stage, e.data);
    }
  }

  /** A step that adds one event, or none. */
  lemma ExtendedOk(s: State, t: State, more: seq<Event>)
    requires EventsOk(s) && Advances(s, t) && NothingSettles(s, t)
    requires t.history == s.history + more && forall e :: e in more ==> EventOk(t.acts, e)
    ensures EventsOk(t)
  {
    forall e | e in t.history ensures EventOk(t.acts, e) {
      if e in s.history { EventStays(s, t, e); }
    }
  }

  /** The event that a step writes, if it writes one. */
  function Written(cfg: Config, s: State, step: Step): seq<Event>
    requires Enabled(cfg, s, step)
  {
    match step
    case DenyUnknown(item, amount, reason) => [EventNow(s, "unknown", item, amount, Rejected, reason, None)]
    case DenyNoGrant(c, item, amount) => [EventNow(s, c, item, amount, Rejected, NoGrant, None)]
    case Reserve => [ActEvent(s, s.session.id, Accepted, Handoff(false, InProgress))]
    case Note => [ActEvent(s, s.session.id, ExitOutcome(s.session.exit), ExitReason(s.session.exit))]
    case List => [ActEvent(s, s.session.id, Queued, QueueReason(s.session))]
    case ReserveApproved => [ActEvent(s, s.session.id, Accepted, Handoff(true, InProgress))]
    case RefuseFull(id) => [ActEvent(s, id, Rejected, QueueFull)]
    case _ => []
  }

  lemma SweepWritesNothing(cfg: Config, s: State)
    requires Enabled(cfg, s, Swept)
    ensures AfterSweep(cfg, s).history == s.history
  {}

  lemma StepWrites(cfg: Config, s: State, step: Step)
    requires Enabled(cfg, s, step) && !step.SettleEvent?
    ensures Next(cfg, s, step).history == s.history + Written(cfg, s, step)
  {
    if step.Swept? { SweepWritesNothing(cfg, s); }
  }

  lemma ListingFits(cfg: Config, s: State)
    requires SessionStages(s) && QueueingOk(s) && Enabled(cfg, s, List) && s.acts[s.session.id].job.amount > 0
    ensures EventOk(QueueListed(cfg, s).acts, ActEvent(s, s.session.id, Queued, QueueReason(s.session)))
  {}

  lemma ExitFits(cfg: Config, s: State)
    requires Enabled(cfg, s, Note)
    ensures EventOk(ExitNoted(cfg, s).acts,
                    ActEvent(s, s.session.id, ExitOutcome(s.session.exit), ExitReason(s.session.exit)))
  {}

  lemma ReservationFits(cfg: Config, s: State)
    requires Enabled(cfg, s, Reserve)
    ensures EventOk(Reserved(cfg, s).acts, ActEvent(s, s.session.id, Accepted, Handoff(false, InProgress)))
  {}

  lemma ApprovalFits(cfg: Config, s: State)
    requires Enabled(cfg, s, ReserveApproved)
    ensures EventOk(ApprovalReserved(cfg, s).acts, ActEvent(s, s.session.id, Accepted, Handoff(true, InProgress)))
  {}

  lemma WrittenFits(cfg: Config, s: State, step: Step)
    requires ActsOk(s) && SessionStages(s) && QueueingOk(s) && Enabled(cfg, s, step)
    ensures forall e :: e in Written(cfg, s, step) ==> EventOk(Next(cfg, s, step).acts, e)
  {
    if step.List? {
      assert ActOk(s, s.session.id);
      ListingFits(cfg, s);
    } else if step.Note? {
      ExitFits(cfg, s);
    } else if step.Reserve? {
      ReservationFits(cfg, s);
    } else if step.ReserveApproved? {
      ApprovalFits(cfg, s);
    }
  }

  lemma SweepSettlesNothing(cfg: Config, s: State)
    requires Enabled(cfg, s, Swept)
    ensures NothingSettles(s, AfterSweep(cfg, s))
  {}

  lemma OtherStepSettlesNothing(cfg: Config, s: State, step: Step)
    requires Enabled(cfg, s, step) && !step.SettleEvent?
    ensures NothingSettles(s, Next(cfg, s, step))
  {
    if step.Swept? { SweepSettlesNothing(cfg, s); }
  }

  // ---------- settlement ----------

  lemma {:induction false} TrailHas(log: seq<Event>, e: Event, id: ActionId)
    requires e in log && e.data.id == Some(id)
    ensures MarkOf(e) in Trail(log, id)
  {
    if log[0] != e {
      assert e in log[1..];
      TrailHas(log[1..], e, id);
    }
  }

  /** All events of an action but the newest show in its trail before the last mark. */
  lemma EarlierMark(log: seq<Event>, id: ActionId, j: nat)
    requires j < NewestWith(log, id) && log[j].data.id == Some(id)
    ensures Trail(log, id) != [] && MarkOf(log[j]) in Trail(log, id)[..|Trail(log, id)| - 1]
  {
    var k := NewestWith(log, id);
    NewestWithIsNewest(log, id);
    assert log == log[..k] + ([log[k]] + log[k + 1..]);
    TrailConcat(log[..k], [log[k]] + log[k + 1..], id);
    TrailCons(log[k], log[k + 1..], id);
    assert Trail(log[k + 1..], id) == [] by { TrailOfStranger(log[k + 1..], id); }
    assert log[j] == log[..k][j];
    TrailHas(log[..k], log[j], id);
    assert Trail(log, id) == Trail(log[..k], id) + [MarkOf(log[k])];
  }

  lemma AnsweredTrail(st: Stage)
    requires st.Answered?
    ensures ExpectedTrail(st)[..|ExpectedTrail(st)| - 1] == QueuePart(st.byHuman)
  {}

  lemma SettledTells(s: State, id: ActionId, e: Event)
    requires id in s.acts && s.acts[id].stage.Answered? && Fits(s.acts[id], e) && e.data.outcome == Accepted
    ensures Fits(EventSettled(s, id).acts[id], Resettled(e, SettlementOf(id, s.acts[id].stage)))
  {}

  lemma QueuedStaysTold(s: State, id: ActionId, e: Event)
    requires id in s.acts && s.acts[id].stage.Answered? && Fits(s.acts[id], e) && e.data.outcome == Queued
    ensures Fits(EventSettled(s, id).acts[id], e)
  {}

  /** The newest event of an answered action is its open reservation, and any older one says that it was queued. */
  lemma AnsweredEvents(cfg: Config, s: State, id: ActionId)
    requires HistoryOk(cfg, s) && id in s.acts && ActOk(s, id) && s.acts[id].stage.Answered?
    ensures var k := NewestWith(s.history, id);
            && k >= 0 && s.history[k].data.outcome == Accepted
            && forall j :: 0 <= j < |s.history| && j != k && s.history[j].data.id == Some(id) ==>
                 s.history[j].data.outcome == Queued
  {
    var k, st := NewestWith(s.history, id), s.acts[id].stage;
    TrailEmpty(s.history, id);
    TrailEnd(s.history, id);
    NewestWithIsNewest(s.history, id);
    AnsweredTrail(st);
    forall j | 0 <= j < |s.history| && j != k && s.history[j].data.id == Some(id)
      ensures s.history[j].data.outcome == Queued
    {
      EarlierMark(s.history, id, j);
      assert MarkOf(s.history[j]) in QueuePart(st.byHuman);
    }
  }

  lemma SettlingKeepsEvents(cfg: Config, s: State, id: ActionId)
    requires HistoryOk(cfg, s) && EventsOk(s) && id in s.acts && ActOk(s, id) && s.acts[id].stage.Answered?
    ensures EventsOk(EventSettled(s, id))
  {
    var t, k := EventSettled(s, id), NewestWith(s.history, id);
    AnsweredEvents(cfg, s, id);
    NewestWithIsNewest(s.history, id);
    forall e | e in t.history ensures EventOk(t.acts, e) {
      var j :| 0 <= j < |t.history| && t.history[j] == e;
      assert s.history[j] in s.history;
      if j == k {
        SettledTells(s, id, s.history[k]);
      } else if e.data.id == Some(id) {
        QueuedStaysTold(s, id, e);
      }
    }
  }

  // ---------- over runs ----------

  lemma SweepKeepsQueueing(cfg: Config, s: State)
    requires QueueingOk(s) && Enabled(cfg, s, Swept)
    ensures QueueingOk(AfterSweep(cfg, s))
  {}

  lemma LockedKeepsQueueing(cfg: Config, s: State, step: Step)
    requires SessionOk(s) && QueueingOk(s) && Enabled(cfg, s, step) && HoldsLock(step)
    ensures QueueingOk(Next(cfg, s, step))
  {
    if step.Swept? { SweepKeepsQueueing(cfg, s); }
  }

  lemma QueueingFrame(s: State, t: State)
    requires QueueingOk(s) && Advances(s, t) && t.session == s.session
    ensures QueueingOk(t)
  {}

  lemma FreeKeepsSession(cfg: Config, s: State, step: Step)
    requires Enabled(cfg, s, step) && !HoldsLock(step) && !TakesLock(step)
    ensures Next(cfg, s, step).session == s.session
  {}

  lemma TakingIsFresh(cfg: Config, s: State, step: Step)
    requires Enabled(cfg, s, step) && TakesLock(step)
    ensures QueueingOk(Next(cfg, s, step))
  {}

  lemma QueueingStep(cfg: Config, s: State, step: Step)
    requires SessionOk(s) && QueueingOk(s) && Enabled(cfg, s, step) && Advances(s, Next(cfg, s, step))
    ensures QueueingOk(Next(cfg, s, step))
  {
    if HoldsLock(step) {
      LockedKeepsQueueing(cfg, s, step);
    } else if TakesLock(step) {
      TakingIsFresh(cfg, s, step);
    } else {
      FreeKeepsSession(cfg, s, step);
      QueueingFrame(s, Next(cfg, s, step));
    }
  }

  ghost predicate AuditOk(s: State) { EventsOk(s) && QueueingOk(s) }

  lemma AuditStep(cfg: Config, s: State, step: Step)
    requires Inv(cfg, s) && AuditOk(s) && Enabled(cfg, s, step)
    ensures AuditOk(Next(cfg, s, step))
  {
    StepAdvances(cfg, s, step);
    QueueingStep(cfg, s, step);
    if step.SettleEvent? {
      assert ActOk(s, step.id);
      SettlingKeepsEvents(cfg, s, step.id);
    } else {
      SessionStagesHold(cfg, s);
      StepWrites(cfg, s, step);
      WrittenFits(cfg, s, step);
      OtherStepSettlesNothing(cfg, s, step);
      ExtendedOk(s, Next(cfg, s, step), Written(cfg, s, step));
    }
  }

  lemma RunAuditStep(cfg: Config, ss: seq<State>, steps: seq<Step>, i: nat)
    requires IsRun(cfg, ss, steps) && i < |steps| && AuditOk(ss[i])
    ensures AuditOk(ss[i + 1])
  {
    RunStep(cfg, ss, steps, i);
    Reachable(cfg, ss, steps, i);
    AuditStep(cfg, ss[i], steps[i]);
  }

  lemma {:induction false} RunAudited(cfg: Config, ss: seq<State>, steps: seq<Step>, i: nat)
    requires IsRun(cfg, ss, steps) && i < |ss|
    ensures AuditOk(ss[i])
  {
    if i > 0 {
      RunAudited(cfg, ss, steps, i - 1);
      RunAuditStep(cfg, ss, steps, i - 1);
    }
  }

  /**
   In every reachable state every event ever recorded is a denial, or names the client, the item and the amount of the
   order it belongs to and gives the reason, and the agent's reference, that fit what became of that order. The log
   holds no others.
   */
  lemma EventsTellTruth(cfg: Config, ss: seq<State>, steps: seq<Step>, i: nat)
    requires IsRun(cfg, ss, steps) && i < |ss|
    ensures forall e :: e in ss[i].history ==> EventOk(ss[i].acts, e)
    ensures forall e :: e in ss[i].events ==> e in ss[i].history
  {
    RunAudited(cfg, ss, steps, i);
    assert HistoryOk(cfg, ss[i]) by { Reachable(cfg, ss, steps, i); }
    CappedMembers(Since(ss[i].history, ss[i].pruned), cfg.auditMax);
    SinceMembers(ss[i].history, ss[i].pruned);
  }

  /** The row of a caller turned away at a moment: under "unknown", or under its own name if it only lacks a grant. */
  ghost predicate IsDenied(step: Step, e: Event, at: Time) {
    match step
    case DenyUnknown(item, amount, reason) => e == Row("unknown", at, Entry(item, amount, Rejected, reason, None, None))
    case DenyNoGrant(c, item, amount) => e == Row(c, at, Entry(item, amount, Rejected, NoGrant, None, None))
    case _ => false
  }

  ghost predicate OnlyDenied(s: State, step: Step, t: State) {
    && |t.history| == |s.history| + 1 && t.history[..|s.history|] == s.history
    && IsDenied(step, t.history[|s.history|], s.now)
    && t.acts == s.acts && t.queue == s.queue && t.resolutions == s.resolutions
  }

  lemma DenialStep(cfg: Config, s: State, step: Step)
    requires Enabled(cfg, s, step) && (step.DenyUnknown? || step.DenyNoGrant?)
    ensures OnlyDenied(s, step, Next(cfg, s, step))
  {}

  /** Over every run a caller turned away is audited at once, under its own name if that is known, and gets nothing. */
  lemma DenialsAreAudited(cfg: Config, ss: seq<State>, steps: seq<Step>, i: nat)
    requires IsRun(cfg, ss, steps) && i < |steps| && (steps[i].DenyUnknown? || steps[i].DenyNoGrant?)
    ensures OnlyDenied(ss[i], steps[i], ss[i + 1])
  {
    RunStep(cfg, ss, steps, i);
    DenialStep(cfg, ss[i], steps[i]);
  }

  // ---------- the events of one action ----------

  /** The events of one action, oldest first. */
  function EventsOf(log: seq<Event>, id: ActionId): seq<Event> {
    if log == [] then [] else (if log[0].data.id == Some(id) then [log[0]] else []) + EventsOf(log[1..], id)
  }

  lemma {:induction false} EventsAreTrail(log: seq<Event>, id: ActionId)
    ensures |EventsOf(log, id)| == |Trail(log, id)|
    ensures forall k :: 0 <= k < |EventsOf(log, id)| ==> MarkOf(EventsOf(log, id)[k]) == Trail(log, id)[k]
    ensures forall e :: e in EventsOf(log, id) ==> e in log && e.data.id == Some(id)
  {
    if log != [] {
      EventsAreTrail(log[1..], id);
      var first := if log[0].data.id == Some(id) then [log[0]] else [];
      assert EventsOf(log, id) == first + EventsOf(log[1..], id);
    }
  }

  /** In every reachable state an action's events are as many as its marks, and each of them fits it. */
  lemma EventsOfAction(cfg: Config, ss: seq<State>, steps: seq<Step>, i: nat, id: ActionId)
    requires IsRun(cfg, ss, steps) && i < |ss| && id in ss[i].acts
    ensures var rows, trail := EventsOf(ss[i].history, id), ExpectedTrail(ss[i].acts[id].stage);
            && |rows| == |trail|
            && forall k :: 0 <= k < |rows| ==> MarkOf(rows[k]) == trail[k] && Fits(ss[i].acts[id], rows[k])
  {
    var rows := EventsOf(ss[i].history, id);
    EventsAreTrail(ss[i].history, id);
    assert Trail(ss[i].history, id) == ExpectedTrail(ss[i].acts[id].stage) by {
      Reachable(cfg, ss, steps, i);
      assert ActOk(ss[i], id);
    }
    EventsTellTruth(cfg, ss, steps, i);
    forall k | 0 <= k < |rows| ensures Fits(ss[i].acts[id], rows[k]) {
      assert rows[k] in rows;
    }
  }

  // ---------- where the budget goes ----------

  /** The accepted amounts of a client in the current window, over the full history. */
  function FullUsage(cfg: Config, s: State, c: ClientId): int { Used(s.history, c, Cutoff(cfg, s)) }

  /** The order whose budget a step reserves, if it reserves any. */
  function NewlyReserved(s: State, step: Step): Option<ActionId> {
    if step.Reserve? && s.session.Budget? then Some(s.session.id)
    else if step.ReserveApproved? && s.session.Reserving? then Some(s.session.id)
    else None
  }

  /** The order whose budget a step gives back, if it gives any back. */
  function NewlyReleased(s: State, step: Step): Option<ActionId> {
    if step.SettleEvent? && step.id in s.acts && s.acts[step.id].stage.Answered?
       && (var r := s.acts[step.id].stage.result; r.Down? || (r.Ok? && !r.executed))
    then Some(step.id) else None
  }

  /** The reservation of an order lies in the current window. */
  ghost predicate ReservedInWindow(cfg: Config, s: State, id: ActionId) {
    exists e :: e in s.history && e.data.id == Some(id) && e.data.outcome == Accepted && e.at >= Cutoff(cfg, s)
  }

  lemma UsageExtends(h: seq<Event>, more: seq<Event>, c: ClientId, cutoff: Time)
    requires |more| <= 1
    ensures Used(h + more, c, cutoff) == Used(h, c, cutoff)
            + if more != [] && more[0].client == c && more[0].data.outcome == Accepted && more[0].at >= cutoff
              then more[0].data.amount else 0
  {
    UsedConcat(h, more, c, cutoff);
    if more != [] { assert more[1..] == []; }
  }

  lemma ReservationIsWritten(cfg: Config, s: State, step: Step)
    requires SessionStages(s) && Enabled(cfg, s, step)
    ensures var w, id := Written(cfg, s, step), NewlyReserved(s, step);
            && |w| <= 1
            && (id.Some? ==> id.value in s.acts && w != [] && w[0].client == s.acts[id.value].job.client
                             && w[0].data.outcome == Accepted && w[0].data.amount == s.acts[id.value].job.amount)
            && (id.None? ==> w == [] || w[0].data.outcome != Accepted)
            && (w != [] ==> w[0].at == s.now)
  {}

  lemma WritingMovesBudget(cfg: Config, s: State, step: Step, c: ClientId)
    requires SessionStages(s) && Enabled(cfg, s, step) && !step.Tick? && !step.SettleEvent? && cfg.window >= 0
    ensures FullUsage(cfg, Next(cfg, s, step), c) == FullUsage(cfg, s, c)
            + if NewlyReserved(s, step).Some? && s.acts[NewlyReserved(s, step).value].job.client == c
              then s.acts[NewlyReserved(s, step).value].job.amount else 0
  {
    ReservationIsWritten(cfg, s, step);
    StepWrites(cfg, s, step);
    ClockStands(cfg, s, step);
    UsageExtends(s.history, Written(cfg, s, step), c, Cutoff(cfg, s));
  }

  lemma ClockStands(cfg: Config, s: State, step: Step)
    requires Enabled(cfg, s, step) && !step.Tick?
    ensures Next(cfg, s, step).now == s.now
  {
    if step.Swept? { SweepKeepsClock(cfg, s); }
  }

  lemma SweepKeepsClock(cfg: Config, s: State)
    requires Enabled(cfg, s, Swept)
    ensures AfterSweep(cfg, s).now == s.now
  {}

  lemma SettlingMovesBudget(cfg: Config, s: State, id: ActionId, c: ClientId)
    requires HistoryOk(cfg, s) && EventsOk(s) && id in s.acts && ActOk(s, id) && s.acts[id].stage.Answered?
    ensures FullUsage(cfg, EventSettled(s, id), c) == FullUsage(cfg, s, c)
            - if NewlyReleased(s, SettleEvent(id)).Some? && s.acts[id].job.client == c && ReservedInWindow(cfg, s, id)
              then s.acts[id].job.amount else 0
  {
    var k := NewestWith(s.history, id);
    AnsweredEvents(cfg, s, id);
    NewestWithIsNewest(s.history, id);
    var e := s.history[k];
    assert e in s.history;
    UsedUpdate(s.history, k, Resettled(e, SettlementOf(id, s.acts[id].stage)), c, Cutoff(cfg, s));
    assert ReservedInWindow(cfg, s, id) <==> e.at >= Cutoff(cfg, s);
  }

  /**
   Over every run a client's usage over the full history moves only with the clock, with a reservation, which adds
   exactly its order's amount whether a human approved it or not, and with a settlement that releases one, which takes
   exactly that amount off again.
   */
  lemma BudgetMoves(cfg: Config, ss: seq<State>, steps: seq<Step>, i: nat, c: ClientId)
    requires IsRun(cfg, ss, steps) && i < |steps| && !steps[i].Tick? && cfg.window >= 0
    ensures var s, up, down := ss[i], NewlyReserved(ss[i], steps[i]), NewlyReleased(ss[i], steps[i]);
            FullUsage(cfg, ss[i + 1], c) == FullUsage(cfg, s, c)
            + (if up.Some? && up.value in s.acts && s.acts[up.value].job.client == c
               then s.acts[up.value].job.amount else 0)
            - (if down.Some? && s.acts[down.value].job.client == c && ReservedInWindow(cfg, s, down.value)
               then s.acts[down.value].job.amount else 0)
  {
    RunStep(cfg, ss, steps, i);
    RunAudited(cfg, ss, steps, i);
    Reachable(cfg, ss, steps, i);
    SessionStagesHold(cfg, ss[i]);
    if steps[i].SettleEvent? {
      assert ActOk(ss[i], steps[i].id);
      SettlingMovesBudget(cfg, ss[i], steps[i].id, c);
    } else {
      ReservationIsWritten(cfg, ss[i], steps[i]);
      WritingMovesBudget(cfg, ss[i], steps[i], c);
    }
  }
}
