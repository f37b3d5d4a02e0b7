/** The life of one action over a run: one way forward, one fate, one reservation, one final resolution. */
module GatewayLifecycle {
  import opened Common
  import opened Ledger
  import opened Gateway
  import opened GatewayInvariant
  import opened GatewaySteps
  import R = Resolutions
  import Q = Queue
  import W = Wire

  /** The stages that can follow each stage. */
  predicate Successor(a: Stage, b: Stage) {
    a == b ||
    match a
    case Minted(_) => b.Checked?
    case Checked => b.QueueIsFull? || b.Admitted? || (b.InFlight? && !b.byHuman)
    case QueueIsFull => b.TurnedAway?
    case Admitted => b.Listed?
    case Listed => b.Waiting?
    case Waiting => b.Popped? || b.Approved?
    case Popped(e) => b == Noted(e)
    case Noted(e) => b == Left(e)
    case Approved(_) => b.InFlight? && b.byHuman
    case InFlight(h, l, u, _) => b == InFlight(h, l, u, true) || (b.Answered? && b.byHuman == h) || b == Crashed(h)
    case Answered(h, r) => b == Settled(h, r)
    case Settled(h, r) => b == Finished(h, r)
    case _ => false
  }

  ghost predicate Advances(s: State, t: State) {
    forall id :: id in s.acts ==>
      id in t.acts && t.acts[id].job == s.acts[id].job && Successor(s.acts[id].stage, t.acts[id].stage)
  }

  /** Running handoffs are moved by nothing but their own retry and return. */
  ghost predicate FlightsKept(s: State, t: State) {
    forall id :: id in s.acts && s.acts[id].stage.InFlight? ==> id in t.acts && t.acts[id] == s.acts[id]
  }

  /** Actions appear in the stage that `Minted` describes and in no other. */
  ghost predicate StartMinted(s: State, t: State) {
    forall id :: id in t.acts && id !in s.acts ==> t.acts[id].stage.Minted?
  }

  /** The stages of the actions that the lock holder is about to move. */
  ghost predicate SessionStages(s: State) {
    match s.session
    case Budget(id, _, _) => id in s.acts && s.acts[id].stage.Checked?
    case Noting(id, exit, _, _, _) => id in s.acts && s.acts[id].stage == Popped(exit)
    case Resolving(id, exit, _, _, _) => id in s.acts && s.acts[id].stage == Noted(exit)
    case Listing(id, _, _) => id in s.acts && s.acts[id].stage.Admitted?
    case Announcing(id) => id in s.acts && s.acts[id].stage.Listed?
    case Reserving(id, limit) => id in s.acts && s.acts[id].stage == Approved(limit)
    case Purging(todo, _, _) => todo != [] ==> todo[0] in s.acts && s.acts[todo[0]].stage.Waiting?
    case Expiring(todo, _, k) =>
      && (todo != [] ==> todo[0] in s.acts && s.acts[todo[0]].stage.Waiting?)
      && (k.ThenQueue? ==> k.id in s.acts && s.acts[k.id].stage.Checked?)
      && ((k.ThenApprove? || k.ThenReject?) && Q.Has(s.queue, k.id) ==>
            k.id in s.acts && s.acts[k.id].stage.Waiting? && Q.Find(s.queue, k.id).job == s.acts[k.id].job)
    case _ => true
  }

  lemma SessionStagesHold(cfg: Config, s: State)
    requires QueueOk(cfg, s) && ActsOk(s) && SessionOk(s)
    ensures SessionStages(s)
  {
    if (s.session.Expiring? || s.session.Purging?) && s.session.todo != [] {
      var x := s.session.todo[0];
      assert x in s.session.todo;
      var p := Q.Find(s.queue, x);
      QueuedIsWaiting(s, x);
    }
    if s.session.Expiring? {
      var k := s.session.k;
      if (k.ThenApprove? || k.ThenReject?) && Q.Has(s.queue, k.id) {
        var p := Q.Find(s.queue, k.id);
        QueuedIsWaiting(s, k.id);
      }
    }
  }

  lemma StagedAdvances(s: State, t: State, x: ActionId, st: Stage)
    requires x in s.acts && t.acts == s.acts[x := s.acts[x].(stage := st)] && Successor(s.acts[x].stage, st)
    ensures Advances(s, t) && StartMinted(s, t)
    ensures !s.acts[x].stage.InFlight? ==> FlightsKept(s, t)
  {}

  lemma SweptAdvances(cfg: Config, s: State)
    requires SessionStages(s) && s.session.Expiring?
    requires s.session.k.ThenQueue? ==> s.session.k.id in s.acts
    requires forall p :: p in s.queue ==> p.id in s.acts
    ensures Advances(s, AfterSweep(cfg, s)) && FlightsKept(s, AfterSweep(cfg, s)) && StartMinted(s, AfterSweep(cfg, s))
  {
    var k := s.session.k;
    match k {
      case ThenQueue(id, _, _) => StagedAdvances(s, QueueTried(cfg, s), id, QueueTried(cfg, s).acts[id].stage);
      case ThenApprove(id) =>
        if Q.Has(s.queue, id) { StagedAdvances(s, ApprovalTaken(s), id, ApprovalTaken(s).acts[id].stage); }
      case ThenReject(id) => if Q.Has(s.queue, id) { StagedAdvances(s, RejectionTaken(s), id, Popped(Declined)); }
      case _ =>
    }
  }

  lemma LockedStepAdvances(cfg: Config, s: State, step: Step)
    requires SessionStages(s) && Enabled(cfg, s, step) && HoldsLock(step)
    ensures Advances(s, Next(cfg, s, step)) && FlightsKept(s, Next(cfg, s, step)) && StartMinted(s, Next(cfg, s, step))
  {
    var n := s.session;
    match step {
      case Reserve => StagedAdvances(s, Reserved(cfg, s), n.id, InFlight(false, n.limit, n.used, false));
      case PopOverdue => StagedAdvances(s, OverduePopped(s), n.todo[0], Popped(TimedOut));
      case Note => StagedAdvances(s, ExitNoted(cfg, s), n.id, Noted(n.exit));
      case Resolve => StagedAdvances(s, ExitResolved(cfg, s), n.id, Left(n.exit));
      case Swept => SweptAdvances(cfg, s);
      case List => StagedAdvances(s, QueueListed(cfg, s), n.id, Listed);
      case Announce => StagedAdvances(s, Announced(cfg, s), n.id, Waiting);
      case ReserveApproved =>
        StagedAdvances(s, ApprovalReserved(cfg, s), n.id, ApprovalReserved(cfg, s).acts[n.id].stage);
      case PopPurged => StagedAdvances(s, PurgedPopped(s), n.todo[0], Popped(Purged));
      case ExceedMandate =>
      case EndPurge =>
    }
  }

  lemma FreeStepAdvances(cfg: Config, s: State, step: Step)
    requires Enabled(cfg, s, step) && !HoldsLock(step)
    ensures Advances(s, Next(cfg, s, step)) && StartMinted(s, Next(cfg, s, step))
    ensures !step.Retry? && !step.Return? ==> FlightsKept(s, Next(cfg, s, step))
  {
    match step {
      case ReadBudget(id) => StagedAdvances(s, BudgetRead(cfg, s, id), id, Checked);
      case RefuseFull(id) => StagedAdvances(s, FullRefused(cfg, s, id), id, TurnedAway);
      case Retry(id) => StagedAdvances(s, Next(cfg, s, step), id, s.acts[id].stage.(retried := true));
      case Return(id, outcome) =>
        StagedAdvances(s, Next(cfg, s, step), id, HandoffReturned(s, id, outcome).acts[id].stage);
      case SettleEvent(id) => StagedAdvances(s, EventSettled(s, id), id, EventSettled(s, id).acts[id].stage);
      case SettleResolution(id) =>
        StagedAdvances(s, ResolutionSettled(cfg, s, id), id, ResolutionSettled(cfg, s, id).acts[id].stage);
      case _ =>
    }
  }

  lemma StepAdvances(cfg: Config, s: State, step: Step)
    requires QueueOk(cfg, s) && ActsOk(s) && SessionOk(s) && Enabled(cfg, s, step)
    ensures Advances(s, Next(cfg, s, step)) && StartMinted(s, Next(cfg, s, step))
    ensures !step.Retry? && !step.Return? ==> FlightsKept(s, Next(cfg, s, step))
  {
    if HoldsLock(step) {
      SessionStagesHold(cfg, s);
      LockedStepAdvances(cfg, s, step);
    } else {
      FreeStepAdvances(cfg, s, step);
    }
  }

  ghost predicate AlwaysAdvances(ss: seq<State>) {
    forall i :: 0 <= i < |ss| - 1 ==> Advances(ss[i], ss[i + 1])
  }

  lemma {:induction false} RunAdvances(cfg: Config, ss: seq<State>, steps: seq<Step>)
    requires IsRun(cfg, ss, steps)
    ensures AlwaysAdvances(ss)
  {
    forall i | 0 <= i < |ss| - 1 ensures Advances(ss[i], ss[i + 1]) {
      Reachable(cfg, ss, steps, i);
      StepAdvances(cfg, ss[i], steps[i]);
    }
  }

  // ---------- what an order within the mandate was told ----------

  /** Only the order handler's reservation starts a handoff that no human approved. */
  lemma LockedStepReserves(cfg: Config, s: State, step: Step, id: ActionId)
    requires SessionStages(s) && Enabled(cfg, s, step) && HoldsLock(step)
    requires id in s.acts && s.acts[id].stage.Checked?
    requires id in Next(cfg, s, step).acts && Next(cfg, s, step).acts[id].stage.InFlight?
    ensures step.Reserve? && s.session.id == id
  {
    if step.Swept? { SweepReservesNothing(cfg, s, id); }
  }

  lemma SweepReservesNothing(cfg: Config, s: State, id: ActionId)
    requires Enabled(cfg, s, Swept) && id in s.acts && s.acts[id].stage.Checked?
    requires id in AfterSweep(cfg, s).acts
    ensures !AfterSweep(cfg, s).acts[id].stage.InFlight?
  {}

  lemma FreeStepReserves(cfg: Config, s: State, step: Step, id: ActionId)
    requires Enabled(cfg, s, step) && !HoldsLock(step)
    requires id in s.acts && s.acts[id].stage.Checked?
    requires id in Next(cfg, s, step).acts
    ensures !Next(cfg, s, step).acts[id].stage.InFlight?
  {}

  predicate FitsMandate(a: Act) {
    a.stage.InFlight? && !a.stage.byHuman ==> a.stage.used + a.job.amount <= a.stage.limit
  }

  lemma ReservationFitsMandate(cfg: Config, s: State, step: Step, id: ActionId)
    requires SessionStages(s) && Enabled(cfg, s, step) && id in s.acts && s.acts[id].stage.Checked?
    requires id in Next(cfg, s, step).acts && Next(cfg, s, step).acts[id].stage.InFlight?
    ensures FitsMandate(Next(cfg, s, step).acts[id])
  {
    if HoldsLock(step) {
      LockedStepReserves(cfg, s, step, id);
    } else {
      FreeStepReserves(cfg, s, step, id);
    }
  }

  lemma LaterStillFits(a: Act, b: Act)
    requires Successor(a.stage, b.stage) && b.job == a.job && FitsMandate(a) && !(a.stage.Checked? && b.stage.InFlight?)
    ensures FitsMandate(b)
  {}

  lemma StepFitsMandate(cfg: Config, s: State, step: Step, id: ActionId)
    requires Inv(cfg, s) && Enabled(cfg, s, step)
    requires id in s.acts ==> FitsMandate(s.acts[id])
    ensures id in Next(cfg, s, step).acts ==> FitsMandate(Next(cfg, s, step).acts[id])
  {
    var t := Next(cfg, s, step);
    StepAdvances(cfg, s, step);
    if id in s.acts && id in t.acts {
      if s.acts[id].stage.Checked? && t.acts[id].stage.InFlight? {
        SessionStagesHold(cfg, s);
        ReservationFitsMandate(cfg, s, step, id);
      } else {
        LaterStillFits(s.acts[id], t.acts[id]);
      }
    }
  }

  /** An order sent without a human's approval fits in the remainder that its envelope states. */
  lemma {:induction false} EnvelopeCoversOrder(
    cfg: Config, ss: seq<State>, steps: seq<Step>, i: nat, id: ActionId, window: int, at: Time)
    requires IsRun(cfg, ss, steps) && i < |ss|
    requires id in ss[i].acts && ss[i].acts[id].stage.InFlight? && !ss[i].acts[id].stage.byHuman
    ensures var a := ss[i].acts[id];
            var e := W.BuildEnvelope(id, a.job, false, a.stage.limit, a.stage.used, window, at);
            && e.mandate.mode.WithinMandate?
            && e.payload.amount <= e.mandate.remaining == e.mandate.limit - e.mandate.used
  {
    RunFitsMandate(cfg, ss, steps, i, id);
    assert ss[i].acts[id].job.amount > 0 by {
      Reachable(cfg, ss, steps, i);
      assert ActOk(ss[i], id);
    }
  }

  lemma RunStep(cfg: Config, ss: seq<State>, steps: seq<Step>, i: nat)
    requires IsRun(cfg, ss, steps) && i < |steps|
    ensures Enabled(cfg, ss[i], steps[i])
    ensures ss[i + 1] == Next(cfg, ss[i], steps[i])
  {}

  lemma {:induction false} RunFitsMandate(cfg: Config, ss: seq<State>, steps: seq<Step>, i: nat, id: ActionId)
    requires IsRun(cfg, ss, steps) && i < |ss| && id in ss[i].acts
    ensures FitsMandate(ss[i].acts[id])
  {
    if i > 0 {
      var s, step := ss[i - 1], steps[i - 1];
      RunStep(cfg, ss, steps, i - 1);
      assert id in s.acts ==> FitsMandate(s.acts[id]) by {
        if id in s.acts { RunFitsMandate(cfg, ss, steps, i - 1, id); }
      }
      Reachable(cfg, ss, steps, i - 1);
      StepFitsMandate(cfg, s, step, id);
    }
  }

  // ---------- one fate ----------

  /** How an action that was queued left the queue. */
  datatype Fate = Undecided | ByApproval | ByExit(exit: Exit)

  function FateOf(st: Stage): Fate {
    match st
    case Approved(_) => ByApproval
    case InFlight(h, _, _, _) => if h then ByApproval else Undecided
    case Answered(h, _) => if h then ByApproval else Undecided
    case Settled(h, _) => if h then ByApproval else Undecided
    case Finished(h, _) => if h then ByApproval else Undecided
    case Crashed(h) => if h then ByApproval else Undecided
    case Popped(e) => ByExit(e)
    case Noted(e) => ByExit(e)
    case Left(e) => ByExit(e)
    case _ => Undecided
  }

  predicate Decided(st: Stage) { !FateOf(st).Undecided? }

  lemma {:induction false} FateStays(ss: seq<State>, i: nat, j: nat, id: ActionId)
    requires AlwaysAdvances(ss) && i <= j < |ss|
    requires id in ss[i].acts && Decided(ss[i].acts[id].stage)
    ensures id in ss[j].acts && FateOf(ss[j].acts[id].stage) == FateOf(ss[i].acts[id].stage)
  {
    if i < j {
      FateStays(ss, i, j - 1, id);
      assert Advances(ss[j - 1], ss[j]);
    }
  }

  lemma DecidedIsNotQueued(cfg: Config, s: State, id: ActionId)
    requires ActsOk(s) && QueueOk(cfg, s)
    ensures Q.Has(s.queue, id) ==> id in s.acts && InQueue(s.acts[id].stage)
    ensures id in s.acts && Decided(s.acts[id].stage) ==> !Q.Has(s.queue, id)
  {
    if Q.Has(s.queue, id) {
      var p := Q.Find(s.queue, id);
      assert ActOk(s, id);
    }
  }

  /** Once an action has left the queue its fate is fixed and it is never queued again. */
  lemma FateIsFinal(cfg: Config, ss: seq<State>, steps: seq<Step>, i: nat, j: nat, id: ActionId)
    requires IsRun(cfg, ss, steps) && i <= j < |ss|
    requires id in ss[i].acts && Decided(ss[i].acts[id].stage)
    ensures id in ss[j].acts && FateOf(ss[j].acts[id].stage) == FateOf(ss[i].acts[id].stage)
    ensures !Q.Has(ss[j].queue, id)
  {
    RunAdvances(cfg, ss, steps);
    FateStays(ss, i, j, id);
    Reachable(cfg, ss, steps, j);
    DecidedIsNotQueued(cfg, ss[j], id);
  }

  lemma LeavingStage(s: State, t: State, id: ActionId)
    requires ActsOk(t) && Advances(s, t) && !Q.Has(t.queue, id)
    requires id in s.acts && InQueue(s.acts[id].stage)
    ensures id in t.acts && Decided(t.acts[id].stage)
  {
    assert ActOk(t, id);
  }

  /** An action leaves the queue in one step only, and that step decides its fate. */
  lemma {:induction false} LeavingDecides(cfg: Config, ss: seq<State>, steps: seq<Step>, i: nat, id: ActionId)
    requires IsRun(cfg, ss, steps) && i < |steps|
    requires Q.Has(ss[i].queue, id) && !Q.Has(ss[i + 1].queue, id)
    ensures id in ss[i + 1].acts && Decided(ss[i + 1].acts[id].stage)
  {
    RunAdvances(cfg, ss, steps);
    Reachable(cfg, ss, steps, i);
    DecidedIsNotQueued(cfg, ss[i], id);
    Reachable(cfg, ss, steps, i + 1);
    LeavingStage(ss[i], ss[i + 1], id);
  }

  /** So over any run an action leaves the queue at most once. */
  lemma LeavesOnce(cfg: Config, ss: seq<State>, steps: seq<Step>, i: nat, j: nat, id: ActionId)
    requires IsRun(cfg, ss, steps) && i < j < |steps|
    requires Q.Has(ss[i].queue, id) && !Q.Has(ss[i + 1].queue, id)
    ensures !Q.Has(ss[j].queue, id)
  {
    LeavingDecides(cfg, ss, steps, i, id);
    FateIsFinal(cfg, ss, steps, i + 1, j, id);
  }

  function Reservations(t: seq<Mark>): nat {
    if t == [] then 0 else (if t[0].byHuman.Some? then 1 else 0) + Reservations(t[1..])
  }

  /** At most one reservation is ever recorded for an action; a queued one has it only if it was approved. */
  lemma OneReservation(cfg: Config, ss: seq<State>, steps: seq<Step>, i: nat, id: ActionId)
    requires IsRun(cfg, ss, steps) && i < |ss|
    ensures Reservations(Trail(ss[i].history, id)) <= 1
    ensures Mark(Queued, None) in Trail(ss[i].history, id) && Reservations(Trail(ss[i].history, id)) == 1 ==>
              id in ss[i].acts && FateOf(ss[i].acts[id].stage).ByApproval?
  {
    Reachable(cfg, ss, steps, i);
    if id in ss[i].acts {
      assert ActOk(ss[i], id);
      ReservationsOfStage(ss[i].acts[id].stage);
    } else {
      forall e | e in ss[i].history ensures e.data.id != Some(id) {
        assert e.data.id.Some? ==> e.data.id.value in ss[i].acts;
      }
      TrailOfStranger(ss[i].history, id);
    }
  }

  lemma ReservationsOfTwo(m: Mark, n: Mark)
    ensures Reservations([m]) == if m.byHuman.Some? then 1 else 0
    ensures Reservations([m] + [n]) == Reservations([m]) + Reservations([n])
  {
    assert [m][1..] == [] && [n][1..] == [] && ([m] + [n])[1..] == [n];
  }

  lemma ReservationsOfStage(st: Stage)
    ensures Reservations(ExpectedTrail(st)) <= 1
    ensures Mark(Queued, None) in ExpectedTrail(st) && Reservations(ExpectedTrail(st)) == 1 ==> FateOf(st).ByApproval?
  {
    var t := ExpectedTrail(st);
    if |t| == 2 {
      ReservationsOfTwo(t[0], t[1]);
      assert t == [t[0]] + [t[1]];
    } else if |t| == 1 {
      ReservationsOfTwo(t[0], t[0]);
      assert t == [t[0]];
    }
  }

  /** The step that approves act `id`: its entry is taken while the client holds a grant. */
  ghost predicate ApprovesWithGrant(s: State, step: Step, id: ActionId) {
    && step.Swept? && s.session.Expiring? && s.session.k == ThenApprove(id)
    && id in s.acts && Q.Has(s.queue, id) && s.acts[id].job.client in s.grants
  }

  lemma LockedStepApproves(cfg: Config, s: State, step: Step, id: ActionId)
    requires SessionStages(s) && Enabled(cfg, s, step) && HoldsLock(step) && !step.Swept?
    requires id in s.acts && s.acts[id].stage.Waiting?
    requires id in Next(cfg, s, step).acts
    ensures !Next(cfg, s, step).acts[id].stage.Approved?
  {}

  lemma FreeStepApproves(cfg: Config, s: State, step: Step, id: ActionId)
    requires Enabled(cfg, s, step) && !HoldsLock(step)
    requires id in s.acts && s.acts[id].stage.Waiting?
    requires id in Next(cfg, s, step).acts
    ensures !Next(cfg, s, step).acts[id].stage.Approved?
  {}

  lemma SweptApproves(cfg: Config, s: State, id: ActionId)
    requires SessionStages(s) && Enabled(cfg, s, Swept) && id in s.acts && s.acts[id].stage.Waiting?
    requires id in AfterSweep(cfg, s).acts && AfterSweep(cfg, s).acts[id].stage.Approved?
    ensures ApprovesWithGrant(s, Swept, id)
  {
    assert s.session.k.ThenApprove?;
  }

  lemma ApprovedWasWaiting(s: State, t: State, id: ActionId)
    requires Advances(s, t) && StartMinted(s, t) && id in t.acts && FateOf(t.acts[id].stage).ByApproval?
    requires id in s.acts ==> !FateOf(s.acts[id].stage).ByApproval?
    ensures id in s.acts && s.acts[id].stage.Waiting? && t.acts[id].stage.Approved?
  {}

  lemma ApprovalNeedsGrant(cfg: Config, s: State, step: Step, id: ActionId)
    requires SessionStages(s) && Enabled(cfg, s, step)
    requires Advances(s, Next(cfg, s, step)) && StartMinted(s, Next(cfg, s, step))
    requires id in Next(cfg, s, step).acts && FateOf(Next(cfg, s, step).acts[id].stage).ByApproval?
    requires id in s.acts ==> !FateOf(s.acts[id].stage).ByApproval?
    ensures ApprovesWithGrant(s, step, id)
  {
    ApprovedWasWaiting(s, Next(cfg, s, step), id);
    if step.Swept? {
      SweptApproves(cfg, s, id);
    } else if HoldsLock(step) {
      LockedStepApproves(cfg, s, step, id);
    } else {
      FreeStepApproves(cfg, s, step, id);
    }
  }

  /** Whatever was approved was approved in a step that saw the client's grant. */
  lemma {:induction false} ApprovedUnderGrant(cfg: Config, ss: seq<State>, steps: seq<Step>, j: nat, id: ActionId)
    requires IsRun(cfg, ss, steps) && j < |ss|
    requires id in ss[j].acts && FateOf(ss[j].acts[id].stage).ByApproval?
    ensures exists i :: 0 <= i < j && ApprovesWithGrant(ss[i], steps[i], id)
  {
    if j > 0 {
      Reachable(cfg, ss, steps, j - 1);
      if id in ss[j - 1].acts && FateOf(ss[j - 1].acts[id].stage).ByApproval? {
        ApprovedUnderGrant(cfg, ss, steps, j - 1, id);
      } else {
        SessionStagesHold(cfg, ss[j - 1]);
        StepAdvances(cfg, ss[j - 1], steps[j - 1]);
        ApprovalNeedsGrant(cfg, ss[j - 1], steps[j - 1], id);
        assert ApprovesWithGrant(ss[j - 1], steps[j - 1], id);
      }
    }
  }

  /** Every other way out of the queue is audited exactly once, and is what the action's resolution shows. */
  lemma ExitIsAuditedOnce(cfg: Config, ss: seq<State>, steps: seq<Step>, i: nat, id: ActionId)
    requires IsRun(cfg, ss, steps) && i < |ss| && id in ss[i].acts && ss[i].acts[id].stage.Left?
    ensures var exit := ss[i].acts[id].stage.exit;
            && Trail(ss[i].history, id)
               == [Mark(Queued, None), Mark(if exit.TimedOut? then Expired else Rejected, None)]
            && forall r :: r in ss[i].resolutions && r.data.id == id ==>
                 r.data.status == if exit.TimedOut? then R.Expired else R.Rejected
  {
    Reachable(cfg, ss, steps, i);
    assert ActOk(ss[i], id);
  }

  /** An action has two audit events exactly when it was queued and then approved or taken out of the queue. */
  lemma TwoEventsIff(cfg: Config, ss: seq<State>, steps: seq<Step>, i: nat, id: ActionId)
    requires IsRun(cfg, ss, steps) && i < |ss| && id in ss[i].acts
    ensures var st := ss[i].acts[id].stage;
            && |Trail(ss[i].history, id)| <= 2
            && (|Trail(ss[i].history, id)| == 2 <==>
                  || st.Noted? || st.Left?
                  || ((st.InFlight? || st.Answered? || st.Settled? || st.Finished? || st.Crashed?) && st.byHuman))
  {
    Reachable(cfg, ss, steps, i);
    assert ActOk(ss[i], id);
  }

  // ---------- resolutions ----------

  predicate IsFinal(status: R.Status) { !status.Queued? }

  lemma StatusFitsStage(cfg: Config, s: State, r: R.Resolution)
    requires ActsOk(s) && ResolutionsOk(cfg, s) && r in s.resolutions
    ensures r.data.id in s.acts && r.data.status in Statuses(s.acts[r.data.id].stage)
  {
    assert ActOk(s, r.data.id);
  }

  /** An action whose resolution is final has no stage left to go to. */
  lemma FinalMeansDone(s: State, r: R.Resolution)
    requires ActsOk(s) && r in s.resolutions && r.data.id in s.acts && IsFinal(r.data.status)
    ensures s.acts[r.data.id].stage.Left? || s.acts[r.data.id].stage.Finished?
  {
    assert ActOk(s, r.data.id);
  }

  predicate Terminal(st: Stage) { st.Left? || st.Finished? || st.TurnedAway? || st.Crashed? }

  lemma {:induction false} TerminalStays(ss: seq<State>, i: nat, j: nat, id: ActionId)
    requires AlwaysAdvances(ss) && i <= j < |ss| && id in ss[i].acts && Terminal(ss[i].acts[id].stage)
    ensures id in ss[j].acts && ss[j].acts[id] == ss[i].acts[id]
  {
    if i < j {
      TerminalStays(ss, i, j - 1, id);
      assert Advances(ss[j - 1], ss[j]);
    }
  }

  /** When an action is done, its audit trail is complete and never changes again. */
  lemma DoneStaysDone(cfg: Config, ss: seq<State>, steps: seq<Step>, i: nat, j: nat, id: ActionId)
    requires IsRun(cfg, ss, steps) && i <= j < |ss| && id in ss[i].acts && Terminal(ss[i].acts[id].stage)
    ensures id in ss[j].acts && ss[j].acts[id] == ss[i].acts[id]
    ensures Trail(ss[j].history, id) == Trail(ss[i].history, id)
  {
    RunAdvances(cfg, ss, steps);
    TerminalStays(ss, i, j, id);
    Reachable(cfg, ss, steps, i);
    Reachable(cfg, ss, steps, j);
    assert ActOk(ss[i], id) && ActOk(ss[j], id);
  }

  /** A final status is never overwritten: as long as the map shows the action, it shows that status. */
  lemma FinalStatusIsFinal(
    cfg: Config, ss: seq<State>, steps: seq<Step>, i: nat, j: nat, r: R.Resolution, r': R.Resolution)
    requires IsRun(cfg, ss, steps) && i <= j < |ss|
    requires r in ss[i].resolutions && IsFinal(r.data.status)
    requires r' in ss[j].resolutions && r'.data.id == r.data.id
    ensures r'.data.status == r.data.status
  {
    var id := r.data.id;
    assert id in ss[i].acts && Terminal(ss[i].acts[id].stage) && r.data.status in Statuses(ss[i].acts[id].stage) by {
      Reachable(cfg, ss, steps, i);
      StatusFitsStage(cfg, ss[i], r);
      FinalMeansDone(ss[i], r);
    }
    DoneStaysDone(cfg, ss, steps, i, j, id);
    assert r'.data.status in Statuses(ss[j].acts[id].stage) by {
      Reachable(cfg, ss, steps, j);
      StatusFitsStage(cfg, ss[j], r');
    }
  }

  lemma QueuedStages(s: State, r: R.Resolution)
    requires r in s.resolutions && r.data.status.Queued? && r.data.id in s.acts && ActOk(s, r.data.id)
    ensures var id := r.data.id;
            var st := s.acts[id].stage;
            || Q.Has(s.queue, id)
            || (s.session != Free && id in Held(s.session))
            || ((st.InFlight? || st.Answered? || st.Settled? || st.Crashed?) && st.byHuman)
  {}

  /** A "queued" resolution belongs to a queued action or to one on its way from the queue to its settlement. */
  lemma QueuedResolutionIsLive(cfg: Config, ss: seq<State>, steps: seq<Step>, i: nat, r: R.Resolution)
    requires IsRun(cfg, ss, steps) && i < |ss| && r in ss[i].resolutions && r.data.status.Queued?
    ensures var s, id := ss[i], r.data.id;
            id in s.acts && var st := s.acts[id].stage;
            || Q.Has(s.queue, id)
            || (s.session != Free && id in Held(s.session))
            || ((st.InFlight? || st.Answered? || st.Settled? || st.Crashed?) && st.byHuman)
  {
    assert ResolutionsOk(cfg, ss[i]) && ActsOk(ss[i]) by { Reachable(cfg, ss, steps, i); }
    assert r.data.id in ss[i].acts;
    QueuedStages(ss[i], r);
  }

  /** A pending action has no reservation, and its resolution, if the map has it, says "queued". */
  lemma PendingIsUndecided(cfg: Config, ss: seq<State>, steps: seq<Step>, i: nat, p: Q.Pending)
    requires IsRun(cfg, ss, steps) && i < |ss| && p in ss[i].queue
    ensures Reservations(Trail(ss[i].history, p.id)) == 0
    ensures forall r :: r in ss[i].resolutions && r.data.id == p.id ==> r.data.status.Queued?
  {
    Reachable(cfg, ss, steps, i);
    assert Q.Has(ss[i].queue, p.id) && ActOk(ss[i], p.id);
    assert QueuePart(true)[1..] == [];
  }
}
