/**
 What a revocation stops and what it does not: no new order of the client enters, but an order that had read its
 grant before can still be reserved or queued. Exactly which, for every reachable state.
 */
module GatewayRevocation {
  import opened Common
  import opened Ledger
  import opened Playing
  import opened Gateway
  import opened GatewayInvariant
  import opened GatewaySteps
  import opened GatewayLifecycle
  import opened GatewayLock
  import GE = GatewayExits
  import GV = GatewayEnvelope
  import GM = GatewayMandate
  import GT = GatewayTheorems
  import GR = GatewayRuns
  import Q = Queue
  import W = Wire

  // ---------- what it stops ----------

  predicate Grants(step: Step, c: ClientId) { step.PutGrant? && step.client == c }

  ghost predicate NoGrantTo(steps: seq<Step>, c: ClientId) { forall step :: step in steps ==> !Grants(step, c) }

  lemma NoGrantAppears(cfg: Config, s: State, step: Step, c: ClientId)
    requires Enabled(cfg, s, step) && !Grants(step, c) && (c !in s.grants || step == StartRevoke(c))
    ensures c !in Next(cfg, s, step).grants
  {
    if HoldsLock(step) { GrantsStay(cfg, s, step); }
  }

  /** While the lock is held no handler touches the grants. */
  lemma GrantsStay(cfg: Config, s: State, step: Step)
    requires Enabled(cfg, s, step) && HoldsLock(step)
    ensures Next(cfg, s, step).grants == s.grants
  {
    if step.Swept? { SweepLeavesGrants(cfg, s); }
  }

  lemma SweepLeavesGrants(cfg: Config, s: State)
    requires Enabled(cfg, s, Swept)
    ensures AfterSweep(cfg, s).grants == s.grants
  {}

  /** Whoever of c's actions is there after the step was there before it. */
  ghost predicate NoNewcomer(s: State, t: State, c: ClientId) {
    forall id :: id in t.acts && t.acts[id].job.client == c ==> id in s.acts && s.acts[id].job.client == c
  }

  lemma RevokedStep(cfg: Config, s: State, step: Step, c: ClientId)
    requires Inv(cfg, s) && Enabled(cfg, s, step) && !Grants(step, c) && (c !in s.grants || step == StartRevoke(c))
    ensures c !in Next(cfg, s, step).grants
    ensures NoNewcomer(s, Next(cfg, s, step), c)
  {
    NoGrantAppears(cfg, s, step, c);
    StepAdvances(cfg, s, step);
    var t := Next(cfg, s, step);
    forall id | id in t.acts && t.acts[id].job.client == c ensures id in s.acts && s.acts[id].job.client == c {
      if id !in s.acts { GV.NewcomerArrives(cfg, s, step, id); }
    }
  }

  lemma NoNewcomerSince(s: State, t: State, u: State, c: ClientId)
    requires NoNewcomer(s, t, c) && NoNewcomer(t, u, c)
    ensures NoNewcomer(s, u, c)
  {}

  lemma {:induction false} NoNewcomerOver(ss: seq<State>, i: nat, j: nat, c: ClientId)
    requires i < j < |ss| && forall k :: i <= k < j ==> NoNewcomer(ss[k], ss[k + 1], c)
    ensures NoNewcomer(ss[i], ss[j], c)
  {
    if i + 1 < j {
      NoNewcomerOver(ss, i, j - 1, c);
      assert NoNewcomer(ss[j - 1], ss[j - 1 + 1], c);
      NoNewcomerSince(ss[i], ss[j - 1], ss[j], c);
    }
  }

  lemma NoGrantNext(cfg: Config, ss: seq<State>, steps: seq<Step>, i: nat, c: ClientId)
    requires IsRun(cfg, ss, steps) && i < |steps| && !Grants(steps[i], c)
    requires c !in ss[i].grants || steps[i] == StartRevoke(c)
    ensures c !in ss[i + 1].grants
  {
    RunStep(cfg, ss, steps, i);
    NoGrantAppears(cfg, ss[i], steps[i], c);
  }

  lemma {:induction false} GrantStaysAway(
    cfg: Config, ss: seq<State>, steps: seq<Step>, i: nat, j: nat, c: ClientId)
    requires IsRun(cfg, ss, steps) && i < j < |ss| && steps[i] == StartRevoke(c)
    requires forall k :: i < k < j ==> !Grants(steps[k], c)
    ensures c !in ss[j].grants
  {
    if i + 1 < j { GrantStaysAway(cfg, ss, steps, i, j - 1, c); }
    NoGrantNext(cfg, ss, steps, j - 1, c);
  }

  lemma NothingNewNext(cfg: Config, ss: seq<State>, steps: seq<Step>, i: nat, c: ClientId)
    requires IsRun(cfg, ss, steps) && i < |steps| && !Grants(steps[i], c)
    requires c !in ss[i].grants || steps[i] == StartRevoke(c)
    ensures NoNewcomer(ss[i], ss[i + 1], c)
  {
    RunStep(cfg, ss, steps, i);
    Reachable(cfg, ss, steps, i);
    RevokedStep(cfg, ss[i], steps[i], c);
  }

  /**
   Over any run, after a revocation and until the next grant the client holds none, and every action of the client
   was there when the revocation began.
   */
  lemma {:induction false} NothingNewAfterRevocation(
    cfg: Config, ss: seq<State>, steps: seq<Step>, i: nat, j: nat, c: ClientId)
    requires IsRun(cfg, ss, steps) && i < j < |ss| && steps[i] == StartRevoke(c)
    requires forall k :: i < k < j ==> !Grants(steps[k], c)
    ensures c !in ss[j].grants
    ensures NoNewcomer(ss[i], ss[j], c)
  {
    GrantStaysAway(cfg, ss, steps, i, j, c);
    forall k | i <= k < j ensures NoNewcomer(ss[k], ss[k + 1], c) {
      if i < k { GrantStaysAway(cfg, ss, steps, i, k, c); }
      NothingNewNext(cfg, ss, steps, k, c);
    }
    NoNewcomerOver(ss, i, j, c);
  }

  // ---------- what can no longer be reserved ----------

  predicate Handed(st: Stage) { st.InFlight? || st.Answered? || st.Settled? || st.Finished? || st.Crashed? }

  /** The order has not been reserved, and without a grant it will not be. */
  ghost predicate Barred(s: State, id: ActionId) {
    id in s.acts && var a := s.acts[id];
    match a.stage
    case Minted(limit) => a.job.amount > limit
    case Checked => s.session.Budget? && s.session.id == id ==> a.job.amount > s.session.limit
    case Approved(_) => false
    case InFlight(_, _, _, _) => false
    case Answered(_, _) => false
    case Settled(_, _) => false
    case Finished(_, _) => false
    case Crashed(_) => false
    case _ => true
  }

  lemma ReadingIsExplicit(cfg: Config, s: State, step: Step, id: ActionId)
    requires SessionStages(s) && Enabled(cfg, s, step) && id in s.acts && s.acts[id].stage.Minted?
    requires id in Next(cfg, s, step).acts && Next(cfg, s, step).acts[id].stage.Checked?
    ensures step == ReadBudget(id)
  {
    if HoldsLock(step) { LockedKeepsMinted(cfg, s, step, id); }
  }

  /** The lock holder's own steps leave orders alone that have not reached the lock. */
  lemma LockedKeepsMinted(cfg: Config, s: State, step: Step, id: ActionId)
    requires SessionStages(s) && Enabled(cfg, s, step) && HoldsLock(step) && id in s.acts && s.acts[id].stage.Minted?
    ensures id in Next(cfg, s, step).acts && Next(cfg, s, step).acts[id] == s.acts[id]
  {
    if step.Swept? { SweepKeepsMinted(cfg, s, id); }
  }

  lemma SweepKeepsMinted(cfg: Config, s: State, id: ActionId)
    requires SessionStages(s) && Enabled(cfg, s, Swept) && id in s.acts && s.acts[id].stage.Minted?
    ensures id in AfterSweep(cfg, s).acts && AfterSweep(cfg, s).acts[id] == s.acts[id]
  {}

  lemma BudgetIsKept(cfg: Config, s: State, step: Step, id: ActionId)
    requires Enabled(cfg, s, step) && id in s.acts && s.acts[id].stage.Checked?
    requires Next(cfg, s, step).session.Budget? && Next(cfg, s, step).session.id == id
    ensures Next(cfg, s, step).session == s.session
  {
    if step.Swept? { SweepReadsNoBudget(cfg, s); }
  }

  lemma SweepReadsNoBudget(cfg: Config, s: State)
    requires Enabled(cfg, s, Swept)
    ensures !AfterSweep(cfg, s).session.Budget?
  {}

  lemma CheckedStaysBarred(cfg: Config, s: State, step: Step, t: State, id: ActionId)
    requires SessionStages(s) && SessionOk(s) && Enabled(cfg, s, step) && t == Next(cfg, s, step)
    requires Barred(s, id) && s.acts[id].stage.Checked? && id in t.acts && t.acts[id].job == s.acts[id].job
    requires Successor(s.acts[id].stage, t.acts[id].stage)
    ensures Barred(t, id)
  {
    if t.acts[id].stage.InFlight? {
      if HoldsLock(step) {
        LockedStepReserves(cfg, s, step, id);
      } else {
        FreeStepReserves(cfg, s, step, id);
      }
    } else if t.acts[id].stage.Checked? && t.session.Budget? && t.session.id == id {
      BudgetIsKept(cfg, s, step, id);
    }
  }

  lemma WaitingStaysBarred(cfg: Config, s: State, step: Step, t: State, id: ActionId)
    requires SessionStages(s) && Enabled(cfg, s, step) && t == Next(cfg, s, step) && id in t.acts
    requires id in s.acts && s.acts[id].stage.Waiting? && (s.acts[id].job.client !in s.grants || step.StartRevoke?)
    ensures !t.acts[id].stage.Approved?
  {
    if t.acts[id].stage.Approved? {
      if step.Swept? {
        SweptApproves(cfg, s, id);
      } else if HoldsLock(step) {
        LockedStepApproves(cfg, s, step, id);
      } else {
        FreeStepApproves(cfg, s, step, id);
      }
    }
  }

  lemma BarredStep(cfg: Config, s: State, step: Step, id: ActionId)
    requires QueueOk(cfg, s) && ActsOk(s) && SessionOk(s) && Enabled(cfg, s, step) && Barred(s, id)
    requires s.acts[id].job.client !in s.grants || step == StartRevoke(s.acts[id].job.client)
    ensures Barred(Next(cfg, s, step), id)
    ensures Next(cfg, s, step).acts[id].job == s.acts[id].job
  {
    var t := Next(cfg, s, step);
    StepAdvances(cfg, s, step);
    SessionStagesHold(cfg, s);
    var a, b := s.acts[id].stage, t.acts[id].stage;
    if a.Minted? {
      if b.Checked? { ReadingIsExplicit(cfg, s, step, id); }
    } else if a.Checked? {
      CheckedStaysBarred(cfg, s, step, t, id);
    } else if a.Waiting? {
      WaitingStaysBarred(cfg, s, step, t, id);
    }
  }

  lemma {:induction false} BarredForGood(cfg: Config, s: State, steps: seq<Step>, id: ActionId)
    requires Inv(cfg, s) && Barred(s, id) && s.acts[id].job.client !in s.grants
    requires NoGrantTo(steps, s.acts[id].job.client) && Play(GR.Moves(cfg), s, steps).Some?
    ensures Barred(Play(GR.Moves(cfg), s, steps).value, id)
    decreases steps
  {
    if steps != [] {
      assert steps[0] in steps;
      BarredStep(cfg, s, steps[0], id);
      NoGrantAppears(cfg, s, steps[0], s.acts[id].job.client);
      StepKeeps(cfg, s, steps[0]);
      BarredForGood(cfg, Next(cfg, s, steps[0]), steps[1..], id);
    }
  }

  // ---------- and what can no longer be queued ----------

  /** The order has been neither reserved nor queued. */
  predicate Outside(st: Stage) { st.Minted? || st.Checked? || st.QueueIsFull? || st.TurnedAway? }

  lemma QueuedOnlyWithRoom(cfg: Config, s: State, step: Step, id: ActionId)
    requires SessionStages(s) && Enabled(cfg, s, step) && id in s.acts && s.acts[id].stage.Checked?
    requires id in Next(cfg, s, step).acts && Next(cfg, s, step).acts[id].stage.Admitted?
    ensures cfg.pendingMax > 0
  {
    if HoldsLock(step) { LockedQueuesWithRoom(cfg, s, step, id); }
  }

  lemma LockedQueuesWithRoom(cfg: Config, s: State, step: Step, id: ActionId)
    requires SessionStages(s) && Enabled(cfg, s, step) && HoldsLock(step) && id in s.acts && s.acts[id].stage.Checked?
    requires id in Next(cfg, s, step).acts && Next(cfg, s, step).acts[id].stage.Admitted?
    ensures cfg.pendingMax > 0
  {
    assert step.Swept?;
  }

  ghost predicate ShutOut(cfg: Config, s: State, id: ActionId) {
    && Barred(s, id) && Outside(s.acts[id].stage)
    && (cfg.pendingMax == 0 || s.acts[id].stage.QueueIsFull? || s.acts[id].stage.TurnedAway?)
  }

  lemma ShutOutStep(cfg: Config, s: State, step: Step, id: ActionId)
    requires Inv(cfg, s) && Enabled(cfg, s, step) && ShutOut(cfg, s, id) && s.acts[id].job.client !in s.grants
    ensures ShutOut(cfg, Next(cfg, s, step), id)
    ensures Next(cfg, s, step).acts[id].job == s.acts[id].job
  {
    BarredStep(cfg, s, step, id);
    StepAdvances(cfg, s, step);
    SessionStagesHold(cfg, s);
    if Next(cfg, s, step).acts[id].stage.Admitted? { QueuedOnlyWithRoom(cfg, s, step, id); }
  }

  lemma {:induction false} ShutOutForGood(cfg: Config, s: State, steps: seq<Step>, id: ActionId)
    requires Inv(cfg, s) && ShutOut(cfg, s, id) && s.acts[id].job.client !in s.grants
    requires NoGrantTo(steps, s.acts[id].job.client) && Play(GR.Moves(cfg), s, steps).Some?
    ensures ShutOut(cfg, Play(GR.Moves(cfg), s, steps).value, id)
    decreases steps
  {
    if steps != [] {
      assert steps[0] in steps;
      ShutOutStep(cfg, s, steps[0], id);
      NoGrantAppears(cfg, s, steps[0], s.acts[id].job.client);
      StepKeeps(cfg, s, steps[0]);
      ShutOutForGood(cfg, Next(cfg, s, steps[0]), steps[1..], id);
    }
  }

  // ---------- the revocation, played to its end ----------

  /** The revocation is over: the client has neither a grant nor a queued action, and the order still has its limit. */
  ghost predicate Revoked(cfg: Config, s: State, c: ClientId, id: ActionId, a: Act) {
    && Inv(cfg, s) && c !in s.grants && id in s.acts && s.acts[id] == a
    && NoneOf(s.queue, c)
  }

  /** One step of the lock holder on its way through the revocation. */
  lemma RevocationMoves(cfg: Config, s: State, since: Time, c: ClientId, id: ActionId)
    requires Inv(cfg, s) && GE.Revoking(s.session, since, c) && id in s.acts && s.acts[id].stage.Minted?
    ensures var step := LockStep(s);
            && Enabled(cfg, s, step) && !step.PutGrant? && StepsLeft(Next(cfg, s, step)) < StepsLeft(s)
            && var t := Next(cfg, s, step);
               && t.grants == s.grants && id in t.acts && t.acts[id] == s.acts[id]
               && (if step.EndPurge? then t.session.Free? && NoneOf(t.queue, c) else GE.Revoking(t.session, since, c))
  {
    var step := LockStep(s);
    LockHolderMoves(cfg, s);
    GrantsStay(cfg, s, step);
    SessionStagesHold(cfg, s);
    LockedKeepsMinted(cfg, s, step, id);
    GE.RevokingLockedStep(cfg, s, step, since, c);
    if step.EndPurge? { GT.PurgeLeavesNone(cfg, s); }
  }

  lemma {:induction false} RevocationEnds(cfg: Config, s: State, since: Time, c: ClientId, id: ActionId)
    returns (steps: seq<Step>)
    requires Inv(cfg, s) && GE.Revoking(s.session, since, c) && c !in s.grants
    requires id in s.acts && s.acts[id].stage.Minted?
    ensures Play(GR.Moves(cfg), s, steps).Some? && NoGrantTo(steps, c)
    ensures var t := Play(GR.Moves(cfg), s, steps).value; t.session.Free? && Revoked(cfg, t, c, id, s.acts[id])
    decreases StepsLeft(s)
  {
    var step := LockStep(s);
    RevocationMoves(cfg, s, since, c, id);
    var t := Next(cfg, s, step);
    StepKeeps(cfg, s, step);
    if step.EndPurge? {
      PlayFirst(GR.Moves(cfg), s, step, []);
      steps := [step] + [];
    } else {
      var rest := RevocationEnds(cfg, t, since, c, id);
      PlayFirst(GR.Moves(cfg), s, step, rest);
      steps := [step] + rest;
    }
  }

  /** The steps that begin with the revocation and end it. */
  lemma RevocationPlays(cfg: Config, s: State, c: ClientId, id: ActionId) returns (more: seq<Step>)
    requires Inv(cfg, s) && s.session.Free? && id in s.acts && s.acts[id].stage.Minted?
    ensures var end := Play(GR.Moves(cfg), s, [StartRevoke(c)] + more);
            end.Some? && end.value.session.Free? && Revoked(cfg, end.value, c, id, s.acts[id])
    ensures NoGrantTo(more, c)
  {
    var t := Next(cfg, s, StartRevoke(c));
    StepKeeps(cfg, s, StartRevoke(c));
    more := RevocationEnds(cfg, t, s.now, c, id);
    PlayFirst(GR.Moves(cfg), s, StartRevoke(c), more);
  }

  // ---------- an order that had read its grant ----------

  lemma {:induction false} NothingInWindow(log: seq<Event>, c: ClientId, cutoff: Time)
    requires forall e :: e in log ==> e.at < cutoff
    ensures Used(log, c, cutoff) == 0
  {
    if log != [] {
      assert log[0] in log;
      NothingInWindow(log[1..], c, cutoff);
    }
  }

  function Wait(cfg: Config): Time { (if cfg.window > 0 then cfg.window else 0) as real + 1.0 }

  /** One window later everything spent is forgotten, and the order is reserved. */
  function ReserveLater(cfg: Config, id: ActionId): seq<Step> {
    [Tick(Wait(cfg))] + ([ReadBudget(id)] + ([Reserve] + []))
  }

  lemma WaitForgets(cfg: Config, s: State, c: ClientId)
    requires HistoryOk(cfg, s)
    ensures UsedNow(cfg, s.(now := s.now + Wait(cfg)), c) == 0
  {
    GT.LogIsPast(cfg, s);
    NothingInWindow(s.events, c, Cutoff(cfg, s.(now := s.now + Wait(cfg))));
  }

  /** With nothing spent, an order that fits its limit is reserved. */
  lemma FreshOrderIsReserved(cfg: Config, s: State, id: ActionId)
    requires s.session.Free? && id in s.acts && s.acts[id].stage.Minted?
    requires UsedNow(cfg, s, s.acts[id].job.client) == 0 && s.acts[id].job.amount <= s.acts[id].stage.limit
    ensures var end := Play(GR.Moves(cfg), s, [ReadBudget(id)] + ([Reserve] + []));
            end.Some? && id in end.value.acts && end.value.acts[id].stage.InFlight?
  {
    var t := Next(cfg, s, ReadBudget(id));
    PlayFirst(GR.Moves(cfg), t, Reserve, []);
    PlayFirst(GR.Moves(cfg), s, ReadBudget(id), [Reserve] + []);
  }

  lemma TickFirst(cfg: Config, s: State, dt: Time, rest: seq<Step>)
    requires dt >= 0.0
    ensures Play(GR.Moves(cfg), s, [Tick(dt)] + rest) == Play(GR.Moves(cfg), s.(now := s.now + dt), rest)
  {
    TickMoves(cfg, s, dt);
    PlayFirst(GR.Moves(cfg), s, Tick(dt), rest);
  }

  lemma TickMoves(cfg: Config, s: State, dt: Time)
    requires dt >= 0.0
    ensures GR.Moves(cfg)(s, Tick(dt)) == Some(s.(now := s.now + dt))
  {}

  lemma WaitPlays(cfg: Config, s: State, id: ActionId)
    ensures Play(GR.Moves(cfg), s, ReserveLater(cfg, id))
         == Play(GR.Moves(cfg), s.(now := s.now + Wait(cfg)), [ReadBudget(id)] + ([Reserve] + []))
  {
    TickFirst(cfg, s, Wait(cfg), [ReadBudget(id)] + ([Reserve] + []));
  }

  lemma OldOrderIsReserved(cfg: Config, s: State, c: ClientId, id: ActionId, a: Act)
    requires Revoked(cfg, s, c, id, a) && s.session.Free? && a.stage.Minted? && a.job.amount <= a.stage.limit
    ensures var end := Play(GR.Moves(cfg), s, ReserveLater(cfg, id));
            end.Some? && id in end.value.acts && end.value.acts[id].stage.InFlight?
  {
    WaitForgets(cfg, s, a.job.client);
    WaitPlays(cfg, s, id);
    FreshOrderIsReserved(cfg, s.(now := s.now + Wait(cfg)), id);
  }

  /** The lock holder is queueing order id. */
  predicate Queueing(n: Session, id: ActionId) {
    match n
    case Expiring(_, _, k) => k.ThenQueue? && k.id == id
    case Noting(_, e, _, _, k) => k.ThenQueue? && k.id == id && e.TimedOut?
    case Resolving(_, e, _, _, k) => k.ThenQueue? && k.id == id && e.TimedOut?
    case _ => false
  }

  lemma {:induction false} NoneToCount(q: seq<Q.Pending>, c: ClientId)
    requires forall p :: p in q ==> p.job.client != c
    ensures Q.CountFor(q, c) == 0
  {
    if q != [] {
      assert q[0] in q;
      NoneToCount(q[1..], c);
    }
  }

  ghost predicate NoneOf(q: seq<Q.Pending>, c: ClientId) { forall p :: p in q ==> p.job.client != c }

  /** Order id is on its way into a queue that holds nothing of its client. */
  ghost predicate OnTheWay(s: State, id: ActionId, c: ClientId) {
    && Queueing(s.session, id) && id in s.acts && s.acts[id].stage.Checked? && s.acts[id].job.client == c
    && NoneOf(s.queue, c)
  }

  lemma QueueingPops(cfg: Config, s: State, id: ActionId, c: ClientId)
    requires QueueOk(cfg, s) && SessionOk(s) && OnTheWay(s, id, c) && s.session.Expiring? && s.session.todo != []
    requires Enabled(cfg, s, PopOverdue)
    ensures OnTheWay(OverduePopped(s), id, c)
  {
    var x := s.session.todo[0];
    assert x in s.session.todo;
    var p := Q.Find(s.queue, x);
    assert x != id;
    Q.WithoutMembers(s.queue, x);
  }

  lemma QueueingStep(cfg: Config, s: State, id: ActionId, c: ClientId)
    requires QueueOk(cfg, s) && SessionOk(s) && OnTheWay(s, id, c) && cfg.pendingMax > 0
    requires Enabled(cfg, s, LockStep(s))
    ensures var t := Next(cfg, s, LockStep(s));
            OnTheWay(t, id, c) || (id in t.acts && t.acts[id].stage.Admitted?)
  {
    if LockStep(s).Swept? {
      NoneToCount(s.queue, c);
    } else if LockStep(s).PopOverdue? {
      QueueingPops(cfg, s, id, c);
    } else {
      assert s.session.id != id;
    }
  }

  lemma QueueingMoves(cfg: Config, s: State, id: ActionId, c: ClientId)
    requires Inv(cfg, s) && OnTheWay(s, id, c) && cfg.pendingMax > 0
    ensures var step := LockStep(s);
            && Enabled(cfg, s, step) && !step.PutGrant? && StepsLeft(Next(cfg, s, step)) < StepsLeft(s)
            && var t := Next(cfg, s, step);
               OnTheWay(t, id, c) || (id in t.acts && t.acts[id].stage.Admitted?)
  {
    LockHolderMoves(cfg, s);
    QueueingStep(cfg, s, id, c);
  }

  lemma {:induction false} QueueingEnds(cfg: Config, s: State, c: ClientId, id: ActionId) returns (steps: seq<Step>)
    requires Inv(cfg, s) && OnTheWay(s, id, c) && cfg.pendingMax > 0
    ensures var t := Play(GR.Moves(cfg), s, steps); t.Some? && id in t.value.acts && t.value.acts[id].stage.Admitted?
    ensures NoGrantTo(steps, c)
    decreases StepsLeft(s)
  {
    var step := LockStep(s);
    QueueingMoves(cfg, s, id, c);
    var t := Next(cfg, s, step);
    if id in t.acts && t.acts[id].stage.Admitted? {
      PlayFirst(GR.Moves(cfg), s, step, []);
      steps := [step] + [];
    } else {
      StepKeeps(cfg, s, step);
      var rest := QueueingEnds(cfg, t, c, id);
      PlayFirst(GR.Moves(cfg), s, step, rest);
      steps := [step] + rest;
    }
  }

  lemma OldOrderExceeds(cfg: Config, s: State, id: ActionId, a: Act)
    requires Revoked(cfg, s, a.job.client, id, a) && s.session.Free? && a.stage.Minted? && a.job.amount > a.stage.limit
    ensures var s1 := Next(cfg, s, ReadBudget(id));
            Enabled(cfg, s1, ExceedMandate) && Inv(cfg, Next(cfg, s1, ExceedMandate))
            && OnTheWay(Next(cfg, s1, ExceedMandate), id, a.job.client)
  {
    var s1 := Next(cfg, s, ReadBudget(id));
    assert UsedNow(cfg, s, a.job.client) >= 0 by { UsageIsNonNegative(cfg, s, a.job.client); }
    StepKeeps(cfg, s, ReadBudget(id));
    StepKeeps(cfg, s1, ExceedMandate);
  }

  /** Where the queue has room, an old order above its limit is queued. */
  lemma OldOrderIsQueued(cfg: Config, s: State, id: ActionId, a: Act) returns (steps: seq<Step>)
    requires Revoked(cfg, s, a.job.client, id, a) && s.session.Free? && a.stage.Minted? && a.job.amount > a.stage.limit
    requires cfg.pendingMax > 0
    ensures var t := Play(GR.Moves(cfg), s, steps); t.Some? && id in t.value.acts && t.value.acts[id].stage.Admitted?
    ensures NoGrantTo(steps, a.job.client)
  {
    var s1 := Next(cfg, s, ReadBudget(id));
    OldOrderExceeds(cfg, s, id, a);
    var s2 := Next(cfg, s1, ExceedMandate);
    var rest := QueueingEnds(cfg, s2, a.job.client, id);
    PlayFirst(GR.Moves(cfg), s1, ExceedMandate, rest);
    PlayFirst(GR.Moves(cfg), s, ReadBudget(id), [ExceedMandate] + rest);
    steps := [ReadBudget(id)] + ([ExceedMandate] + rest);
  }

  // ---------- exactly which orders go on ----------

  /** A continuation that starts with the revocation of id's client and grants it nothing again. */
  ghost predicate RevokedRun(cfg: Config, s: State, id: ActionId, more: seq<Step>) {
    && id in s.acts && NoGrantTo(more, s.acts[id].job.client)
    && Play(GR.Moves(cfg), s, [StartRevoke(s.acts[id].job.client)] + more).Some?
  }

  function StageAfter(t: State, id: ActionId): Stage { if id in t.acts then t.acts[id].stage else Checked }

  /** It ends with the order newly reserved. */
  ghost predicate Reserves(cfg: Config, s: State, id: ActionId, more: seq<Step>) {
    && RevokedRun(cfg, s, id, more) && !Handed(s.acts[id].stage)
    && Handed(StageAfter(Play(GR.Moves(cfg), s, [StartRevoke(s.acts[id].job.client)] + more).value, id))
  }

  /** It ends with the order newly reserved or queued. */
  ghost predicate TakesOn(cfg: Config, s: State, id: ActionId, more: seq<Step>) {
    && RevokedRun(cfg, s, id, more) && Outside(s.acts[id].stage)
    && !Outside(StageAfter(Play(GR.Moves(cfg), s, [StartRevoke(s.acts[id].job.client)] + more).value, id))
  }

  lemma BarredAfterRevocation(cfg: Config, s: State, id: ActionId, more: seq<Step>)
    requires Inv(cfg, s) && s.session.Free? && RevokedRun(cfg, s, id, more) && Barred(s, id)
    ensures Barred(Play(GR.Moves(cfg), s, [StartRevoke(s.acts[id].job.client)] + more).value, id)
    ensures Outside(s.acts[id].stage) && (cfg.pendingMax == 0 || !s.acts[id].stage.Minted?) ==>
              Outside(StageAfter(Play(GR.Moves(cfg), s, [StartRevoke(s.acts[id].job.client)] + more).value, id))
  {
    var c := s.acts[id].job.client;
    var t := Next(cfg, s, StartRevoke(c));
    PlayFirst(GR.Moves(cfg), s, StartRevoke(c), more);
    StepKeeps(cfg, s, StartRevoke(c));
    assert t.acts == s.acts && c !in t.grants;
    assert s.acts[id].stage.Checked? ==> false by { assert ActOk(s, id); }
    BarredForGood(cfg, t, more, id);
    if Outside(s.acts[id].stage) && (cfg.pendingMax == 0 || !s.acts[id].stage.Minted?) {
      ShutOutForGood(cfg, t, more, id);
    }
  }

  /** At a moment when the lock is free, what is not reserved is barred, but for orders that fit their limit. */
  lemma FreeMeansBarred(cfg: Config, s: State, id: ActionId)
    requires ActsOk(s) && s.session.Free? && id in s.acts && !Handed(s.acts[id].stage)
    ensures Barred(s, id) <==> !(s.acts[id].stage.Minted? && s.acts[id].job.amount <= s.acts[id].stage.limit)
    ensures !s.acts[id].stage.Checked?
  {
    assert ActOk(s, id);
  }

  lemma AndThen(cfg: Config, s: State, c: ClientId, revoking: seq<Step>, rest: seq<Step>)
    requires Play(GR.Moves(cfg), s, [StartRevoke(c)] + revoking).Some? && NoGrantTo(revoking, c) && NoGrantTo(rest, c)
    ensures Play(GR.Moves(cfg), s, [StartRevoke(c)] + (revoking + rest))
         == Play(GR.Moves(cfg), Play(GR.Moves(cfg), s, [StartRevoke(c)] + revoking).value, rest)
    ensures NoGrantTo(revoking + rest, c)
  {
    PlayOn(GR.Moves(cfg), s, [StartRevoke(c)] + revoking, rest);
    assert [StartRevoke(c)] + (revoking + rest) == ([StartRevoke(c)] + revoking) + rest;
  }

  lemma WaitingGrantsNothing(cfg: Config, id: ActionId, c: ClientId)
    ensures NoGrantTo(ReserveLater(cfg, id), c)
  {
    assert ReserveLater(cfg, id) == [Tick(Wait(cfg)), ReadBudget(id), Reserve];
  }

  lemma MintedReserves(cfg: Config, s: State, id: ActionId) returns (more: seq<Step>)
    requires Inv(cfg, s) && s.session.Free? && id in s.acts && s.acts[id].stage.Minted?
    requires s.acts[id].job.amount <= s.acts[id].stage.limit
    ensures Reserves(cfg, s, id, more)
  {
    var c := s.acts[id].job.client;
    var revoking := RevocationPlays(cfg, s, c, id);
    var t := Play(GR.Moves(cfg), s, [StartRevoke(c)] + revoking).value;
    assert Play(GR.Moves(cfg), t, ReserveLater(cfg, id)).Some?
        && StageAfter(Play(GR.Moves(cfg), t, ReserveLater(cfg, id)).value, id).InFlight? by {
      OldOrderIsReserved(cfg, t, c, id, s.acts[id]);
    }
    WaitingGrantsNothing(cfg, id, c);
    AndThen(cfg, s, c, revoking, ReserveLater(cfg, id));
    more := revoking + ReserveLater(cfg, id);
  }

  lemma MintedQueues(cfg: Config, s: State, id: ActionId) returns (more: seq<Step>)
    requires Inv(cfg, s) && s.session.Free? && id in s.acts && s.acts[id].stage.Minted?
    requires s.acts[id].job.amount > s.acts[id].stage.limit && cfg.pendingMax > 0
    ensures TakesOn(cfg, s, id, more)
  {
    var c := s.acts[id].job.client;
    var revoking := RevocationPlays(cfg, s, c, id);
    var t := Play(GR.Moves(cfg), s, [StartRevoke(c)] + revoking).value;
    var queueing := OldOrderIsQueued(cfg, t, id, s.acts[id]);
    AndThen(cfg, s, c, revoking, queueing);
    more := revoking + queueing;
  }

  /**
   In any reachable state in which a revocation can begin: an action of the client can still be reserved after it,
   without another grant, iff it is an order that has read its grant, has not reached the lock, and fits its limit.
   */
  lemma ReservedAfterRevocationIff(cfg: Config, ss: seq<State>, steps: seq<Step>, i: nat, id: ActionId)
    requires IsRun(cfg, ss, steps) && i < |ss| && ss[i].session.Free? && id in ss[i].acts
    ensures (exists more :: Reserves(cfg, ss[i], id, more))
       <==> ss[i].acts[id].stage.Minted? && ss[i].acts[id].job.amount <= ss[i].acts[id].stage.limit
  {
    var s := ss[i];
    Reachable(cfg, ss, steps, i);
    if s.acts[id].stage.Minted? && s.acts[id].job.amount <= s.acts[id].stage.limit {
      var more := MintedReserves(cfg, s, id);
    } else {
      forall more | RevokedRun(cfg, s, id, more) ensures !Reserves(cfg, s, id, more) {
        if !Handed(s.acts[id].stage) {
          FreeMeansBarred(cfg, s, id);
          BarredAfterRevocation(cfg, s, id, more);
        }
      }
    }
  }

  /** And it can still be reserved or queued iff it has read its grant, and fits its limit or queues can hold any. */
  lemma TakenOnAfterRevocationIff(cfg: Config, ss: seq<State>, steps: seq<Step>, i: nat, id: ActionId)
    requires IsRun(cfg, ss, steps) && i < |ss| && ss[i].session.Free? && id in ss[i].acts
    ensures (exists more :: TakesOn(cfg, ss[i], id, more))
       <==> ss[i].acts[id].stage.Minted?
            && (ss[i].acts[id].job.amount <= ss[i].acts[id].stage.limit || cfg.pendingMax > 0)
  {
    var s := ss[i];
    Reachable(cfg, ss, steps, i);
    if s.acts[id].stage.Minted? && s.acts[id].job.amount <= s.acts[id].stage.limit {
      var more := MintedReserves(cfg, s, id);
      assert TakesOn(cfg, s, id, more);
    } else if s.acts[id].stage.Minted? && cfg.pendingMax > 0 {
      var more := MintedQueues(cfg, s, id);
    } else {
      forall more | RevokedRun(cfg, s, id, more) ensures !TakesOn(cfg, s, id, more) {
        if Outside(s.acts[id].stage) {
          FreeMeansBarred(cfg, s, id);
          BarredAfterRevocation(cfg, s, id, more);
        }
      }
    }
  }

  /** A run from the start: granted, ordered, revoked, and then reserved in full. */
  function SpendAfterRevocation(c: ClientId, id: ActionId, job: Job): seq<Step> {
    [PutGrant(c, job.amount)] + ([Arrive(id, job)] + ([StartRevoke(c)] + ([Swept] + ([EndPurge]
    + ([ReadBudget(id)] + ([Reserve] + []))))))
  }

  /** The state once the grant is gone and the order, which has read it, is still there. */
  function AfterRevocation(s: State, id: ActionId, job: Job): State {
    s.(grants := map[], acts := map[id := Act(job, Minted(job.amount))])
  }

  /** A revocation with nothing queued. */
  lemma RevokesAlone(cfg: Config, s: State, c: ClientId, rest: seq<Step>)
    requires s.session.Free? && s.queue == []
    ensures Play(GR.Moves(cfg), s, [StartRevoke(c)] + ([Swept] + ([EndPurge] + rest)))
         == Play(GR.Moves(cfg), s.(grants := s.grants - {c}), rest)
  {
    var s1 := Next(cfg, s, StartRevoke(c));
    var s2 := Next(cfg, s1, Swept);
    PlayFirst(GR.Moves(cfg), s2, EndPurge, rest);
    PlayFirst(GR.Moves(cfg), s1, Swept, [EndPurge] + rest);
    PlayFirst(GR.Moves(cfg), s, StartRevoke(c), [Swept] + ([EndPurge] + rest));
    assert Next(cfg, s2, EndPurge) == s.(grants := s.grants - {c});
  }

  /** A grant, an order that reads it, and the grant's revocation. */
  lemma OrdersThenRevoked(cfg: Config, s: State, id: ActionId, job: Job, rest: seq<Step>)
    requires Init(cfg, s) && W.OrderInBounds(job.item, job.quantity, job.amount)
    ensures Play(GR.Moves(cfg), s, [PutGrant(job.client, job.amount)] + ([Arrive(id, job)]
            + ([StartRevoke(job.client)] + ([Swept] + ([EndPurge] + rest)))))
         == Play(GR.Moves(cfg), AfterRevocation(s, id, job), rest)
  {
    var c := job.client;
    var s1 := Next(cfg, s, PutGrant(c, job.amount));
    var s2 := Next(cfg, s1, Arrive(id, job));
    var revoking := [StartRevoke(c)] + ([Swept] + ([EndPurge] + rest));
    PlayFirst(GR.Moves(cfg), s1, Arrive(id, job), revoking);
    PlayFirst(GR.Moves(cfg), s, PutGrant(c, job.amount), [Arrive(id, job)] + revoking);
    RevokesAlone(cfg, s2, c, rest);
    assert s2.(grants := s2.grants - {c}) == AfterRevocation(s, id, job);
  }

  /** The run ends with the whole limit spent by a client that holds no grant. */
  lemma RevokedClientSpends(cfg: Config, s: State, id: ActionId, job: Job)
    requires Init(cfg, s) && cfg.window >= 0 && W.OrderInBounds(job.item, job.quantity, job.amount)
    ensures var end := Play(GR.Moves(cfg), s, SpendAfterRevocation(job.client, id, job));
            && end.Some? && job.client !in end.value.grants
            && id in end.value.acts && end.value.acts[id].stage == InFlight(false, job.amount, 0, false)
            && GM.Spent(cfg, end.value, job.client) == job.amount
  {
    var s5 := AfterRevocation(s, id, job);
    OrdersThenRevoked(cfg, s, id, job, [ReadBudget(id)] + ([Reserve] + []));
    var s6 := Next(cfg, s5, ReadBudget(id));
    PlayFirst(GR.Moves(cfg), s6, Reserve, []);
    PlayFirst(GR.Moves(cfg), s5, ReadBudget(id), [Reserve] + []);
    GM.RecordingSpends(cfg, s6, ActEvent(s6, id, Accepted, Handoff(false, InProgress)), job.client);
  }
}
