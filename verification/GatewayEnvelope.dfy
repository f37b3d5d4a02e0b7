/** What the envelope tells the agent is what happened: the order that arrived, who decided, what was read. */
module GatewayEnvelope {
  import opened Common
  import opened Gateway
  import opened GatewayInvariant
  import opened GatewaySteps
  import opened GatewayLifecycle
  import Q = Queue
  import W = Wire

  // ---------- where an action comes from ----------

  lemma SweepAddsNoAction(cfg: Config, s: State, id: ActionId)
    requires Enabled(cfg, s, Swept) && id in AfterSweep(cfg, s).acts
    ensures id in s.acts
  {}

  lemma LockedAddsNoAction(cfg: Config, s: State, step: Step, id: ActionId)
    requires Enabled(cfg, s, step) && HoldsLock(step) && id in Next(cfg, s, step).acts
    ensures id in s.acts
  {
    if step.Swept? { SweepAddsNoAction(cfg, s, id); }
  }

  /** An action appears only by arriving, and with the limit that its client's grant then has. */
  lemma NewcomerArrives(cfg: Config, s: State, step: Step, id: ActionId)
    requires Enabled(cfg, s, step) && id in Next(cfg, s, step).acts && id !in s.acts
    ensures step.Arrive? && step.id == id && step.job == Next(cfg, s, step).acts[id].job && step.job.client in s.grants
    ensures Next(cfg, s, step).acts[id].stage == Minted(s.grants[step.job.client])
  {
    if HoldsLock(step) { LockedAddsNoAction(cfg, s, step, id); }
  }

  /** At step k the order arrived, from a client with a grant. */
  ghost predicate Ordered(ss: seq<State>, steps: seq<Step>, k: nat, id: ActionId, job: Job) {
    k < |steps| <= |ss| && steps[k] == Arrive(id, job) && job.client in ss[k].grants
  }

  lemma RunAdvance(cfg: Config, ss: seq<State>, steps: seq<Step>, i: nat)
    requires IsRun(cfg, ss, steps) && i < |steps|
    ensures Advances(ss[i], ss[i + 1]) && StartMinted(ss[i], ss[i + 1])
  {
    RunStep(cfg, ss, steps, i);
    Reachable(cfg, ss, steps, i);
    StepAdvances(cfg, ss[i], steps[i]);
  }

  lemma RunKeepsAct(cfg: Config, ss: seq<State>, steps: seq<Step>, i: nat, id: ActionId)
    requires IsRun(cfg, ss, steps) && i < |steps| && id in ss[i].acts
    ensures id in ss[i + 1].acts && ss[i + 1].acts[id].job == ss[i].acts[id].job
    ensures Successor(ss[i].acts[id].stage, ss[i + 1].acts[id].stage)
  {
    RunAdvance(cfg, ss, steps, i);
  }

  lemma RunArrival(cfg: Config, ss: seq<State>, steps: seq<Step>, i: nat, id: ActionId)
    requires IsRun(cfg, ss, steps) && i < |steps| && id in ss[i + 1].acts && id !in ss[i].acts
    ensures Ordered(ss, steps, i, id, ss[i + 1].acts[id].job)
    ensures ss[i + 1].acts[id].stage == Minted(ss[i].grants[ss[i + 1].acts[id].job.client])
  {
    RunStep(cfg, ss, steps, i);
    NewcomerArrives(cfg, ss[i], steps[i], id);
  }

  /** At point i + 1 the action is as it was, or has arrived in step i, or has moved on from its arrival. */
  ghost predicate Traced(ss: seq<State>, steps: seq<Step>, i: nat, id: ActionId)
    requires i < |steps| && |ss| == |steps| + 1
  {
    id in ss[i + 1].acts ==>
      var b := ss[i + 1].acts[id];
      if id in ss[i].acts then b.job == ss[i].acts[id].job && (b.stage.Minted? ==> b == ss[i].acts[id])
      else Ordered(ss, steps, i, id, b.job) && b.stage == Minted(ss[i].grants[b.job.client])
  }

  lemma RunTraced(cfg: Config, ss: seq<State>, steps: seq<Step>, i: nat, id: ActionId)
    requires IsRun(cfg, ss, steps) && i < |steps|
    ensures Traced(ss, steps, i, id)
  {
    if id in ss[i].acts {
      RunKeepsAct(cfg, ss, steps, i, id);
    } else if id in ss[i + 1].acts {
      RunArrival(cfg, ss, steps, i, id);
    }
  }

  lemma {:induction false} TraceBack(ss: seq<State>, steps: seq<Step>, i: nat, id: ActionId) returns (k: nat)
    requires |ss| == |steps| + 1 && i < |ss| && id !in ss[0].acts && id in ss[i].acts
    requires forall n :: 0 <= n < |steps| ==> Traced(ss, steps, n, id)
    ensures k < i && Ordered(ss, steps, k, id, ss[i].acts[id].job)
    ensures ss[i].acts[id].stage.Minted? ==> ss[i].acts[id].stage.limit == ss[k].grants[ss[i].acts[id].job.client]
  {
    assert Traced(ss, steps, i - 1, id);
    if id in ss[i - 1].acts {
      k := TraceBack(ss, steps, i - 1, id);
    } else {
      k := i - 1;
    }
  }

  lemma WasOrdered(cfg: Config, ss: seq<State>, steps: seq<Step>, i: nat, id: ActionId) returns (k: nat)
    requires IsRun(cfg, ss, steps) && i < |ss| && id in ss[i].acts
    ensures k < i && Ordered(ss, steps, k, id, ss[i].acts[id].job)
    ensures ss[i].acts[id].stage.Minted? ==> ss[i].acts[id].stage.limit == ss[k].grants[ss[i].acts[id].job.client]
  {
    forall n | 0 <= n < |steps| ensures Traced(ss, steps, n, id) {
      RunTraced(cfg, ss, steps, n, id);
    }
    k := TraceBack(ss, steps, i, id);
  }

  // ---------- what the order handler read ----------

  /** The session is the same at every point after m up to j: the lock was not let go of. */
  ghost predicate HeldSince(ss: seq<State>, m: nat, j: nat, n: Session) {
    m < j < |ss| && forall i :: m < i <= j ==> ss[i].session == n
  }

  lemma HeldOn(ss: seq<State>, m: nat, j: nat, n: Session)
    requires HeldSince(ss, m, j, n) && j + 1 < |ss| && ss[j + 1].session == n
    ensures HeldSince(ss, m, j + 1, n)
  {}

  lemma SweepReads(cfg: Config, s: State)
    requires Enabled(cfg, s, Swept)
    ensures !AfterSweep(cfg, s).session.Budget?
    ensures AfterSweep(cfg, s).session.Reserving? ==>
              var id := AfterSweep(cfg, s).session.id;
              && s.session.k == ThenApprove(id) && Q.Has(s.queue, id)
              && Q.Find(s.queue, id).job.client in s.grants
              && AfterSweep(cfg, s).session.limit == s.grants[Q.Find(s.queue, id).job.client]
  {}

  lemma BudgetStep(cfg: Config, s: State, step: Step)
    requires Enabled(cfg, s, step) && Next(cfg, s, step).session.Budget?
    ensures var n := Next(cfg, s, step).session;
            n == s.session ||
            (step == ReadBudget(n.id) && n.id in s.acts && s.acts[n.id].stage == Minted(n.limit)
             && n.used == UsedNow(cfg, s, s.acts[n.id].job.client))
  {
    if step.Swept? { SweepReads(cfg, s); }
  }

  lemma {:induction false} BudgetWasRead(cfg: Config, ss: seq<State>, steps: seq<Step>, i: nat) returns (m: nat)
    requires IsRun(cfg, ss, steps) && i < |ss| && ss[i].session.Budget?
    ensures var n := ss[i].session;
            && HeldSince(ss, m, i, n) && steps[m] == ReadBudget(n.id)
            && n.id in ss[m].acts && ss[m].acts[n.id].stage == Minted(n.limit)
            && n.used == UsedNow(cfg, ss[m], ss[m].acts[n.id].job.client)
  {
    assert i > 0;
    RunStep(cfg, ss, steps, i - 1);
    BudgetStep(cfg, ss[i - 1], steps[i - 1]);
    if ss[i].session == ss[i - 1].session {
      m := BudgetWasRead(cfg, ss, steps, i - 1);
      HeldOn(ss, m, i - 1, ss[i].session);
    } else {
      m := i - 1;
    }
  }

  // ---------- what the approval read ----------

  lemma ReservingStep(cfg: Config, s: State, step: Step)
    requires QueueOk(cfg, s) && Enabled(cfg, s, step) && Next(cfg, s, step).session.Reserving?
    ensures var n := Next(cfg, s, step).session;
            n == s.session ||
            (ApprovesWithGrant(s, step, n.id) && n.limit == s.grants[s.acts[n.id].job.client])
  {
    if step.Swept? { SweepReads(cfg, s); }
  }

  lemma RunReserving(cfg: Config, ss: seq<State>, steps: seq<Step>, i: nat)
    requires IsRun(cfg, ss, steps) && i < |steps| && ss[i + 1].session.Reserving?
    ensures var n := ss[i + 1].session;
            n == ss[i].session ||
            (ApprovesWithGrant(ss[i], steps[i], n.id) && n.limit == ss[i].grants[ss[i].acts[n.id].job.client])
  {
    RunStep(cfg, ss, steps, i);
    assert QueueOk(cfg, ss[i]) by { Reachable(cfg, ss, steps, i); }
    ReservingStep(cfg, ss[i], steps[i]);
  }

  lemma {:induction false} ApprovalWasTaken(cfg: Config, ss: seq<State>, steps: seq<Step>, i: nat) returns (m: nat)
    requires IsRun(cfg, ss, steps) && i < |ss| && ss[i].session.Reserving?
    ensures var n := ss[i].session;
            && HeldSince(ss, m, i, n) && ApprovesWithGrant(ss[m], steps[m], n.id)
            && n.limit == ss[m].grants[ss[m].acts[n.id].job.client]
  {
    assert i > 0;
    RunReserving(cfg, ss, steps, i - 1);
    if ss[i].session == ss[i - 1].session {
      m := ApprovalWasTaken(cfg, ss, steps, i - 1);
      HeldOn(ss, m, i - 1, ss[i].session);
    } else {
      m := i - 1;
    }
  }

  // ---------- the reservation ----------

  /** Step j reserves the action: the order handler's own reservation, or an approval's. */
  ghost predicate Reserves(cfg: Config, s: State, step: Step, id: ActionId, st: Stage)
    requires st.InFlight?
  {
    && id in s.acts
    && if st.byHuman then
         step.ReserveApproved? && s.session == Reserving(id, st.limit)
         && st.used == UsedNow(cfg, s, s.acts[id].job.client)
       else step.Reserve? && s.session == Budget(id, st.limit, st.used)
  }

  lemma SweepStartsNoFlight(cfg: Config, s: State, id: ActionId)
    requires Enabled(cfg, s, Swept) && id in s.acts && !s.acts[id].stage.InFlight? && id in AfterSweep(cfg, s).acts
    ensures !AfterSweep(cfg, s).acts[id].stage.InFlight?
  {}

  lemma FlightStarts(cfg: Config, s: State, step: Step, id: ActionId)
    requires Enabled(cfg, s, step) && id in s.acts && !s.acts[id].stage.InFlight?
    requires id in Next(cfg, s, step).acts && Next(cfg, s, step).acts[id].stage.InFlight?
    ensures Reserves(cfg, s, step, id, Next(cfg, s, step).acts[id].stage)
  {
    if step.Swept? { SweepStartsNoFlight(cfg, s, id); }
  }

  /** An action in flight at point i + 1 was so before, with the same readings, or was reserved in step i. */
  ghost predicate FlightTraced(cfg: Config, ss: seq<State>, steps: seq<Step>, i: nat, id: ActionId)
    requires i < |steps| && |ss| == |steps| + 1
  {
    id in ss[i + 1].acts && ss[i + 1].acts[id].stage.InFlight? ==>
      var b := ss[i + 1].acts[id];
      && id in ss[i].acts && b.job == ss[i].acts[id].job
      && if ss[i].acts[id].stage.InFlight? then SameReadings(ss[i].acts[id].stage, b.stage)
         else Reserves(cfg, ss[i], steps[i], id, b.stage)
  }

  predicate SameReadings(a: Stage, b: Stage) {
    a.InFlight? && b.InFlight? && a.byHuman == b.byHuman && a.limit == b.limit && a.used == b.used
  }

  lemma RunFlightTraced(cfg: Config, ss: seq<State>, steps: seq<Step>, i: nat, id: ActionId)
    requires IsRun(cfg, ss, steps) && i < |steps|
    ensures FlightTraced(cfg, ss, steps, i, id)
  {
    if id in ss[i].acts {
      RunKeepsAct(cfg, ss, steps, i, id);
      if ss[i + 1].acts[id].stage.InFlight? && !ss[i].acts[id].stage.InFlight? {
        RunStep(cfg, ss, steps, i);
        FlightStarts(cfg, ss[i], steps[i], id);
      }
    } else if id in ss[i + 1].acts {
      RunArrival(cfg, ss, steps, i, id);
    }
  }

  lemma {:induction false} FlightBack(
    cfg: Config, ss: seq<State>, steps: seq<Step>, i: nat, id: ActionId) returns (j: nat)
    requires |ss| == |steps| + 1 && i < |ss| && id !in ss[0].acts && id in ss[i].acts && ss[i].acts[id].stage.InFlight?
    requires forall n :: 0 <= n < |steps| ==> FlightTraced(cfg, ss, steps, n, id)
    ensures j < i && Reserves(cfg, ss[j], steps[j], id, ss[i].acts[id].stage)
    ensures ss[j].acts[id].job == ss[i].acts[id].job
  {
    assert FlightTraced(cfg, ss, steps, i - 1, id);
    if ss[i - 1].acts[id].stage.InFlight? {
      j := FlightBack(cfg, ss, steps, i - 1, id);
    } else {
      j := i - 1;
    }
  }

  lemma WasReserved(cfg: Config, ss: seq<State>, steps: seq<Step>, i: nat, id: ActionId) returns (j: nat)
    requires IsRun(cfg, ss, steps) && i < |ss| && id in ss[i].acts && ss[i].acts[id].stage.InFlight?
    ensures j < i && Reserves(cfg, ss[j], steps[j], id, ss[i].acts[id].stage)
    ensures ss[j].acts[id].job == ss[i].acts[id].job
  {
    forall n | 0 <= n < |steps| ensures FlightTraced(cfg, ss, steps, n, id) {
      RunFlightTraced(cfg, ss, steps, n, id);
    }
    j := FlightBack(cfg, ss, steps, i, id);
  }

  // ---------- the envelope ----------

  /** The envelope names the action and carries the order that arrived at step k. */
  ghost predicate CarriesOrder(ss: seq<State>, steps: seq<Step>, k: nat, id: ActionId, e: W.Envelope) {
    && k < |steps| <= |ss| && steps[k].Arrive? && steps[k].id == id
    && e.id == id && e.actionType == "order.place" && e.client == steps[k].job.client
    && e.payload.item == steps[k].job.item && e.payload.quantity == steps[k].job.quantity
    && e.payload.amount == steps[k].job.amount
  }

  /** No human is named; the limit was read when the order arrived, the usage under the lock that reserved it. */
  ghost predicate OnItsOwn(
    cfg: Config, ss: seq<State>, steps: seq<Step>, k: nat, m: nat, j: nat, id: ActionId, e: W.Envelope)
  {
    && k < m < j < |steps| <= |ss| && e.client in ss[k].grants
    && e.mandate.mode.WithinMandate? && e.mandate.approvedBy.None?
    && e.mandate.limit == ss[k].grants[e.client]
    && steps[m] == ReadBudget(id) && e.mandate.used == UsedNow(cfg, ss[m], e.client)
    && steps[j].Reserve? && HeldSince(ss, m, j, Budget(id, e.mandate.limit, e.mandate.used))
  }

  /** The admin is named; the limit was read as the entry was taken out, the usage just before its own reservation. */
  ghost predicate ByAHuman(
    cfg: Config, ss: seq<State>, steps: seq<Step>, k: nat, m: nat, j: nat, id: ActionId, e: W.Envelope)
  {
    && k < m < j < |steps| <= |ss|
    && e.mandate.mode.ApprovedByHuman? && e.mandate.approvedBy == Some("admin")
    && ApprovesWithGrant(ss[m], steps[m], id) && e.client in ss[m].grants
    && e.mandate.limit == ss[m].grants[e.client]
    && steps[j].ReserveApproved? && HeldSince(ss, m, j, Reserving(id, e.mandate.limit))
    && e.mandate.used == UsedNow(cfg, ss[j], e.client)
  }

  /**
   Every envelope a handoff sends carries the order as it arrived, says who decided, and states the limit and usage
   that were read for exactly this decision.
   */
  lemma EnvelopeTellsTruth(
    cfg: Config, ss: seq<State>, steps: seq<Step>, i: nat, id: ActionId, at: Time) returns (k: nat, m: nat, j: nat)
    requires IsRun(cfg, ss, steps) && i < |ss| && id in ss[i].acts && ss[i].acts[id].stage.InFlight?
    ensures var a := ss[i].acts[id];
            var e := W.BuildEnvelope(id, a.job, a.stage.byHuman, a.stage.limit, a.stage.used, cfg.window, at);
            && j < i && CarriesOrder(ss, steps, k, id, e)
            && (OnItsOwn(cfg, ss, steps, k, m, j, id, e) || ByAHuman(cfg, ss, steps, k, m, j, id, e))
            && e.requestedAt == at && e.mandate.window == cfg.window
            && e.mandate.remaining >= 0 && e.mandate.remaining >= e.mandate.limit - e.mandate.used
            && (e.mandate.remaining == 0 || e.mandate.remaining == e.mandate.limit - e.mandate.used)
  {
    j := WasReserved(cfg, ss, steps, i, id);
    if ss[i].acts[id].stage.byHuman {
      m := ApprovalWasTaken(cfg, ss, steps, j);
    } else {
      m := BudgetWasRead(cfg, ss, steps, j);
    }
    k := WasOrdered(cfg, ss, steps, m, id);
    RunAdvances(cfg, ss, steps);
    JobStays(ss, m, i, id);
  }

  lemma {:induction false} JobStays(ss: seq<State>, m: nat, i: nat, id: ActionId)
    requires AlwaysAdvances(ss) && m <= i < |ss| && id in ss[m].acts
    ensures id in ss[i].acts && ss[i].acts[id].job == ss[m].acts[id].job
  {
    if m < i {
      JobStays(ss, m, i - 1, id);
      assert Advances(ss[i - 1], ss[i]);
    }
  }

  // ---------- the human is named exactly when there was one ----------

  lemma ApprovalApproves(cfg: Config, s: State, step: Step, id: ActionId)
    requires QueueOk(cfg, s) && Enabled(cfg, s, step) && ApprovesWithGrant(s, step, id)
    ensures id in Next(cfg, s, step).acts
    ensures Next(cfg, s, step).acts[id].stage == Approved(s.grants[s.acts[id].job.client])
  {
    var p := Q.Find(s.queue, id);
    assert p.job == s.acts[id].job;
  }

  lemma RunApproves(cfg: Config, ss: seq<State>, steps: seq<Step>, m: nat, id: ActionId)
    requires IsRun(cfg, ss, steps) && m < |steps| && ApprovesWithGrant(ss[m], steps[m], id)
    ensures id in ss[m + 1].acts && ss[m + 1].acts[id].stage.Approved?
  {
    RunStep(cfg, ss, steps, m);
    assert QueueOk(cfg, ss[m]) by { Reachable(cfg, ss, steps, m); }
    ApprovalApproves(cfg, ss[m], steps[m], id);
  }

  /** The envelope names a human if and only if an approval took the action out of the queue before. */
  lemma HumanIsNamedIff(cfg: Config, ss: seq<State>, steps: seq<Step>, i: nat, id: ActionId, at: Time)
    requires IsRun(cfg, ss, steps) && i < |ss| && id in ss[i].acts && ss[i].acts[id].stage.InFlight?
    ensures var a := ss[i].acts[id];
            var e := W.BuildEnvelope(id, a.job, a.stage.byHuman, a.stage.limit, a.stage.used, cfg.window, at);
            && (e.mandate.mode.ApprovedByHuman? <==> e.mandate.approvedBy == Some("admin"))
            && (e.mandate.approvedBy.Some? <==> exists m :: 0 <= m < i && ApprovesWithGrant(ss[m], steps[m], id))
  {
    if ss[i].acts[id].stage.byHuman {
      ApprovedUnderGrant(cfg, ss, steps, i, id);
    } else if m :| 0 <= m < i && ApprovesWithGrant(ss[m], steps[m], id) {
      RunApproves(cfg, ss, steps, m, id);
      FateIsFinal(cfg, ss, steps, m + 1, i, id);
      assert false;
    }
  }
}
