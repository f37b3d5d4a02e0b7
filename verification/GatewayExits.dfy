/**
 Why an action leaves the queue: each fate over a run is tied to the step, the clock, the grant or the request
 behind it.
 */
module GatewayExits {
  import opened Common
  import opened Gateway
  import opened GatewayInvariant
  import opened GatewaySteps
  import opened GatewayLifecycle
  import Q = Queue

  /** The step from s to t that takes `id` out of the queue has the cause its fate names. */
  ghost predicate Caused(s: State, step: Step, t: State, id: ActionId) {
    && id in s.acts && id in t.acts && Q.Has(s.queue, id)
    && var p, c, n := Q.Find(s.queue, id), s.acts[id].job.client, s.session;
       match t.acts[id].stage
       case Popped(TimedOut) => step.PopOverdue? && n.Expiring? && p.expiresAt < n.since <= s.now
       case Popped(Purged) => step.PopPurged? && n.Purging? && n.client == c
       case Popped(ApprovalRefused) => step.Swept? && n.Expiring? && n.k == ThenApprove(id) && c !in s.grants
       case Popped(Declined) => step.Swept? && n.Expiring? && n.k == ThenReject(id)
       case Approved(limit) =>
         step.Swept? && n.Expiring? && n.k == ThenApprove(id) && c in s.grants && limit == s.grants[c]
       case _ => false
  }

  // ---------- which steps touch the queue ----------

  lemma OtherStepsKeepQueue(cfg: Config, s: State, step: Step)
    requires Enabled(cfg, s, step) && !step.PopOverdue? && !step.PopPurged? && !step.Swept?
    ensures Next(cfg, s, step).queue == s.queue
  {}

  lemma PopTakesHead(cfg: Config, s: State, x: ActionId, id: ActionId)
    requires QueueOk(cfg, s) && Q.Has(s.queue, id) && !Q.Has(Q.Without(s.queue, x), id)
    ensures id == x
  {
    Q.WithoutMembers(s.queue, x);
    var p := Q.Find(s.queue, id);
    assert p.id != x ==> p in Q.Without(s.queue, x);
  }

  lemma OverdueIsCaused(cfg: Config, s: State, id: ActionId)
    requires QueueOk(cfg, s) && SessionOk(s) && Enabled(cfg, s, PopOverdue)
    requires Q.Has(s.queue, id) && !Q.Has(OverduePopped(s).queue, id)
    ensures Caused(s, PopOverdue, OverduePopped(s), id)
  {
    PopTakesHead(cfg, s, s.session.todo[0], id);
    var p := Q.Find(s.queue, id);
    assert p.id in s.session.todo && Q.IsOverdue(p, s.session.since);
  }

  lemma PurgeIsCaused(cfg: Config, s: State, id: ActionId)
    requires QueueOk(cfg, s) && SessionOk(s) && Enabled(cfg, s, PopPurged)
    requires Q.Has(s.queue, id) && !Q.Has(PurgedPopped(s).queue, id)
    ensures Caused(s, PopPurged, PurgedPopped(s), id)
  {
    PopTakesHead(cfg, s, s.session.todo[0], id);
    var p := Q.Find(s.queue, id);
    assert p.id in s.session.todo && p.job.client == s.session.client && p.job == s.acts[p.id].job;
  }

  lemma QueueingTakesNothing(cfg: Config, s: State, id: ActionId)
    requires Enabled(cfg, s, Swept) && s.session.k.ThenQueue? && Q.Has(s.queue, id)
    ensures Q.Has(AfterSweep(cfg, s).queue, id)
  {
    var p := Q.Find(s.queue, id);
    assert p in QueueTried(cfg, s).queue;
  }

  lemma DecisionIsCaused(cfg: Config, s: State, id: ActionId)
    requires QueueOk(cfg, s) && Enabled(cfg, s, Swept) && !s.session.k.ThenQueue?
    requires Q.Has(s.queue, id) && !Q.Has(AfterSweep(cfg, s).queue, id)
    ensures Caused(s, Swept, AfterSweep(cfg, s), id)
  {
    var p, k := Q.Find(s.queue, id), s.session.k;
    assert p.job == s.acts[id].job;
    match k {
      case ThenApprove(x) => if Q.Has(s.queue, x) { PopTakesHead(cfg, s, x, id); }
      case ThenReject(x) => if Q.Has(s.queue, x) { PopTakesHead(cfg, s, x, id); }
      case _ =>
    }
  }

  lemma LeavingStep(cfg: Config, s: State, step: Step, id: ActionId)
    requires QueueOk(cfg, s) && SessionOk(s) && Enabled(cfg, s, step)
    requires Q.Has(s.queue, id) && !Q.Has(Next(cfg, s, step).queue, id)
    ensures Caused(s, step, Next(cfg, s, step), id)
  {
    if step.PopOverdue? {
      OverdueIsCaused(cfg, s, id);
    } else if step.PopPurged? {
      PurgeIsCaused(cfg, s, id);
    } else if step.Swept? {
      if s.session.k.ThenQueue? {
        QueueingTakesNothing(cfg, s, id);
      } else {
        DecisionIsCaused(cfg, s, id);
      }
    } else {
      OtherStepsKeepQueue(cfg, s, step);
    }
  }

  /**
   Over any run, what leaves the queue leaves for the reason its fate says: it expires only if it was overdue when
   the running sweep began; it is purged only while its own client is being revoked; its approval is refused only
   if its client holds no grant at that step, and granted only if it does; it is declined only by a rejection of
   that very action.
   */
  lemma LeavingHasCause(cfg: Config, ss: seq<State>, steps: seq<Step>, i: nat, id: ActionId)
    requires IsRun(cfg, ss, steps) && i < |steps|
    requires Q.Has(ss[i].queue, id) && !Q.Has(ss[i + 1].queue, id)
    ensures Caused(ss[i], steps[i], ss[i + 1], id)
  {
    RunStep(cfg, ss, steps, i);
    assert QueueOk(cfg, ss[i]) && SessionOk(ss[i]) by { Reachable(cfg, ss, steps, i); }
    LeavingStep(cfg, ss[i], steps[i], id);
  }

  // ---------- who asked ----------

  /** What the lock holder is there for. */
  function Intent(n: Session): After {
    match n
    case Expiring(_, _, k) => k
    case Noting(_, _, _, _, k) => k
    case Resolving(_, _, _, _, k) => k
    case Purging(_, _, c) => ThenRevoke(c)
    case _ => ThenNothing
  }

  predicate Starts(step: Step, k: After) {
    match k
    case ThenApprove(id) => step == StartApprove(id)
    case ThenReject(id) => step == StartReject(id)
    case ThenRevoke(c) => step == StartRevoke(c)
    case _ => false
  }

  predicate FromOutside(k: After) { k.ThenApprove? || k.ThenReject? || k.ThenRevoke? }

  lemma SweptIntent(cfg: Config, s: State)
    requires Enabled(cfg, s, Swept) && FromOutside(Intent(AfterSweep(cfg, s).session))
    ensures Intent(AfterSweep(cfg, s).session) == Intent(s.session)
  {}

  lemma ResolvedIntent(cfg: Config, s: State)
    requires SessionOk(s) && Enabled(cfg, s, Resolve) && FromOutside(Intent(ExitResolved(cfg, s).session))
    ensures Intent(ExitResolved(cfg, s).session) == Intent(s.session)
  {}

  lemma IntentStep(cfg: Config, s: State, step: Step)
    requires SessionOk(s) && Enabled(cfg, s, step) && FromOutside(Intent(Next(cfg, s, step).session))
    ensures Intent(Next(cfg, s, step).session) == Intent(s.session) || Starts(step, Intent(Next(cfg, s, step).session))
  {
    if step.Swept? {
      SweptIntent(cfg, s);
    } else if step.Resolve? {
      ResolvedIntent(cfg, s);
    }
  }

  ghost predicate Serving(ss: seq<State>, m: nat, i: nat, k: After)
    requires m <= i < |ss|
  {
    forall n :: m < n <= i ==> Intent(ss[n].session) == k
  }

  lemma ServingOn(ss: seq<State>, m: nat, i: nat, k: After)
    requires m < i < |ss| && Serving(ss, m, i - 1, k) && Intent(ss[i].session) == k
    ensures Serving(ss, m, i, k)
  {}

  lemma LastIntent(cfg: Config, ss: seq<State>, steps: seq<Step>, i: nat)
    requires IsRun(cfg, ss, steps) && i < |steps| && FromOutside(Intent(ss[i + 1].session))
    ensures Intent(ss[i].session) == Intent(ss[i + 1].session) || Starts(steps[i], Intent(ss[i + 1].session))
  {
    RunStep(cfg, ss, steps, i);
    assert SessionOk(ss[i]) by { Reachable(cfg, ss, steps, i); }
    IntentStep(cfg, ss[i], steps[i]);
  }

  /** An approval, rejection or revocation in progress was asked for, and has been served ever since. */
  lemma {:induction false} IntentWasAsked(cfg: Config, ss: seq<State>, steps: seq<Step>, i: nat)
    requires IsRun(cfg, ss, steps) && i < |ss| && FromOutside(Intent(ss[i].session))
    ensures exists m ::
              0 <= m < i && Starts(steps[m], Intent(ss[i].session)) && Serving(ss, m, i, Intent(ss[i].session))
  {
    var k := Intent(ss[i].session);
    LastIntent(cfg, ss, steps, i - 1);
    if Starts(steps[i - 1], k) {
      assert Serving(ss, i - 1, i, k);
    } else {
      IntentWasAsked(cfg, ss, steps, i - 1);
      var m :| 0 <= m < i - 1 && Starts(steps[m], k) && Serving(ss, m, i - 1, k);
      ServingOn(ss, m, i, k);
    }
  }

  // ---------- a revocation and the others ----------

  /** The lock holder is revoking c, in a sweep begun at `since`. */
  predicate Revoking(n: Session, since: Time, c: ClientId) {
    match n
    case Expiring(_, t, k) => t == since && k == ThenRevoke(c)
    case Noting(_, e, _, t, k) => t == since && k == ThenRevoke(c) && (e.TimedOut? || e.Purged?)
    case Resolving(_, e, _, t, k) => t == since && k == ThenRevoke(c) && (e.TimedOut? || e.Purged?)
    case Purging(_, t, d) => t == since && d == c
    case _ => false
  }

  lemma RevokingLockedStep(cfg: Config, s: State, step: Step, since: Time, c: ClientId)
    requires Enabled(cfg, s, step) && HoldsLock(step) && Revoking(s.session, since, c)
    ensures step.EndPurge? || Revoking(Next(cfg, s, step).session, since, c)
  {}

  lemma RevokingFreeStep(cfg: Config, s: State, step: Step, since: Time, c: ClientId)
    requires Enabled(cfg, s, step) && !HoldsLock(step) && Revoking(s.session, since, c)
    ensures Next(cfg, s, step).session == s.session
  {}

  lemma OthersStay(cfg: Config, s: State, step: Step, since: Time, c: ClientId, p: Q.Pending)
    requires QueueOk(cfg, s) && SessionOk(s) && Enabled(cfg, s, step) && Revoking(s.session, since, c)
    requires p in s.queue && p.job.client != c && !Q.IsOverdue(p, since)
    ensures p in Next(cfg, s, step).queue
  {
    if step.PopOverdue? || step.PopPurged? {
      Q.WithoutMembers(s.queue, s.session.todo[0]);
      assert p.id != s.session.todo[0] by { assert p.id !in s.session.todo; }
    } else if step.Swept? {
    } else {
      OtherStepsKeepQueue(cfg, s, step);
    }
  }

  /** A revocation, from its request to its end, leaves every other client's live entries in the queue. */
  lemma {:induction false} RevocationSparesOthers(
    cfg: Config, ss: seq<State>, steps: seq<Step>, i: nat, j: nat, c: ClientId, p: Q.Pending)
    requires IsRun(cfg, ss, steps) && i < j < |ss| && steps[i] == StartRevoke(c)
    requires forall k :: i < k < j - 1 ==> !steps[k].EndPurge?
    requires p in ss[i].queue && p.job.client != c && !Q.IsOverdue(p, ss[i].now)
    ensures p in ss[j].queue
    ensures steps[j - 1].EndPurge? || Revoking(ss[j].session, ss[i].now, c)
  {
    RunStep(cfg, ss, steps, j - 1);
    if j > i + 1 {
      RevocationSparesOthers(cfg, ss, steps, i, j - 1, c, p);
      var s, step := ss[j - 1], steps[j - 1];
      assert j - 1 > i + 1 ==> !steps[j - 2].EndPurge?;
      assert QueueOk(cfg, s) && SessionOk(s) by { Reachable(cfg, ss, steps, j - 1); }
      OthersStay(cfg, s, step, ss[i].now, c, p);
      if HoldsLock(step) {
        RevokingLockedStep(cfg, s, step, ss[i].now, c);
      } else {
        RevokingFreeStep(cfg, s, step, ss[i].now, c);
      }
    }
  }
}
