/** The lock is never stuck: its holder can always move, and lets go after a bounded number of its own steps. */
module GatewayLock {
  import opened Common
  import opened Playing
  import opened Gateway
  import opened GatewayInvariant
  import opened GatewaySteps
  import opened GatewayLifecycle
  import GR = GatewayRuns
  import Q = Queue

  /** The step that the lock holder takes next. */
  function LockStep(s: State): Step
    requires !s.session.Free?
    requires s.session.Budget? ==> s.session.id in s.acts
  {
    match s.session
    case Budget(id, limit, used) => if used + s.acts[id].job.amount <= limit then Reserve else ExceedMandate
    case Expiring(todo, _, _) => if todo != [] then PopOverdue else Swept
    case Noting(_, _, _, _, _) => Note
    case Resolving(_, _, _, _, _) => Resolve
    case Listing(_, _, _) => List
    case Announcing(_) => Announce
    case Reserving(_, _) => ReserveApproved
    case Purging(todo, _, _) => if todo != [] then PopPurged else EndPurge
  }

  /** How many steps are left once the overdue entries are gone, with q entries in the queue. */
  function AfterSteps(k: After, q: nat): nat {
    match k
    case ThenNothing => 1
    case ThenRevoke(_) => 3 * q + 2
    case _ => 3
  }

  /** How many steps are left once this exit is written down. */
  function ExitSteps(exit: Exit, todo: seq<ActionId>, k: After, q: nat): nat {
    if exit.TimedOut? then 3 * |todo| + AfterSteps(k, q)
    else if exit.Purged? && k.ThenRevoke? then 3 * |todo| + 1
    else 0
  }

  /** At most so many steps until the lock is free. */
  function StepsLeft(s: State): nat {
    match s.session
    case Free => 0
    case Budget(_, _, _) => 3 * |s.queue| + 4
    case Expiring(todo, _, k) => 3 * |todo| + AfterSteps(k, |s.queue|)
    case Noting(_, exit, todo, _, k) => 2 + ExitSteps(exit, todo, k, |s.queue|)
    case Resolving(_, exit, todo, _, k) => 1 + ExitSteps(exit, todo, k, |s.queue|)
    case Listing(_, _, _) => 2
    case Announcing(_) => 1
    case Reserving(_, _) => 1
    case Purging(todo, _, _) => 3 * |todo| + 1
  }

  lemma {:induction false} OverdueIsShort(q: seq<Q.Pending>, now: Time)
    ensures |Q.Overdue(q, now)| <= |q|
  {
    if q != [] { OverdueIsShort(q[1..], now); }
  }

  lemma {:induction false} IdsAreFew(q: seq<Q.Pending>, c: ClientId)
    ensures |Q.IdsOf(q, c)| <= |q|
  {
    if q != [] { IdsAreFew(q[1..], c); }
  }

  lemma {:induction false} WithoutIsShorter(q: seq<Q.Pending>, id: ActionId)
    ensures |Q.Without(q, id)| <= |q|
  {
    if q != [] { WithoutIsShorter(q[1..], id); }
  }

  lemma PopsDescend(cfg: Config, s: State)
    requires QueueOk(cfg, s) && SessionOk(s) && (s.session.Expiring? || s.session.Purging?) && s.session.todo != []
    ensures Enabled(cfg, s, LockStep(s)) && StepsLeft(Next(cfg, s, LockStep(s))) < StepsLeft(s)
  {
    var x := s.session.todo[0];
    assert x in s.session.todo && Q.Has(s.queue, x);
    var p := Q.Find(s.queue, x);
    WithoutIsShorter(s.queue, x);
  }

  lemma SweptDescends(cfg: Config, s: State)
    requires QueueOk(cfg, s) && SessionOk(s) && s.session.Expiring? && s.session.todo == []
    ensures Enabled(cfg, s, Swept) && StepsLeft(AfterSweep(cfg, s)) < StepsLeft(s)
  {
    if s.session.k.ThenRevoke? { IdsAreFew(s.queue, s.session.k.client); }
  }

  lemma OthersDescend(cfg: Config, s: State)
    requires SessionOk(s) && !s.session.Free? && !s.session.Expiring? && !s.session.Budget?
    requires s.session.Purging? ==> s.session.todo == []
    ensures Enabled(cfg, s, LockStep(s)) && StepsLeft(Next(cfg, s, LockStep(s))) < StepsLeft(s)
  {}

  lemma BudgetDescends(cfg: Config, s: State)
    requires SessionOk(s) && s.session.Budget?
    ensures Enabled(cfg, s, LockStep(s)) && StepsLeft(Next(cfg, s, LockStep(s))) < StepsLeft(s)
  {
    OverdueIsShort(s.queue, s.now);
  }

  /** Whoever holds the lock can move, and each move brings the release nearer. */
  lemma LockHolderMoves(cfg: Config, s: State)
    requires QueueOk(cfg, s) && SessionOk(s) && !s.session.Free?
    ensures Enabled(cfg, s, LockStep(s)) && HoldsLock(LockStep(s))
    ensures StepsLeft(Next(cfg, s, LockStep(s))) < StepsLeft(s)
  {
    if (s.session.Expiring? || s.session.Purging?) && s.session.todo != [] {
      PopsDescend(cfg, s);
    } else if s.session.Expiring? {
      SweptDescends(cfg, s);
    } else if s.session.Budget? {
      BudgetDescends(cfg, s);
    } else {
      OthersDescend(cfg, s);
    }
  }

  lemma {:induction false} LockIsReleased(cfg: Config, s: State) returns (steps: seq<Step>)
    requires Inv(cfg, s)
    ensures |steps| <= StepsLeft(s) && forall step :: step in steps ==> HoldsLock(step)
    ensures Play(GR.Moves(cfg), s, steps).Some? && Play(GR.Moves(cfg), s, steps).value.session.Free?
    decreases StepsLeft(s)
  {
    steps := [];
    if !s.session.Free? {
      var step := LockStep(s);
      assert Enabled(cfg, s, step) && HoldsLock(step) && StepsLeft(Next(cfg, s, step)) < StepsLeft(s) by {
        LockHolderMoves(cfg, s);
      }
      StepKeeps(cfg, s, step);
      var rest := LockIsReleased(cfg, Next(cfg, s, step));
      PlayFirst(GR.Moves(cfg), s, step, rest);
      steps := [step] + rest;
    }
  }

  /**
   In every run, from whatever step takes the lock, the lock is free again after at most six steps of its holder for
   each entry in the queue, and five more, whatever else waits.
   */
  lemma LockHoldersFinish(cfg: Config, ss: seq<State>, steps: seq<Step>, i: nat) returns (own: seq<Step>)
    requires IsRun(cfg, ss, steps) && i < |steps| && TakesLock(steps[i])
    ensures |own| <= 6 * |ss[i].queue| + 5 && forall step :: step in own ==> HoldsLock(step)
    ensures var end := Play(GR.Moves(cfg), ss[i + 1], own); end.Some? && end.value.session.Free?
  {
    Reachable(cfg, ss, steps, i + 1);
    OverdueIsShort(ss[i].queue, ss[i].now);
    own := LockIsReleased(cfg, ss[i + 1]);
    RunStep(cfg, ss, steps, i);
  }
}
