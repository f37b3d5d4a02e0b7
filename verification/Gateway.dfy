/**
 The Tier 3 gateway as a state machine. Each step is one call on the store (or one read of the clock or
 of a grant), so that the handlers interleave freely wherever they do not hold the lock. A handler's
 program counter is kept with its local state: in `session` while it holds the lock, and in the stage
 of the action it works on while it does not.
 */
module Gateway {
  import opened Common
  import opened Retention
  import opened Ledger
  import R = Resolutions
  import Q = Queue
  import W = Wire
  import H = Handoff

  datatype Config = Config(
    window: int, auditMax: nat,
    pendingTtl: int, pendingMax: nat,
    resolutionTtl: int, resolutionMax: nat)

  const GRANT_MAX: int := 10_000_000

  /** How an action leaves the approval queue other than by being approved. */
  datatype Exit = TimedOut | Purged | ApprovalRefused | Declined

  function ExitOutcome(e: Exit): Outcome { if e.TimedOut? then Expired else Rejected }

  function ExitReason(e: Exit): Reason {
    match e
    case TimedOut => ApprovalExpired
    case Purged => MandateRevoked
    case ApprovalRefused => RevokedWhilePending
    case Declined => RejectedByHuman
  }

  function ExitStatus(e: Exit): R.Status { if e.TimedOut? then R.Expired else R.Rejected }

  /** Where the handling of one action stands. */
  datatype Stage =
    | Minted(limit: int)                                              // grant read, lock not yet taken
    | Checked                                                         // the order handler holds the lock
    | QueueIsFull | TurnedAway                                        // refused, before and after the audit row
    | Admitted | Listed | Waiting                                     // queued; audited; announced
    | Popped(exit: Exit) | Noted(exit: Exit) | Left(exit: Exit)       // out of the queue; audited; resolved
    | Approved(limit: int)                                            // out of the queue, not yet reserved
    | InFlight(byHuman: bool, limit: int, used: int, retried: bool)   // reserved, handoff running
    | Answered(byHuman: bool, result: W.Result)                       // handoff returned
    | Settled(byHuman: bool, result: W.Result)                        // event settled
    | Finished(byHuman: bool, result: W.Result)                       // resolution written
    | Crashed(byHuman: bool)                                          // the handoff raised

  datatype Act = Act(job: Job, stage: Stage)

  /** What the lock holder does once the overdue entries are gone. */
  datatype After = ThenQueue(id: ActionId, limit: int, used: int) | ThenApprove(id: ActionId)
                 | ThenReject(id: ActionId) | ThenRevoke(client: ClientId) | ThenNothing

  /** The program counter of the handler that holds `tier3_lock`. */
  datatype Session =
    | Free
    | Budget(id: ActionId, limit: int, used: int)
    | Expiring(todo: seq<ActionId>, since: Time, k: After)
    | Noting(id: ActionId, exit: Exit, todo: seq<ActionId>, since: Time, k: After)
    | Resolving(id: ActionId, exit: Exit, todo: seq<ActionId>, since: Time, k: After)
    | Listing(id: ActionId, limit: int, used: int)
    | Announcing(id: ActionId)
    | Reserving(id: ActionId, limit: int)
    | Purging(todo: seq<ActionId>, since: Time, client: ClientId)

  /** `history` (every event ever recorded, settled alike) and `pruned` (the last prune's cutoff) are bookkeeping. */
  datatype State = State(
    now: Time, events: seq<Event>, history: seq<Event>, pruned: Time,
    queue: seq<Q.Pending>, resolutions: seq<R.Resolution>, grants: map<ClientId, int>,
    acts: map<ActionId, Act>, session: Session)

  datatype Step =
    | Tick(dt: Time)
    | PutGrant(client: ClientId, limit: int)
    | DenyUnknown(item: string, amount: int, reason: Reason)
    | DenyNoGrant(client: ClientId, item: string, amount: int)
    | Arrive(id: ActionId, job: Job)
    | ReadBudget(id: ActionId)
    | Reserve
    | ExceedMandate
    | StartApprove(id: ActionId) | StartReject(id: ActionId) | StartRevoke(client: ClientId) | StartSweep
    | PopOverdue | Note | Resolve | Swept
    | List | Announce
    | ReserveApproved
    | PopPurged | EndPurge
    | RefuseFull(id: ActionId)
    | Retry(id: ActionId)
    | Return(id: ActionId, outcome: H.Outcome)
    | SettleEvent(id: ActionId)
    | SettleResolution(id: ActionId)
    | Poll(id: ActionId)

  ghost predicate Init(cfg: Config, s: State) {
    && s.events == [] && s.history == [] && s.pruned <= s.now - cfg.window as real
    && s.queue == [] && s.resolutions == [] && s.grants == map[] && s.acts == map[] && s.session == Free
  }

  // ---------- the pieces of a step ----------

  function Cutoff(cfg: Config, s: State): Time { s.now - cfg.window as real }

  function EventNow(
    s: State, c: ClientId, item: string, amount: int, outcome: Outcome, reason: Reason, id: Option<ActionId>): Event {
    Row(c, s.now, Entry(item, amount, outcome, reason, None, id))
  }

  function ActEvent(s: State, id: ActionId, outcome: Outcome, reason: Reason): Event
    requires id in s.acts
  {
    var j := s.acts[id].job;
    EventNow(s, j.client, j.item, j.amount, outcome, reason, Some(id))
  }

  function Recorded(cfg: Config, s: State, e: Event): State {
    s.(events := Record(s.events, e, cfg.window as real, cfg.auditMax),
       history := s.history + [e], pruned := e.at - cfg.window as real)
  }

  function Resolved(
    cfg: Config, s: State, id: ActionId, status: R.Status, channel: Option<string>, order: Option<string>): State
    requires id in s.acts
  {
    var u := R.Update(id, s.acts[id].job.client, status, channel, order);
    s.(resolutions := R.Put(s.resolutions, u, s.now, cfg.resolutionTtl as real, cfg.resolutionMax))
  }

  function Staged(s: State, id: ActionId, stage: Stage): State
    requires id in s.acts
  {
    s.(acts := s.acts[id := s.acts[id].(stage := stage)])
  }

  function UsedNow(cfg: Config, s: State, c: ClientId): int { Used(s.events, c, Cutoff(cfg, s)) }

  function SettledOutcome(r: W.Result): Outcome {
    if r.Unknown? || (r.Ok? && r.executed) then Accepted else Rejected
  }

  function SettledReason(byHuman: bool, r: W.Result): Reason {
    Handoff(byHuman, match r
                     case Ok(executed, channel, decidedBy, _) =>
                       if executed then ExecutedVia(channel, decidedBy) else CouldNotExecute
                     case Down => AgentUnavailable
                     case Unknown => ExecutionUnknown)
  }

  function SettledOrder(r: W.Result): Option<string> {
    if r.Ok? && r.executed then r.reference else None
  }

  function SettledChannel(r: W.Result): Option<string> {
    if r.Ok? && r.executed then r.channel else None
  }

  function FinalStatus(r: W.Result): R.Status {
    match r
    case Ok(executed, _, _, _) => if executed then R.Executed else R.Failed
    case Down => R.Failed
    case Unknown => R.ExecutionUnknown
  }

  function Sweep(s: State, k: After): State {
    s.(session := Expiring(Q.Overdue(s.queue, s.now), s.now, k))
  }

  function Resume(exit: Exit, todo: seq<ActionId>, since: Time, k: After): Session {
    if exit.TimedOut? then Expiring(todo, since, k)
    else if exit.Purged? && k.ThenRevoke? then Purging(todo, since, k.client)
    else Free
  }

  // ---------- the order handler ----------

  function Denied(cfg: Config, s: State, c: ClientId, item: string, amount: int, reason: Reason): State {
    Recorded(cfg, s, EventNow(s, c, item, amount, Rejected, reason, None))
  }

  function BudgetRead(cfg: Config, s: State, id: ActionId): State
    requires id in s.acts && s.acts[id].stage.Minted?
  {
    var a := s.acts[id];
    Staged(s, id, Checked).(session := Budget(id, a.stage.limit, UsedNow(cfg, s, a.job.client)))
  }

  function Reserved(cfg: Config, s: State): State
    requires s.session.Budget? && s.session.id in s.acts
  {
    var n := s.session;
    Staged(Recorded(cfg, s, ActEvent(s, n.id, Accepted, Handoff(false, InProgress))),
           n.id, InFlight(false, n.limit, n.used, false)).(session := Free)
  }

  function QueuedUp(s: State, p: Q.Pending, n: Session): State
    requires p.id in s.acts
  {
    Staged(s, p.id, Admitted).(session := n, queue := s.queue + [p])
  }

  /** After the sweep: refuse when the client's queue is full, otherwise queue. */
  function QueueTried(cfg: Config, s: State): State
    requires s.session.Expiring? && s.session.k.ThenQueue? && s.session.k.id in s.acts
  {
    var k := s.session.k;
    var job := s.acts[k.id].job;
    if Q.CountFor(s.queue, job.client) >= cfg.pendingMax then Staged(s, k.id, QueueIsFull).(session := Free)
    else
      QueuedUp(s, Q.Pending(k.id, job, s.now, s.now + cfg.pendingTtl as real), Listing(k.id, k.limit, k.used))
  }

  function QueueReason(n: Session): Reason
    requires n.Listing?
  {
    OverMandate(if n.limit - n.used > 0 then n.limit - n.used else 0, n.limit)
  }

  function QueueListed(cfg: Config, s: State): State
    requires s.session.Listing? && s.session.id in s.acts
  {
    var n := s.session;
    Staged(Recorded(cfg, s, ActEvent(s, n.id, Queued, QueueReason(n))), n.id, Listed).(session := Announcing(n.id))
  }

  function Announced(cfg: Config, s: State): State
    requires s.session.Announcing? && s.session.id in s.acts
  {
    var id := s.session.id;
    Staged(Resolved(cfg, s, id, R.Queued, None, None), id, Waiting).(session := Free)
  }

  function FullRefused(cfg: Config, s: State, id: ActionId): State
    requires id in s.acts
  {
    Staged(Recorded(cfg, s, ActEvent(s, id, Rejected, QueueFull)), id, TurnedAway)
  }

  // ---------- leaving the queue ----------

  function Taken(s: State, id: ActionId, st: Stage, n: Session): State
    requires id in s.acts
  {
    Staged(s, id, st).(queue := Q.Without(s.queue, id), session := n)
  }

  function OverduePopped(s: State): State
    requires s.session.Expiring? && s.session.todo != [] && s.session.todo[0] in s.acts
  {
    var n := s.session;
    Taken(s, n.todo[0], Popped(TimedOut), Noting(n.todo[0], TimedOut, n.todo[1..], n.since, n.k))
  }

  function PurgedPopped(s: State): State
    requires s.session.Purging? && s.session.todo != [] && s.session.todo[0] in s.acts
  {
    var n := s.session;
    Taken(s, n.todo[0], Popped(Purged), Noting(n.todo[0], Purged, n.todo[1..], n.since, ThenRevoke(n.client)))
  }

  function ExitNoted(cfg: Config, s: State): State
    requires s.session.Noting? && s.session.id in s.acts
  {
    var n := s.session;
    Staged(Recorded(cfg, s, ActEvent(s, n.id, ExitOutcome(n.exit), ExitReason(n.exit))), n.id, Noted(n.exit))
      .(session := Resolving(n.id, n.exit, n.todo, n.since, n.k))
  }

  function ExitResolved(cfg: Config, s: State): State
    requires s.session.Resolving? && s.session.id in s.acts
  {
    var n := s.session;
    Staged(Resolved(cfg, s, n.id, ExitStatus(n.exit), None, None), n.id, Left(n.exit))
      .(session := Resume(n.exit, n.todo, n.since, n.k))
  }

  /** After the sweep: approving takes the entry out and looks at the client's grant again. */
  function ApprovalTaken(s: State): State
    requires s.session.Expiring? && s.session.k.ThenApprove?
    requires forall p :: p in s.queue ==> p.id in s.acts
  {
    var id, since := s.session.k.id, s.session.since;
    if !Q.Has(s.queue, id) then s.(session := Free)
    else
      var c := Q.Find(s.queue, id).job.client;
      if c in s.grants then Taken(s, id, Approved(s.grants[c]), Reserving(id, s.grants[c]))
      else Taken(s, id, Popped(ApprovalRefused), Noting(id, ApprovalRefused, [], since, ThenNothing))
  }

  function RejectionTaken(s: State): State
    requires s.session.Expiring? && s.session.k.ThenReject?
    requires forall p :: p in s.queue ==> p.id in s.acts
  {
    var id, since := s.session.k.id, s.session.since;
    if !Q.Has(s.queue, id) then s.(session := Free)
    else Taken(s, id, Popped(Declined), Noting(id, Declined, [], since, ThenNothing))
  }

  function ApprovalReserved(cfg: Config, s: State): State
    requires s.session.Reserving? && s.session.id in s.acts
  {
    var n := s.session;
    Staged(Recorded(cfg, s, ActEvent(s, n.id, Accepted, Handoff(true, InProgress))),
           n.id, InFlight(true, n.limit, UsedNow(cfg, s, s.acts[n.id].job.client), false)).(session := Free)
  }

  /** The lock holder goes on once the overdue entries are gone. */
  function AfterSweep(cfg: Config, s: State): State
    requires s.session.Expiring?
    requires s.session.k.ThenQueue? ==> s.session.k.id in s.acts
    requires forall p :: p in s.queue ==> p.id in s.acts
  {
    match s.session.k
    case ThenNothing => s.(session := Free)
    case ThenQueue(_, _, _) => QueueTried(cfg, s)
    case ThenApprove(_) => ApprovalTaken(s)
    case ThenReject(_) => RejectionTaken(s)
    case ThenRevoke(c) => s.(session := Purging(Q.IdsOf(s.queue, c), s.session.since, c))
  }

  // ---------- the handoff and its settlement ----------

  function HandoffReturned(s: State, id: ActionId, outcome: H.Outcome): State
    requires id in s.acts && s.acts[id].stage.InFlight?
  {
    var byHuman := s.acts[id].stage.byHuman;
    Staged(s, id, if outcome.Raised? then Crashed(byHuman) else Answered(byHuman, outcome.result))
  }

  function SettlementOf(id: ActionId, st: Stage): Settlement
    requires st.Answered?
  {
    Settlement(id, SettledOutcome(st.result), SettledReason(st.byHuman, st.result), SettledOrder(st.result))
  }

  function EventSettled(s: State, id: ActionId): State
    requires id in s.acts && s.acts[id].stage.Answered?
  {
    var st := s.acts[id].stage;
    var v := SettlementOf(id, st);
    Staged(s.(events := Settle(s.events, v), history := Settle(s.history, v)), id, Settled(st.byHuman, st.result))
  }

  function ResolutionSettled(cfg: Config, s: State, id: ActionId): State
    requires id in s.acts && s.acts[id].stage.Settled?
  {
    var st := s.acts[id].stage;
    Staged(Resolved(cfg, s, id, FinalStatus(st.result), SettledChannel(st.result), SettledOrder(st.result)),
           id, Finished(st.byHuman, st.result))
  }

  // ---------- steps ----------

  ghost predicate Enabled(cfg: Config, s: State, step: Step) {
    match step
    case Tick(dt) => dt >= 0.0
    case PutGrant(c, limit) => 0 < limit <= GRANT_MAX
    case DenyUnknown(item, amount, reason) =>
      0 < amount && (reason.NoCertificate? || reason.NoToken? || reason.TokenRejected?)
    case DenyNoGrant(c, item, amount) => 0 < amount
    case Arrive(id, job) =>
      && id !in s.acts && job.client in s.grants
      && W.OrderInBounds(job.item, job.quantity, job.amount)
    case ReadBudget(id) => s.session.Free? && id in s.acts && s.acts[id].stage.Minted?
    case Reserve =>
      && s.session.Budget? && s.session.id in s.acts
      && s.session.used + s.acts[s.session.id].job.amount <= s.session.limit
    case ExceedMandate =>
      && s.session.Budget? && s.session.id in s.acts
      && s.session.used + s.acts[s.session.id].job.amount > s.session.limit
    case StartApprove(_) => s.session.Free?
    case StartReject(_) => s.session.Free?
    case StartRevoke(_) => s.session.Free?
    case StartSweep => s.session.Free?
    case PopOverdue => s.session.Expiring? && s.session.todo != [] && s.session.todo[0] in s.acts
    case Note => s.session.Noting? && s.session.id in s.acts
    case Resolve => s.session.Resolving? && s.session.id in s.acts
    case Swept =>
      && s.session.Expiring? && s.session.todo == []
      && (s.session.k.ThenQueue? ==> s.session.k.id in s.acts)
      && (forall p :: p in s.queue ==> p.id in s.acts)
    case List => s.session.Listing? && s.session.id in s.acts
    case Announce => s.session.Announcing? && s.session.id in s.acts
    case ReserveApproved => s.session.Reserving? && s.session.id in s.acts
    case PopPurged => s.session.Purging? && s.session.todo != [] && s.session.todo[0] in s.acts
    case EndPurge => s.session.Purging? && s.session.todo == []
    case RefuseFull(id) => id in s.acts && s.acts[id].stage.QueueIsFull?
    case Retry(id) => id in s.acts && s.acts[id].stage.InFlight? && !s.acts[id].stage.retried
    case Return(id, _) => id in s.acts && s.acts[id].stage.InFlight?
    case SettleEvent(id) => id in s.acts && s.acts[id].stage.Answered?
    case SettleResolution(id) => id in s.acts && s.acts[id].stage.Settled?
    case Poll(_) => true
  }

  function Next(cfg: Config, s: State, step: Step): State
    requires Enabled(cfg, s, step)
  {
    match step
    case Tick(dt) => s.(now := s.now + dt)
    case PutGrant(c, limit) => s.(grants := s.grants[c := limit])
    case DenyUnknown(item, amount, reason) => Denied(cfg, s, "unknown", item, amount, reason)
    case DenyNoGrant(c, item, amount) => Denied(cfg, s, c, item, amount, NoGrant)
    case Arrive(id, job) => s.(acts := s.acts[id := Act(job, Minted(s.grants[job.client]))])
    case ReadBudget(id) => BudgetRead(cfg, s, id)
    case Reserve => Reserved(cfg, s)
    case ExceedMandate => Sweep(s, ThenQueue(s.session.id, s.session.limit, s.session.used))
    case StartApprove(id) => Sweep(s, ThenApprove(id))
    case StartReject(id) => Sweep(s, ThenReject(id))
    case StartRevoke(c) => Sweep(s.(grants := s.grants - {c}), ThenRevoke(c))
    case StartSweep => Sweep(s, ThenNothing)
    case PopOverdue => OverduePopped(s)
    case Note => ExitNoted(cfg, s)
    case Resolve => ExitResolved(cfg, s)
    case Swept => AfterSweep(cfg, s)
    case List => QueueListed(cfg, s)
    case Announce => Announced(cfg, s)
    case ReserveApproved => ApprovalReserved(cfg, s)
    case PopPurged => PurgedPopped(s)
    case EndPurge => s.(session := Free)
    case RefuseFull(id) => FullRefused(cfg, s, id)
    case Retry(id) => Staged(s, id, s.acts[id].stage.(retried := true))
    case Return(id, outcome) => HandoffReturned(s, id, outcome)
    case SettleEvent(id) => EventSettled(s, id)
    case SettleResolution(id) => ResolutionSettled(cfg, s, id)
    case Poll(id) => s.(resolutions := R.Get(s.resolutions, id, s.now, cfg.resolutionTtl as real).1)
  }

  /** A run: states joined by enabled steps, from an initial state. */
  ghost predicate IsRun(cfg: Config, ss: seq<State>, steps: seq<Step>) {
    && |ss| == |steps| + 1 && Init(cfg, ss[0])
    && forall i :: 0 <= i < |steps| ==> Enabled(cfg, ss[i], steps[i]) && ss[i + 1] == Next(cfg, ss[i], steps[i])
  }
}
