/**
 What honest reports do not prevent: three runs of the whole system, each from the start, in which the gateway gives
 back the budget of an action that a channel took.
 */
module EndToEndLoss {
  import opened Common
  import opened Playing
  import opened Wire
  import opened EndToEnd
  import GR = GatewayRuns
  import AL = AgentLimits
  import AR = AgentRuns
  import G = Gateway
  import H = Handoff
  import A = Agent

  // ---------- playing steps ----------

  ghost function Moves(cfg: G.Config, max: nat): (State, Step) -> Option<State> {
    (s: State, step: Step) => if Enabled(cfg, s, step) then Some(Next(cfg, max, s, step)) else None
  }

  /** Every report on x along the way is honest. */
  ghost predicate HonestAlong(cfg: G.Config, max: nat, s: State, steps: seq<Step>, x: ActionId)
    decreases steps
  {
    steps != [] && Enabled(cfg, s, steps[0]) ==>
      && (steps[0].Report? && steps[0].id == x ==> HonestReport(s, x, steps[0].attempt))
      && HonestAlong(cfg, max, Next(cfg, max, s, steps[0]), steps[1..], x)
  }

  lemma HonestFirst(cfg: G.Config, max: nat, s: State, step: Step, rest: seq<Step>, x: ActionId)
    requires Enabled(cfg, s, step)
    ensures Play(Moves(cfg, max), s, [step] + rest) == Play(Moves(cfg, max), Next(cfg, max, s, step), rest)
    ensures HonestAlong(cfg, max, s, [step] + rest, x) <==>
              && (step.Report? && step.id == x ==> HonestReport(s, x, step.attempt))
              && HonestAlong(cfg, max, Next(cfg, max, s, step), rest, x)
  {
    PlayFirst(Moves(cfg, max), s, step, rest);
    assert ([step] + rest)[1..] == rest;
  }

  lemma {:induction false} HonestOn(cfg: G.Config, max: nat, s: State, a: seq<Step>, b: seq<Step>, x: ActionId)
    requires Play(Moves(cfg, max), s, a).Some? && HonestAlong(cfg, max, s, a, x)
    requires HonestAlong(cfg, max, Play(Moves(cfg, max), s, a).value, b, x)
    ensures Play(Moves(cfg, max), s, a + b) == Play(Moves(cfg, max), Play(Moves(cfg, max), s, a).value, b)
    ensures HonestAlong(cfg, max, s, a + b, x)
    decreases a
  {
    PlayOn(Moves(cfg, max), s, a, b);
    if a == [] {
      assert a + b == b;
    } else {
      HonestOn(cfg, max, Next(cfg, max, s, a[0]), a[1..], b, x);
      HonestFirst(cfg, max, s, a[0], a[1..] + b, x);
      assert a + b == [a[0]] + (a[1..] + b);
    }
  }

  function Gates(steps: seq<G.Step>): seq<Step> { if steps == [] then [] else [Gate(steps[0])] + Gates(steps[1..]) }

  lemma {:induction false} GatesPlay(cfg: G.Config, max: nat, s: State, steps: seq<G.Step>, x: ActionId)
    requires Play(GR.Moves(cfg), s.g, steps).Some? && forall step :: step in steps ==> !step.Retry? && !step.Return?
    ensures Play(Moves(cfg, max), s, Gates(steps)) == Some(s.(g := Play(GR.Moves(cfg), s.g, steps).value))
    ensures HonestAlong(cfg, max, s, Gates(steps), x)
    decreases steps
  {
    if steps != [] {
      assert steps[0] in steps;
      GatesPlay(cfg, max, s.(g := G.Next(cfg, s.g, steps[0])), steps[1..], x);
      HonestFirst(cfg, max, s, Gate(steps[0]), Gates(steps[1..]), x);
    }
  }

  function Works(steps: seq<A.Step>, took: bool): seq<Step> {
    if steps == [] then [] else [Work(steps[0], took)] + Works(steps[1..], took)
  }

  /** The actions dispatched by these steps. */
  function Dispatched(steps: seq<A.Step>): set<ActionId> {
    if steps == [] then {} else (if steps[0].Execute? then {steps[0].q.id} else {}) + Dispatched(steps[1..])
  }

  lemma {:induction false} WorksPlay(cfg: G.Config, max: nat, s: State, steps: seq<A.Step>, took: bool, x: ActionId)
    requires Play(AL.Moves(max), s.a, steps).Some?
    requires forall step :: step in steps ==> !step.Arrive? && (step.Execute? ==> CanHaveTaken(took, step.reply))
    ensures Play(Moves(cfg, max), s, Works(steps, took))
         == Some(s.(a := Play(AL.Moves(max), s.a, steps).value,
                    took := s.took + if took then Dispatched(steps) else {}))
    ensures HonestAlong(cfg, max, s, Works(steps, took), x)
    decreases steps
  {
    if steps == [] {
      assert s.took + {} == s.took;
    } else {
      assert steps[0] in steps;
      var t := Next(cfg, max, s, Work(steps[0], took));
      WorksPlay(cfg, max, t, steps[1..], took, x);
      HonestFirst(cfg, max, s, Work(steps[0], took), Works(steps[1..], took), x);
      assert t.took + (if took then Dispatched(steps[1..]) else {}) == s.took + if took then Dispatched(steps) else {};
    }
  }

  // ---------- executed and unanswered ----------

  /** The first attempt of x has been made and its channel took it, but the gateway has not heard. */
  ghost predicate Unanswered(s: State, x: ActionId) {
    && Flying(s, x) && !s.g.acts[x].stage.retried && Executed(s, x)
    && A.Request(x, 0) in s.posted && A.Request(x, 1) !in s.posted
  }

  /** The agent at work on a request up to the channel's answer. */
  function Dispatch(q: A.Request, reply: Reply): seq<A.Step> {
    [A.Fetch(q)] + ([A.Acquire(q)] + ([A.Check(q)] + ([A.Execute(q, reply)] + [])))
  }

  /** The agent at work on a request up to its reply. */
  function Serve(q: A.Request, reply: Reply): seq<A.Step> {
    Dispatch(q, reply) + ([A.Store(q)] + ([A.Leave(q)] + []))
  }

  /** A grant, an order within it, its first attempt, and the agent at work on it. */
  function Launch(c: ClientId, limit: int, x: ActionId, job: Job, work: seq<A.Step>): seq<Step> {
    Gates(Ordering(c, limit, x, job)) + Delivering(x, work)
  }

  function Ordering(c: ClientId, limit: int, x: ActionId, job: Job): seq<G.Step> {
    [G.PutGrant(c, limit)] + GR.Within(x, job)
  }

  function Delivering(x: ActionId, work: seq<A.Step>): seq<Step> {
    [Post(x)] + ([Deliver(A.Request(x, 0))] + Works(work, true))
  }

  lemma OrderingOnly(c: ClientId, limit: int, x: ActionId, job: Job)
    ensures forall step :: step in Ordering(c, limit, x, job) ==> !step.Retry? && !step.Return?
  {
    assert Ordering(c, limit, x, job) == [G.PutGrant(c, limit), G.Arrive(x, job), G.ReadBudget(x), G.Reserve];
  }

  lemma OrderingPlays(cfg: G.Config, g: G.State, limit: int, x: ActionId, job: Job)
    requires G.Init(cfg, g) && OrderInBounds(job.item, job.quantity, job.amount) && job.amount <= limit <= G.GRANT_MAX
    ensures var end := Play(GR.Moves(cfg), g, Ordering(job.client, limit, x, job));
            && end.Some? && x in end.value.acts && end.value.acts[x].stage == G.InFlight(false, limit, 0, false)
    ensures forall step :: step in Ordering(job.client, limit, x, job) ==> !step.Retry? && !step.Return?
  {
    var g1 := G.Next(cfg, g, G.PutGrant(job.client, limit));
    PlayFirst(GR.Moves(cfg), g, G.PutGrant(job.client, limit), GR.Within(x, job));
    assert G.UsedNow(cfg, g1, job.client) == 0;
    GR.WithinIsPlaced(cfg, g1, x, job);
    OrderingOnly(job.client, limit, x, job);
  }

  lemma {:induction false} DispatchedHas(steps: seq<A.Step>, i: nat)
    requires i < |steps| && steps[i].Execute?
    ensures steps[i].q.id in Dispatched(steps)
  {
    if i > 0 { DispatchedHas(steps[1..], i - 1); }
  }

  /** Work on a request that leaves the given agent and dispatches the action with this reply. */
  ghost predicate PlaysOut(max: nat, a: A.State, q: A.Request, reply: Reply, work: seq<A.Step>, end: A.State) {
    && A.Enabled(a, A.Arrive(q)) && Play(AL.Moves(max), A.Next(max, a, A.Arrive(q)), work) == Some(end)
    && (forall step :: step in work ==> !step.Arrive? && (step.Execute? ==> step.reply == reply))
    && q.id in Dispatched(work)
  }

  lemma DispatchDispatches(q: A.Request, reply: Reply)
    ensures forall step :: step in Dispatch(q, reply) ==> !step.Arrive? && (step.Execute? ==> step.reply == reply)
    ensures q.id in Dispatched(Dispatch(q, reply))
  {
    assert Dispatch(q, reply) == [A.Fetch(q), A.Acquire(q), A.Check(q), A.Execute(q, reply)];
    DispatchedHas(Dispatch(q, reply), 3);
  }

  lemma DispatchPlays(max: nat, a: A.State, q: A.Request, reply: Reply)
    requires A.Init(a) && WellFormed(reply)
    ensures PlaysOut(max, a, q, reply, Dispatch(q, reply), AL.Dispatched(a, q, reply))
  {
    AL.FreshRequestDecides(max, a, q, reply);
    PlayFirst(AL.Moves(max), a, A.Arrive(q), Dispatch(q, reply));
    DispatchDispatches(q, reply);
  }

  lemma ServeIsServing(q: A.Request, reply: Reply)
    ensures AR.Serving(q, reply) == [A.Arrive(q)] + Serve(q, reply)
  {
    var serve := [A.Fetch(q), A.Acquire(q), A.Check(q), A.Execute(q, reply), A.Store(q), A.Leave(q)];
    assert Serve(q, reply) == serve;
    assert AR.Serving(q, reply) == [A.Arrive(q)] + serve;
  }

  lemma ServeDispatches(q: A.Request, reply: Reply)
    ensures forall step :: step in Serve(q, reply) ==> !step.Arrive? && (step.Execute? ==> step.reply == reply)
    ensures q.id in Dispatched(Serve(q, reply))
  {
    assert Serve(q, reply) == [A.Fetch(q), A.Acquire(q), A.Check(q), A.Execute(q, reply), A.Store(q), A.Leave(q)];
    DispatchedHas(Serve(q, reply), 3);
  }

  lemma ServePlays(max: nat, a: A.State, q: A.Request, reply: Reply)
    requires A.Init(a) && WellFormed(reply)
    ensures PlaysOut(max, a, q, reply, Serve(q, reply), AR.Served(max, a, q, reply))
  {
    AR.NewcomerIsServed(max, a, q, reply);
    ServeIsServing(q, reply);
    ServeDispatches(q, reply);
    PlayFirst(AL.Moves(max), a, A.Arrive(q), Serve(q, reply));
  }

  lemma DeliveringPlays(
    cfg: G.Config, max: nat, s: State, x: ActionId, reply: Reply, work: seq<A.Step>, end: A.State)
    requires Flying(s, x) && !s.g.acts[x].stage.retried && s.posted == {} && s.wire == {}
    requires PlaysOut(max, s.a, A.Request(x, 0), reply, work, end) && !reply.Undecided?
    ensures var t := Play(Moves(cfg, max), s, Delivering(x, work));
            t.Some? && Unanswered(t.value, x) && t.value.a == end && t.value.posted == {A.Request(x, 0)}
    ensures HonestAlong(cfg, max, s, Delivering(x, work), x)
  {
    var q := A.Request(x, 0);
    var s1 := Next(cfg, max, s, Post(x));
    assert s1 == s.(posted := {q}, wire := {q});
    var s2 := Next(cfg, max, s1, Deliver(q));
    HonestFirst(cfg, max, s, Post(x), [Deliver(q)] + Works(work, true), x);
    HonestFirst(cfg, max, s1, Deliver(q), Works(work, true), x);
    WorksPlay(cfg, max, s2, work, true, x);
  }

  /** The situation is reachable: a run from the start ends with x executed and unanswered. */
  lemma LaunchPlays(
    cfg: G.Config, max: nat, s: State, limit: int, x: ActionId, job: Job, reply: Reply, work: seq<A.Step>, end: A.State)
    requires Init(cfg, s) && OrderInBounds(job.item, job.quantity, job.amount) && job.amount <= limit <= G.GRANT_MAX
    requires PlaysOut(max, s.a, A.Request(x, 0), reply, work, end) && !reply.Undecided?
    ensures var t := Play(Moves(cfg, max), s, Launch(job.client, limit, x, job, work));
            t.Some? && Unanswered(t.value, x) && t.value.a == end
    ensures HonestAlong(cfg, max, s, Launch(job.client, limit, x, job, work), x)
  {
    var ordering := Ordering(job.client, limit, x, job);
    OrderingPlays(cfg, s.g, limit, x, job);
    GatesPlay(cfg, max, s, ordering, x);
    var t := Play(Moves(cfg, max), s, Gates(ordering)).value;
    DeliveringPlays(cfg, max, t, x, reply, work, end);
    HonestOn(cfg, max, s, Gates(ordering), Delivering(x, work), x);
  }

  // ---------- three ways to lose track ----------

  /** Timed out, retried, refused, settled. */
  function RetryTurnedAway(x: ActionId): seq<Step> {
    [Report(x, H.TimedOut)] + ([Post(x)] + ([TurnAway(A.Request(x, 1))]
    + ([Report(x, H.Refused)] + ([Gate(G.SettleEvent(x))] + []))))
  }

  /** The first attempt's outcome is reported and settled. */
  function Reported(x: ActionId, attempt: H.Attempt): seq<Step> {
    [Report(x, attempt)] + ([Gate(G.SettleEvent(x))] + [])
  }

  function Restaged(s: State, x: ActionId, st: G.Stage): State
    requires x in s.g.acts
  {
    s.(g := G.Staged(s.g, x, st))
  }

  /** x's retry is on its way and lost. */
  function AfterLostRetry(s: State, x: ActionId): State
    requires Flying(s, x)
  {
    Restaged(s, x, s.g.acts[x].stage.(retried := true))
      .(posted := s.posted + {A.Request(x, 1)}, wire := s.wire + {A.Request(x, 1)} - {A.Request(x, 1)},
        away := s.away + {A.Request(x, 1)})
  }

  lemma RetryIsLost(cfg: G.Config, max: nat, s: State, x: ActionId, rest: seq<Step>)
    requires Unanswered(s, x) && HonestAlong(cfg, max, AfterLostRetry(s, x), rest, x)
    ensures var run := [Report(x, H.TimedOut)] + ([Post(x)] + ([TurnAway(A.Request(x, 1))] + rest));
            && Play(Moves(cfg, max), s, run) == Play(Moves(cfg, max), AfterLostRetry(s, x), rest)
            && HonestAlong(cfg, max, s, run, x)
  {
    var s1 := Next(cfg, max, s, Report(x, H.TimedOut));
    assert s1 == Restaged(s, x, s.g.acts[x].stage.(retried := true));
    HonestFirst(cfg, max, s, Report(x, H.TimedOut), [Post(x)] + ([TurnAway(A.Request(x, 1))] + rest), x);
    var s2 := Next(cfg, max, s1, Post(x));
    HonestFirst(cfg, max, s1, Post(x), [TurnAway(A.Request(x, 1))] + rest, x);
    HonestFirst(cfg, max, s2, TurnAway(A.Request(x, 1)), rest, x);
  }

  /** One report and the settlement, when the conclusion releases the budget. */
  lemma ReportReleases(cfg: G.Config, max: nat, s: State, x: ActionId, attempt: H.Attempt)
    requires Flying(s, x) && Current(s, x) in s.posted && HonestReport(s, x, attempt) && Executed(s, x)
    requires !attempt.TimedOut? && H.Releases(H.Conclude(attempt, x))
    ensures var run := [Report(x, attempt)] + ([Gate(G.SettleEvent(x))] + []);
            var end := Play(Moves(cfg, max), s, run);
            end.Some? && Released(end.value, x) && Executed(end.value, x) && HonestAlong(cfg, max, s, run, x)
  {
    var s1 := Next(cfg, max, s, Report(x, attempt));
    assert s1 == Restaged(s, x, G.Answered(s.g.acts[x].stage.byHuman, H.Conclude(attempt, x).result));
    HonestFirst(cfg, max, s, Report(x, attempt), [Gate(G.SettleEvent(x))] + [], x);
    HonestFirst(cfg, max, s1, Gate(G.SettleEvent(x)), [], x);
  }

  /**
   From the start, with honest reports only, a timed-out attempt whose retry is refused ends with the budget of
   executed work given back.
   */
  lemma LostRetryReleasesExecutedWork(
    cfg: G.Config, max: nat, s: State, limit: int, x: ActionId, job: Job, reply: Reply)
    requires Init(cfg, s) && OrderInBounds(job.item, job.quantity, job.amount) && job.amount <= limit <= G.GRANT_MAX
    requires WellFormed(reply) && reply.Done?
    ensures var run := Launch(job.client, limit, x, job, Dispatch(A.Request(x, 0), reply)) + RetryTurnedAway(x);
            var end := Play(Moves(cfg, max), s, run);
            end.Some? && Executed(end.value, x) && Released(end.value, x) && HonestAlong(cfg, max, s, run, x)
  {
    var q := A.Request(x, 0);
    var launch := Launch(job.client, limit, x, job, Dispatch(q, reply));
    DispatchPlays(max, s.a, q, reply);
    LaunchPlays(cfg, max, s, limit, x, job, reply, Dispatch(q, reply), AL.Dispatched(s.a, q, reply));
    var t := Play(Moves(cfg, max), s, launch).value;
    ReportReleases(cfg, max, AfterLostRetry(t, x), x, H.Refused);
    RetryIsLost(cfg, max, t, x, [Report(x, H.Refused)] + ([Gate(G.SettleEvent(x))] + []));
    HonestOn(cfg, max, s, launch, RetryTurnedAway(x), x);
  }

  /** So does a single attempt whose connection breaks after the channel took the action. */
  lemma DroppedAnswerReleasesExecutedWork(
    cfg: G.Config, max: nat, s: State, limit: int, x: ActionId, job: Job, reply: Reply)
    requires Init(cfg, s) && OrderInBounds(job.item, job.quantity, job.amount) && job.amount <= limit <= G.GRANT_MAX
    requires WellFormed(reply) && reply.Done?
    ensures var run := Launch(job.client, limit, x, job, Dispatch(A.Request(x, 0), reply)) + Reported(x, H.Dropped);
            var end := Play(Moves(cfg, max), s, run);
            end.Some? && Executed(end.value, x) && Released(end.value, x) && HonestAlong(cfg, max, s, run, x)
  {
    var q := A.Request(x, 0);
    var launch := Launch(job.client, limit, x, job, Dispatch(q, reply));
    DispatchPlays(max, s.a, q, reply);
    LaunchPlays(cfg, max, s, limit, x, job, reply, Dispatch(q, reply), AL.Dispatched(s.a, q, reply));
    ReportReleases(cfg, max, Play(Moves(cfg, max), s, launch).value, x, H.Dropped);
    HonestOn(cfg, max, s, launch, Reported(x, H.Dropped), x);
  }

  lemma IntactIsHonest(s: State, x: ActionId, reply: Reply, detail: string)
    requires Flying(s, x) && WellFormed(reply)
    requires Current(s, x) in s.a.calls && s.a.calls[Current(s, x)] == A.Replied(reply)
    ensures var intact := H.Response(200, Some(Obj(ReplyBody(x, reply, detail))));
            HonestReport(s, x, intact) && H.Conclude(intact, x) == H.Returned(Meaning(reply))
  {
    H.IntactReplyIsUnderstood(x, reply, detail);
    ReplyRoundTrip(x, reply, detail);
  }

  /** So does an intact answer: the channel took the action but was not heard, and the agent says "failed". */
  lemma UnheardChannelReleasesExecutedWork(
    cfg: G.Config, max: nat, s: State, limit: int, x: ActionId, job: Job, reply: Reply, detail: string)
    requires Init(cfg, s) && OrderInBounds(job.item, job.quantity, job.amount) && job.amount <= limit <= G.GRANT_MAX
    requires WellFormed(reply) && reply.ChannelFailed?
    ensures var intact := H.Response(200, Some(Obj(ReplyBody(x, reply, detail))));
            var run := Launch(job.client, limit, x, job, Serve(A.Request(x, 0), reply)) + Reported(x, intact);
            var end := Play(Moves(cfg, max), s, run);
            end.Some? && Executed(end.value, x) && Released(end.value, x) && HonestAlong(cfg, max, s, run, x)
  {
    var q, intact := A.Request(x, 0), H.Response(200, Some(Obj(ReplyBody(x, reply, detail))));
    var launch := Launch(job.client, limit, x, job, Serve(q, reply));
    ServePlays(max, s.a, q, reply);
    LaunchPlays(cfg, max, s, limit, x, job, reply, Serve(q, reply), AR.Served(max, s.a, q, reply));
    IntactIsHonest(Play(Moves(cfg, max), s, launch).value, x, reply, detail);
    ReportReleases(cfg, max, Play(Moves(cfg, max), s, launch).value, x, intact);
    HonestOn(cfg, max, s, launch, Reported(x, intact), x);
  }
}
