/**
 Gateway, network, agent and channels together: money is never released for an action that a channel took, whether
 the channel said so or not. The network is arbitrary; what the theorem asks of the reports and of the agent is
 stated for the one action in question.
 */
module EndToEnd {
  import opened Common
  import opened Wire
  import L = Ledger
  import G = Gateway
  import GI = GatewayInvariant
  import GS = GatewaySteps
  import GL = GatewayLifecycle
  import H = Handoff
  import A = Agent
  import AO = AgentOnce

  /**
   `posted`: attempts made; `wire`: requests still travelling; `away`: requests that will never run; `took`: actions
   that a channel took, whether it said so or not.
   */
  datatype State = State(
    g: G.State, a: A.State, posted: set<A.Request>, wire: set<A.Request>, away: set<A.Request>, took: set<ActionId>)

  datatype Step =
    | Gate(gs: G.Step)                                 // anything in the gateway but the handoff's own moves
    | Post(id: ActionId)                               // the current attempt is sent
    | Deliver(q: A.Request)                            // it reaches the agent, however late
    | TurnAway(q: A.Request)                           // it is lost or refused for good
    | Work(step: A.Step, took: bool)                   // the agent moves; if it dispatches, did the channel take it?
    | Report(id: ActionId, attempt: H.Attempt)         // the gateway learns the current attempt's outcome

  /** The request of the attempt an action in flight is on. */
  function Current(s: State, id: ActionId): A.Request
    requires id in s.g.acts && s.g.acts[id].stage.InFlight?
  {
    A.Request(id, if s.g.acts[id].stage.retried then 1 else 0)
  }

  predicate Flying(s: State, id: ActionId) { id in s.g.acts && s.g.acts[id].stage.InFlight? }

  ghost predicate Init(cfg: G.Config, s: State) {
    G.Init(cfg, s.g) && A.Init(s.a) && s.posted == {} && s.wire == {} && s.away == {} && s.took == {}
  }

  ghost predicate Enabled(cfg: G.Config, s: State, step: Step) {
    match step
    case Gate(gs) => !gs.Retry? && !gs.Return? && G.Enabled(cfg, s.g, gs)
    case Post(id) => Flying(s, id) && Current(s, id) !in s.posted
    case Deliver(q) => q in s.wire && A.Enabled(s.a, A.Arrive(q))
    case TurnAway(q) => q in s.wire
    case Work(step, took) =>
      !step.Arrive? && A.Enabled(s.a, step) && (step.Execute? ==> CanHaveTaken(took, step.reply))
    case Report(id, _) => Flying(s, id) && Current(s, id) in s.posted
  }

  /** `execute_handoff` seen from outside: a first timeout starts the retry, anything else is the conclusion. */
  function HandoffStep(s: State, id: ActionId, attempt: H.Attempt): G.Step
    requires Flying(s, id)
  {
    if attempt.TimedOut? && !s.g.acts[id].stage.retried then G.Retry(id) else G.Return(id, H.Conclude(attempt, id))
  }

  ghost function Next(cfg: G.Config, max: nat, s: State, step: Step): State
    requires Enabled(cfg, s, step)
  {
    match step
    case Gate(gs) => s.(g := G.Next(cfg, s.g, gs))
    case Post(id) => s.(posted := s.posted + {Current(s, id)}, wire := s.wire + {Current(s, id)})
    case Deliver(q) => s.(a := A.Next(max, s.a, A.Arrive(q)), wire := s.wire - {q})
    case TurnAway(q) => s.(wire := s.wire - {q}, away := s.away + {q})
    case Work(step, took) =>
      s.(a := A.Next(max, s.a, step), took := s.took + if step.Execute? && took then {step.q.id} else {})
    case Report(id, attempt) => s.(g := G.Next(cfg, s.g, HandoffStep(s, id, attempt)))
  }

  // ---------- what is assumed, for action x ----------

  /**
   What proves idleness comes of a request that never runs; an acceptable 200 tells what the agent replied to it.
   */
  ghost predicate HonestReport(s: State, x: ActionId, attempt: H.Attempt)
    requires Flying(s, x)
  {
    && (H.ProvesIdle(attempt) ==> Current(s, x) in s.away)
    && (attempt.Response? && attempt.status == 200 && ParseOkBody(attempt.body, x).Parsed? ==>
          Current(s, x) in s.a.calls && s.a.calls[Current(s, x)].Replied?
          && ParseOkBody(attempt.body, x).result == Meaning(s.a.calls[Current(s, x)].reply))
  }

  /**
   `H.Doubtful`, seen at the deciding attempt, for an agent that remembers. A "failed" that names a channel counts
   only if the channel did take the action.
   */
  predicate Doubtful(s: State, x: ActionId, attempt: H.Attempt)
    requires Flying(s, x)
  {
    || (H.TurnedAway(attempt) && (s.g.acts[x].stage.retried || !H.ProvesIdle(attempt)))
    || (H.NamesChannel(H.Conclude(attempt, x)) && x in s.took)
  }

  ghost predicate Assumed(cfg: G.Config, max: nat, s: State, step: Step, x: ActionId)
    requires Enabled(cfg, s, step)
  {
    match step
    case Report(id, attempt) => id == x ==> HonestReport(s, x, attempt) && !Doubtful(s, x, attempt)
    case Work(as_, _) => AO.Calm(max, s.a, as_, x)
    case _ => true
  }

  // ---------- the coupling ----------

  predicate Handed(st: G.Stage) { st.InFlight? || st.Answered? || st.Settled? || st.Finished? || st.Crashed? }

  /** What the gateway has concluded, once it has. */
  function Conclusion(st: G.Stage): Option<Result> {
    if st.Answered? || st.Settled? || st.Finished? then Some(st.result) else None
  }

  /** Requests for x and the stage of x agree. */
  ghost predicate TrafficOk(s: State, x: ActionId) {
    && (forall q :: q in s.wire && q.id == x ==> q in s.posted && q !in s.a.calls && q !in s.away)
    && (forall q :: q in s.away && q.id == x ==> q in s.posted && q !in s.a.calls)
    && (forall q :: q in s.a.calls && q.id == x ==> q in s.posted)
    && (forall q :: q in s.posted && q.id == x ==> x in s.g.acts && Handed(s.g.acts[x].stage) && q.attempt <= 1)
    && (Flying(s, x) && !s.g.acts[x].stage.retried ==> forall q :: q in s.posted && q.id == x ==> q.attempt == 0)
  }

  function Decided(s: State, x: ActionId): seq<Reply> { A.DecisionsFor(s.a.decisions, x) }

  /** Some decision led to a channel. */
  predicate Tried(ds: seq<Reply>) { exists i :: 0 <= i < |ds| && !ds[i].Undecided? }

  ghost predicate ConclusionOk(s: State, x: ActionId) {
    && (Decided(s, x) != [] ==> exists q :: q in s.a.calls && q.id == x)
    && (x in s.took ==> Tried(Decided(s, x)))
    && (x in s.g.acts && Conclusion(s.g.acts[x].stage) == Some(Down) ==>
          forall q :: q in s.posted && q.id == x ==> q in s.away)
    && (x in s.g.acts && Conclusion(s.g.acts[x].stage).Some? && Conclusion(s.g.acts[x].stage).value.Ok? ==>
          var r := Conclusion(s.g.acts[x].stage).value;
          |Decided(s, x)| == 1 && Meaning(Decided(s, x)[0]) == r && (!r.executed ==> x !in s.took))
  }

  ghost predicate Inv(cfg: G.Config, s: State, x: ActionId) {
    GI.Inv(cfg, s.g) && AO.Inv(s.a, x) && TrafficOk(s, x) && ConclusionOk(s, x)
  }

  /** A channel took action x. */
  predicate Executed(s: State, x: ActionId) { x in s.took }

  /** The reservation of x has been given back. */
  predicate Released(s: State, x: ActionId) {
    x in s.g.acts && (s.g.acts[x].stage.Settled? || s.g.acts[x].stage.Finished?)
    && G.SettledOutcome(s.g.acts[x].stage.result) == L.Rejected
  }

  // ---------- steps ----------

  /** A gateway step outside the handoff neither starts nor ends one, nor changes what was concluded. */
  lemma GateKeeps(cfg: G.Config, max: nat, s: State, gs: G.Step, x: ActionId)
    requires Inv(cfg, s, x) && Enabled(cfg, s, Gate(gs))
    ensures Inv(cfg, Next(cfg, max, s, Gate(gs)), x)
  {
    GS.StepKeeps(cfg, s.g, gs);
    GL.StepAdvances(cfg, s.g, gs);
    StageMoves(s, s.(g := G.Next(cfg, s.g, gs)), x);
  }

  lemma StageMoves(s: State, t: State, x: ActionId)
    requires TrafficOk(s, x) && ConclusionOk(s, x) && t == s.(g := t.g)
    requires GL.Advances(s.g, t.g) && GL.FlightsKept(s.g, t.g) && GL.StartMinted(s.g, t.g)
    ensures TrafficOk(t, x) && ConclusionOk(t, x)
  {
    if x in s.g.acts {
      StageFits(s.g.acts[x].stage, t.g.acts[x].stage);
    }
  }

  lemma StageFits(a: G.Stage, b: G.Stage)
    requires GL.Successor(a, b) && (a.InFlight? ==> b == a)
    ensures Handed(a) ==> Handed(b)
    ensures Conclusion(b) == Conclusion(a)
    ensures b.InFlight? ==> b == a || !Handed(a)
  {}

  lemma PostMoves(s: State, t: State, id: ActionId, x: ActionId)
    requires TrafficOk(s, x) && ConclusionOk(s, x) && Flying(s, id) && Current(s, id) !in s.posted
    requires t == s.(posted := s.posted + {Current(s, id)}, wire := s.wire + {Current(s, id)})
    ensures TrafficOk(t, x) && ConclusionOk(t, x)
  {}

  lemma PostKeeps(cfg: G.Config, max: nat, s: State, id: ActionId, x: ActionId)
    requires Inv(cfg, s, x) && Flying(s, id) && Current(s, id) !in s.posted
    ensures Inv(cfg, Next(cfg, max, s, Post(id)), x)
  {
    PostMoves(s, Next(cfg, max, s, Post(id)), id, x);
  }

  lemma TurnAwayMoves(s: State, t: State, q: A.Request, x: ActionId)
    requires TrafficOk(s, x) && ConclusionOk(s, x) && q in s.wire && t == s.(wire := s.wire - {q}, away := s.away + {q})
    ensures TrafficOk(t, x) && ConclusionOk(t, x)
  {}

  lemma ArrivalMoves(s: State, t: State, q: A.Request, x: ActionId)
    requires TrafficOk(s, x) && ConclusionOk(s, x) && q in s.wire
    requires t == s.(a := t.a, wire := s.wire - {q}) && t.a.decisions == s.a.decisions
    requires t.a.calls == s.a.calls[q := A.Arrived]
    ensures TrafficOk(t, x) && ConclusionOk(t, x)
  {
    if Decided(t, x) != [] {
      var p :| p in s.a.calls && p.id == x;
      assert p in t.a.calls;
    }
  }

  lemma WireKeeps(cfg: G.Config, max: nat, s: State, q: A.Request, x: ActionId)
    requires Inv(cfg, s, x) && q in s.wire
    ensures A.Enabled(s.a, A.Arrive(q)) ==> Inv(cfg, Next(cfg, max, s, Deliver(q)), x)
    ensures Inv(cfg, Next(cfg, max, s, TurnAway(q)), x)
  {
    if A.Enabled(s.a, A.Arrive(q)) {
      AO.StepKeeps(max, s.a, A.Arrive(q), x);
      ArrivalMoves(s, Next(cfg, max, s, Deliver(q)), q, x);
    }
    TurnAwayMoves(s, Next(cfg, max, s, TurnAway(q)), q, x);
  }

  /** What an agent's own step decides for x. */
  function NewlyDecided(step: A.Step, x: ActionId): seq<Reply> {
    if step.Execute? && step.q.id == x then [step.reply] else []
  }

  /** The agent's own steps open no request, and decide only for the request they serve. */
  lemma AgentEffect(max: nat, a: A.State, step: A.Step, x: ActionId)
    requires A.Enabled(a, step) && !step.Arrive?
    ensures A.Next(max, a, step).calls.Keys == a.calls.Keys && step.q in a.calls
    ensures A.DecisionsFor(A.Next(max, a, step).decisions, x)
         == A.DecisionsFor(a.decisions, x) + NewlyDecided(step, x)
  {
    if step.Execute? {
      AO.DecisionsAppend(a.decisions, A.Stored(step.q.id, step.reply), x);
    }
  }

  lemma TriedStays(ds: seq<Reply>, more: seq<Reply>)
    requires Tried(ds) || Tried(more)
    ensures Tried(ds + more)
  {
    if Tried(ds) {
      var i :| 0 <= i < |ds| && !ds[i].Undecided?;
      assert !(ds + more)[i].Undecided?;
    } else {
      var i :| 0 <= i < |more| && !more[i].Undecided?;
      assert !(ds + more)[|ds| + i].Undecided?;
    }
  }

  lemma WorkMoves(s: State, t: State, step: A.Step, took: bool, x: ActionId)
    requires TrafficOk(s, x) && ConclusionOk(s, x) && t == s.(a := t.a, took := t.took)
    requires t.a.calls.Keys == s.a.calls.Keys && step.q in s.a.calls && |Decided(t, x)| <= 1
    requires Decided(t, x) == Decided(s, x) + NewlyDecided(step, x)
    requires step.Execute? ==> CanHaveTaken(took, step.reply)
    requires x in t.took <==> x in s.took || (step.Execute? && step.q.id == x && took)
    ensures TrafficOk(t, x) && ConclusionOk(t, x)
  {
    assert forall p :: p in s.a.calls <==> p in t.a.calls;
    if NewlyDecided(step, x) != [] {
      assert step.q in t.a.calls && step.q.id == x;
      assert took ==> Tried(NewlyDecided(step, x)) by { assert NewlyDecided(step, x)[0] == step.reply; }
    }
    if x in t.took { TriedStays(Decided(s, x), NewlyDecided(step, x)); }
  }

  lemma WorkKeeps(cfg: G.Config, max: nat, s: State, step: A.Step, took: bool, x: ActionId)
    requires Inv(cfg, s, x) && A.Enabled(s.a, step) && !step.Arrive? && AO.Calm(max, s.a, step, x)
    requires step.Execute? ==> CanHaveTaken(took, step.reply)
    ensures Inv(cfg, Next(cfg, max, s, Work(step, took)), x)
  {
    AO.StepKeeps(max, s.a, step, x);
    AgentEffect(max, s.a, step, x);
    var t := Next(cfg, max, s, Work(step, took));
    assert |Decided(t, x)| <= 1;
    WorkMoves(s, t, step, took, x);
  }

  /** What the gateway concludes about x fits what became of x's requests. */
  lemma ConclusionFits(s: State, x: ActionId, attempt: H.Attempt)
    requires AO.OnceOk(s.a, x) && TrafficOk(s, x) && ConclusionOk(s, x) && Flying(s, x) && Current(s, x) in s.posted
    requires HonestReport(s, x, attempt) && !Doubtful(s, x, attempt)
    ensures H.Conclude(attempt, x) == H.Returned(Down) ==> forall q :: q in s.posted && q.id == x ==> q in s.away
    ensures H.Conclude(attempt, x).Returned? && H.Conclude(attempt, x).result.Ok? ==>
              var r := H.Conclude(attempt, x).result;
              |Decided(s, x)| == 1 && Meaning(Decided(s, x)[0]) == r && (!r.executed ==> x !in s.took)
  {
    if attempt.Response? && attempt.status == 200 && ParseOkBody(attempt.body, x).Parsed? {
      var reply := s.a.calls[Current(s, x)].reply;
      assert Decided(s, x) == [reply];
    }
  }

  /** A conclusion is entered in the action's stage, and nowhere else. */
  lemma HandoffEffect(cfg: G.Config, g: G.State, id: ActionId, attempt: H.Attempt)
    requires id in g.acts && g.acts[id].stage.InFlight?
    ensures var a := g.acts[id];
            !a.stage.retried ==>
              G.Next(cfg, g, G.Retry(id)) == g.(acts := g.acts[id := a.(stage := a.stage.(retried := true))])
    ensures var t := G.Next(cfg, g, G.Return(id, H.Conclude(attempt, id)));
            && t == g.(acts := t.acts) && t.acts == g.acts[id := t.acts[id]]
            && Entered(t.acts[id].stage, H.Conclude(attempt, id))
  {}

  predicate Entered(st: G.Stage, o: H.Outcome) {
    if o.Raised? then st.Crashed? else st.Answered? && st.result == o.result
  }

  lemma ReportMoves(s: State, t: State, id: ActionId, x: ActionId, o: H.Outcome)
    requires TrafficOk(s, x) && ConclusionOk(s, x) && Flying(s, id) && t == s.(g := t.g)
    requires id in t.g.acts && t.g.acts == s.g.acts[id := t.g.acts[id]]
    requires (t.g.acts[id].stage.InFlight? && t.g.acts[id].stage.retried) || Entered(t.g.acts[id].stage, o)
    requires id == x && o == H.Returned(Down) ==> forall q :: q in s.posted && q.id == x ==> q in s.away
    requires id == x && o.Returned? && o.result.Ok? ==>
               && |Decided(s, x)| == 1 && Meaning(Decided(s, x)[0]) == o.result
               && (!o.result.executed ==> x !in s.took)
    ensures TrafficOk(t, x) && ConclusionOk(t, x)
  {}

  lemma {:induction false} ReportKeeps(cfg: G.Config, max: nat, s: State, id: ActionId, attempt: H.Attempt, x: ActionId)
    requires Inv(cfg, s, x) && Flying(s, id) && Current(s, id) in s.posted
    requires id == x ==> HonestReport(s, x, attempt) && !Doubtful(s, x, attempt)
    ensures Inv(cfg, Next(cfg, max, s, Report(id, attempt)), x)
  {
    GS.StepKeeps(cfg, s.g, HandoffStep(s, id, attempt));
    HandoffEffect(cfg, s.g, id, attempt);
    if id == x {
      ConclusionFits(s, x, attempt);
    }
    ReportMoves(s, Next(cfg, max, s, Report(id, attempt)), id, x, H.Conclude(attempt, id));
  }

  lemma StepKeeps(cfg: G.Config, max: nat, s: State, step: Step, x: ActionId)
    requires Inv(cfg, s, x) && Enabled(cfg, s, step) && Assumed(cfg, max, s, step, x)
    ensures Inv(cfg, Next(cfg, max, s, step), x)
  {
    match step {
      case Gate(gs) => GateKeeps(cfg, max, s, gs, x);
      case Post(id) => PostKeeps(cfg, max, s, id, x);
      case Deliver(q) => WireKeeps(cfg, max, s, q, x);
      case TurnAway(q) => WireKeeps(cfg, max, s, q, x);
      case Work(as_, took) => WorkKeeps(cfg, max, s, as_, took, x);
      case Report(id, attempt) => ReportKeeps(cfg, max, s, id, attempt, x);
    }
  }

  // ---------- runs ----------

  ghost predicate IsRun(cfg: G.Config, max: nat, ss: seq<State>, steps: seq<Step>) {
    && |ss| == |steps| + 1 && Init(cfg, ss[0])
    && forall i :: 0 <= i < |steps| ==> Enabled(cfg, ss[i], steps[i]) && ss[i + 1] == Next(cfg, max, ss[i], steps[i])
  }

  ghost predicate AssumedAlong(cfg: G.Config, max: nat, ss: seq<State>, steps: seq<Step>, x: ActionId)
    requires IsRun(cfg, max, ss, steps)
  {
    forall i :: 0 <= i < |steps| ==> Assumed(cfg, max, ss[i], steps[i], x)
  }

  lemma {:induction false} RunKeeps(cfg: G.Config, max: nat, ss: seq<State>, steps: seq<Step>, x: ActionId, i: nat)
    requires IsRun(cfg, max, ss, steps) && AssumedAlong(cfg, max, ss, steps, x) && i < |ss|
    ensures Inv(cfg, ss[i], x)
  {
    if i == 0 {
      GS.InitHolds(cfg, ss[0].g);
    } else {
      RunKeeps(cfg, max, ss, steps, x, i - 1);
      StepKeeps(cfg, max, ss[i - 1], steps[i - 1], x);
    }
  }

  // ---------- the theorem ----------

  /** An action handed over ends its trail with the reservation, settled or not. */
  lemma LastMark(g: G.State, x: ActionId)
    requires x in g.acts && GI.ActOk(g, x) && Handed(g.acts[x].stage)
    ensures var trail, st := L.Trail(g.history, x), g.acts[x].stage;
            && trail != []
            && trail[|trail| - 1].outcome ==
                 if st.Settled? || st.Finished? then G.SettledOutcome(st.result) else L.Accepted
  {}

  lemma ExecutedIsHanded(s: State, x: ActionId)
    requires TrafficOk(s, x) && ConclusionOk(s, x) && |Decided(s, x)| <= 1 && Executed(s, x)
    ensures x in s.g.acts && Handed(s.g.acts[x].stage)
    ensures Conclusion(s.g.acts[x].stage).Some? ==> G.SettledOutcome(Conclusion(s.g.acts[x].stage).value) == L.Accepted
  {
    assert Decided(s, x) != [] && !Decided(s, x)[0].Undecided?;
    var q :| q in s.a.calls && q.id == x;
    assert q in s.posted && q !in s.away;
  }

  /** What the invariant says about money: executed work is still accepted, released work was not executed. */
  lemma Accounted(cfg: G.Config, s: State, x: ActionId)
    requires Inv(cfg, s, x)
    ensures Executed(s, x) ==>
              var trail := L.Trail(s.g.history, x); trail != [] && trail[|trail| - 1].outcome == L.Accepted
    ensures Released(s, x) ==> !Executed(s, x)
  {
    if Executed(s, x) {
      ExecutedIsHanded(s, x);
      LastMark(s.g, x);
    }
  }

  lemma GatewayAdvances(cfg: G.Config, max: nat, s: State, step: Step)
    requires GI.Inv(cfg, s.g) && Enabled(cfg, s, step)
    ensures GL.Advances(s.g, Next(cfg, max, s, step).g)
  {
    if step.Gate? || step.Report? {
      var gs := if step.Gate? then step.gs else HandoffStep(s, step.id, step.attempt);
      assert G.Enabled(cfg, s.g, gs);
      GL.StepAdvances(cfg, s.g, gs);
    }
  }

  lemma {:induction false} ReleasedForGood(ss: seq<State>, x: ActionId, i: nat, j: nat)
    requires i <= j < |ss| && Released(ss[i], x)
    requires forall k :: i <= k < j ==> GL.Advances(ss[k].g, ss[k + 1].g)
    ensures Released(ss[j], x)
  {
    if i < j {
      ReleasedForGood(ss, x, i, j - 1);
      assert GL.Advances(ss[j - 1].g, ss[j - 1 + 1].g);
    }
  }

  /**
   Money and work agree at every moment of every run: an action whose channel took it is accepted in the full
   history; once its budget has been given back its channel has not taken it and never will; and no channel takes
   it twice.
   */
  lemma {:induction false} SpendAccounting(
    cfg: G.Config, max: nat, ss: seq<State>, steps: seq<Step>, x: ActionId, i: nat)
    requires IsRun(cfg, max, ss, steps) && AssumedAlong(cfg, max, ss, steps, x) && i < |ss|
    ensures Executed(ss[i], x) ==>
              var trail := L.Trail(ss[i].g.history, x); trail != [] && trail[|trail| - 1].outcome == L.Accepted
    ensures Released(ss[i], x) ==> forall j :: i <= j < |ss| ==> !Executed(ss[j], x)
    ensures |Decided(ss[i], x)| <= 1
  {
    forall k | 0 <= k < |ss| ensures Inv(cfg, ss[k], x) {
      RunKeeps(cfg, max, ss, steps, x, k);
    }
    Accounted(cfg, ss[i], x);
    if Released(ss[i], x) {
      forall k | 0 <= k < |steps| ensures GL.Advances(ss[k].g, ss[k + 1].g) {
        GatewayAdvances(cfg, max, ss[k], steps[k]);
      }
      forall j | i <= j < |ss| ensures !Executed(ss[j], x) {
        ReleasedForGood(ss, x, i, j);
        Accounted(cfg, ss[j], x);
      }
    }
  }
}
