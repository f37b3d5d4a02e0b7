/** What a client that polls is told: nothing but the truth about its own order, for as long as it is kept. */
module GatewayPolls {
  import opened Common
  import opened Gateway
  import opened GatewayInvariant
  import opened GatewaySteps
  import opened GatewayLifecycle
  import R = Resolutions

  /** What may be shown of an order that stands here. */
  predicate Shows(st: Stage, d: R.Fate) {
    match st
    case Waiting => ShowsOnly(d, R.Queued)
    case Popped(_) => ShowsOnly(d, R.Queued)
    case Noted(_) => ShowsOnly(d, R.Queued)
    case Approved(_) => ShowsOnly(d, R.Queued)
    case Left(TimedOut) => ShowsOnly(d, R.Expired)
    case Left(_) => ShowsOnly(d, R.Rejected)
    case InFlight(byHuman, _, _, _) => byHuman && ShowsOnly(d, R.Queued)
    case Answered(byHuman, _) => byHuman && ShowsOnly(d, R.Queued)
    case Settled(byHuman, _) => byHuman && ShowsOnly(d, R.Queued)
    case Crashed(byHuman) => byHuman && ShowsOnly(d, R.Queued)
    case Finished(_, Down) => ShowsOnly(d, R.Failed)
    case Finished(_, Unknown) => ShowsOnly(d, R.ExecutionUnknown)
    case Finished(_, Ok(executed, channel, _, reference)) =>
      if executed then d.status.Executed? && d.channel == channel && d.order == reference else ShowsOnly(d, R.Failed)
    case _ => false
  }

  predicate ShowsOnly(d: R.Fate, status: R.Status) { d.status == status && d.channel.None? && d.order.None? }

  /** Channel and order number of a finished, executed order. */
  function Executed(st: Stage): Option<(Option<string>, Option<string>)> {
    match st
    case Finished(_, Ok(true, channel, _, reference)) => Some((channel, reference))
    case _ => None
  }

  /** Only what was executed is shown with a channel and an order number, and with its own. */
  predicate Quoted(st: Stage, d: R.Fate) {
    match Executed(st)
    case Some((channel, reference)) => d.channel == channel && d.order == reference
    case None => d.channel.None? && d.order.None?
  }

  ghost predicate QuotesOk(s: State) {
    forall r :: r in s.resolutions ==> r.data.id in s.acts && Quoted(s.acts[r.data.id].stage, r.data)
  }

  // ---------- steps ----------

  ghost predicate ResultsKept(s: State, t: State) {
    forall id :: id in s.acts ==> id in t.acts && Executed(t.acts[id].stage) == Executed(s.acts[id].stage)
  }

  lemma QuotesFrame(s: State, t: State)
    requires QuotesOk(s) && ResultsKept(s, t) && forall r :: r in t.resolutions ==> r in s.resolutions
    ensures QuotesOk(t)
  {}

  /** The stage of x moves and its resolution is written with what the new stage quotes. */
  lemma WritingQuotes(
    cfg: Config, s: State, t: State, x: ActionId, status: R.Status, ch: Option<string>, o: Option<string>)
    requires QuotesOk(s) && ResolutionsOk(cfg, s) && x in s.acts && Executed(s.acts[x].stage).None?
    requires t.resolutions == Resolved(cfg, s, x, status, ch, o).resolutions
    requires x in t.acts && t.acts == s.acts[x := t.acts[x]]
    requires match Executed(t.acts[x].stage)
             case Some((channel, reference)) => ch == channel && o == reference
             case None => ch.None? && o.None?
    ensures QuotesOk(t)
  {
    var u := R.Update(x, s.acts[x].job.client, status, ch, o);
    R.PutTouchesOneAction(s.resolutions, u, s.now, cfg.resolutionTtl as real, cfg.resolutionMax);
    R.PutQuotes(s.resolutions, u, s.now, cfg.resolutionTtl as real, cfg.resolutionMax);
  }

  lemma SweepLeavesResolutions(cfg: Config, s: State)
    requires Enabled(cfg, s, Swept)
    ensures AfterSweep(cfg, s).resolutions == s.resolutions
  {}

  predicate Writes(step: Step) { step.Announce? || step.Resolve? || step.SettleResolution? }

  lemma OtherStepsAddNone(cfg: Config, s: State, step: Step)
    requires R.UniqueIds(s.resolutions) && Enabled(cfg, s, step) && !Writes(step)
    ensures forall r :: r in Next(cfg, s, step).resolutions ==> r in s.resolutions
  {
    if step.Swept? {
      SweepLeavesResolutions(cfg, s);
    } else if step.Poll? {
      R.GetIff(s.resolutions, step.id, s.now, cfg.resolutionTtl as real);
    }
  }

  ghost predicate NothingFinishes(s: State, t: State) {
    forall id :: id in s.acts && id in t.acts && t.acts[id].stage.Finished? ==> s.acts[id].stage.Finished?
  }

  lemma SweepFinishesNone(cfg: Config, s: State)
    requires Enabled(cfg, s, Swept)
    ensures NothingFinishes(s, AfterSweep(cfg, s))
  {}

  lemma OnlySettlementFinishes(cfg: Config, s: State, step: Step)
    requires Enabled(cfg, s, step) && !step.SettleResolution?
    ensures NothingFinishes(s, Next(cfg, s, step))
  {
    if step.Swept? { SweepFinishesNone(cfg, s); }
  }

  lemma ResultsStay(s: State, t: State)
    requires Advances(s, t) && NothingFinishes(s, t)
    ensures ResultsKept(s, t)
  {}

  lemma AnnouncedQuotes(cfg: Config, s: State)
    requires ResolutionsOk(cfg, s) && SessionStages(s) && QuotesOk(s) && Enabled(cfg, s, Announce)
    ensures QuotesOk(Announced(cfg, s))
  {
    WritingQuotes(cfg, s, Announced(cfg, s), s.session.id, R.Queued, None, None);
  }

  lemma ExitQuotes(cfg: Config, s: State)
    requires ResolutionsOk(cfg, s) && SessionStages(s) && QuotesOk(s) && Enabled(cfg, s, Resolve)
    ensures QuotesOk(ExitResolved(cfg, s))
  {
    WritingQuotes(cfg, s, ExitResolved(cfg, s), s.session.id, ExitStatus(s.session.exit), None, None);
  }

  lemma SettledQuotes(cfg: Config, s: State, id: ActionId)
    requires ResolutionsOk(cfg, s) && QuotesOk(s) && Enabled(cfg, s, SettleResolution(id))
    ensures QuotesOk(ResolutionSettled(cfg, s, id))
  {
    var r := s.acts[id].stage.result;
    WritingQuotes(cfg, s, ResolutionSettled(cfg, s, id), id, FinalStatus(r), SettledChannel(r), SettledOrder(r));
  }

  lemma QuotesStep(cfg: Config, s: State, step: Step)
    requires ResolutionsOk(cfg, s) && SessionStages(s) && QuotesOk(s) && Enabled(cfg, s, step)
    requires Advances(s, Next(cfg, s, step))
    ensures QuotesOk(Next(cfg, s, step))
  {
    if step.Announce? {
      AnnouncedQuotes(cfg, s);
    } else if step.Resolve? {
      ExitQuotes(cfg, s);
    } else if step.SettleResolution? {
      SettledQuotes(cfg, s, step.id);
    } else {
      OtherStepsAddNone(cfg, s, step);
      OnlySettlementFinishes(cfg, s, step);
      ResultsStay(s, Next(cfg, s, step));
      QuotesFrame(s, Next(cfg, s, step));
    }
  }

  // ---------- over runs ----------

  lemma RunQuotesStep(cfg: Config, ss: seq<State>, steps: seq<Step>, i: nat)
    requires IsRun(cfg, ss, steps) && i < |steps| && QuotesOk(ss[i])
    ensures QuotesOk(ss[i + 1])
  {
    RunStep(cfg, ss, steps, i);
    Reachable(cfg, ss, steps, i);
    SessionStagesHold(cfg, ss[i]);
    StepAdvances(cfg, ss[i], steps[i]);
    QuotesStep(cfg, ss[i], steps[i]);
  }

  lemma {:induction false} RunQuotes(cfg: Config, ss: seq<State>, steps: seq<Step>, i: nat)
    requires IsRun(cfg, ss, steps) && i < |ss|
    ensures QuotesOk(ss[i])
  {
    if i > 0 {
      RunQuotes(cfg, ss, steps, i - 1);
      RunQuotesStep(cfg, ss, steps, i - 1);
    }
  }

  /** A poll drops the polled entry if its last write is more than one TTL old, and nothing else. */
  lemma PollDropsStale(cfg: Config, ss: seq<State>, steps: seq<Step>, i: nat)
    requires IsRun(cfg, ss, steps) && i < |steps| && steps[i].Poll?
    ensures forall r :: r in ss[i + 1].resolutions
              <==> r in ss[i].resolutions
                   && (r.data.id == steps[i].id ==> r.at >= ss[i].now - cfg.resolutionTtl as real)
  {
    RunStep(cfg, ss, steps, i);
    assert ResolutionsOk(cfg, ss[i]) by { Reachable(cfg, ss, steps, i); }
    R.GetIff(ss[i].resolutions, steps[i].id, ss[i].now, cfg.resolutionTtl as real);
  }

  lemma StageShows(s: State, r: R.Resolution)
    requires r in s.resolutions && r.data.id in s.acts && ActOk(s, r.data.id) && Quoted(s.acts[r.data.id].stage, r.data)
    ensures Shows(s.acts[r.data.id].stage, r.data)
  {}

  /**
   In every reachable state a poll shows an entry only under the client that placed the order, only within the TTL of
   its last write, and with exactly the status, the channel and the order number that what became of it justifies.
   */
  lemma PollTellsTruth(cfg: Config, ss: seq<State>, steps: seq<Step>, i: nat, id: ActionId)
    requires IsRun(cfg, ss, steps) && i < |ss|
    ensures var g := R.Get(ss[i].resolutions, id, ss[i].now, cfg.resolutionTtl as real).0;
            g.Some? ==>
              && id in ss[i].acts && g.value.data.id == id && g.value.client == ss[i].acts[id].job.client
              && g.value.at >= ss[i].now - cfg.resolutionTtl as real
              && Shows(ss[i].acts[id].stage, g.value.data)
  {
    RunQuotes(cfg, ss, steps, i);
    assert ResolutionsOk(cfg, ss[i]) && ActsOk(ss[i]) by { Reachable(cfg, ss, steps, i); }
    var g := R.Get(ss[i].resolutions, id, ss[i].now, cfg.resolutionTtl as real).0;
    R.GetIff(ss[i].resolutions, id, ss[i].now, cfg.resolutionTtl as real);
    if g.Some? {
      assert g.value in ss[i].resolutions;
      StageShows(ss[i], g.value);
    }
  }
}
