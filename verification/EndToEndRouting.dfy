/**
 With the agent's decisions made by its rule table, the channel that a settlement records is on the allowlist, and is
 the one that the rule file gives for the order's amount.
 */
module EndToEndRouting {
  import opened Common
  import opened Wire
  import opened EndToEnd
  import RF = RuleFile
  import RT = Routing
  import A = Agent
  import G = Gateway
  import GI = GatewayInvariant

  /** The reply of one handling under the table, whatever the LLM and the channel say. */
  ghost predicate RoutedBy(t: RT.Table, reply: Reply) {
    exists model, answer, actionType, amount, ask ::
      reply == RT.DecideAndExecute(t, model, answer, actionType, amount, ask).reply
  }

  predicate OnAllowlist(t: RT.Table, reply: Reply) { reply.Undecided? || reply.channel in t.allowed }

  lemma RoutedIsAllowed(t: RT.Table, reply: Reply)
    requires RT.Sound(t) && RoutedBy(t, reply)
    ensures OnAllowlist(t, reply)
  {
    var model, answer, actionType, amount, ask :|
      reply == RT.DecideAndExecute(t, model, answer, actionType, amount, ask).reply;
    RT.RoutingIsClosed(t, model, answer, actionType, amount);
  }

  /** Every decision about x is made by the table. */
  ghost predicate RoutedAlong(steps: seq<Step>, x: ActionId, t: RT.Table) {
    forall i :: 0 <= i < |steps| && steps[i].Work? && steps[i].step.Execute? && steps[i].step.q.id == x ==>
      RoutedBy(t, steps[i].step.reply)
  }

  ghost predicate AllAllowed(s: State, x: ActionId, t: RT.Table) {
    forall i :: 0 <= i < |Decided(s, x)| ==> OnAllowlist(t, Decided(s, x)[i])
  }

  lemma StepAllowed(cfg: G.Config, max: nat, s: State, step: Step, x: ActionId, t: RT.Table)
    requires Enabled(cfg, s, step) && AllAllowed(s, x, t) && RT.Sound(t)
    requires step.Work? && step.step.Execute? && step.step.q.id == x ==> RoutedBy(t, step.step.reply)
    ensures AllAllowed(Next(cfg, max, s, step), x, t)
  {
    if step.Work? {
      AgentEffect(max, s.a, step.step, x);
      var before, after := Decided(s, x), Decided(Next(cfg, max, s, step), x);
      assert after == before + NewlyDecided(step.step, x);
      if after != before {
        assert after == before + [step.step.reply];
        RoutedIsAllowed(t, step.step.reply);
        forall i | 0 <= i < |after| ensures OnAllowlist(t, after[i]) {
          if i < |before| { assert OnAllowlist(t, before[i]); }
        }
      }
    } else {
      assert Decided(Next(cfg, max, s, step), x) == Decided(s, x);
    }
  }

  lemma {:induction false} RunAllowed(
    cfg: G.Config, max: nat, ss: seq<State>, steps: seq<Step>, x: ActionId, t: RT.Table, i: nat)
    requires IsRun(cfg, max, ss, steps) && i < |ss| && RoutedAlong(steps, x, t) && RT.Sound(t)
    ensures AllAllowed(ss[i], x, t)
  {
    if i > 0 {
      RunAllowed(cfg, max, ss, steps, x, t, i - 1);
      StepAllowed(cfg, max, ss[i - 1], steps[i - 1], x, t);
    }
  }

  /** A settled action that shows a channel shows one that the agent's table allows. */
  lemma SettledChannelIsAllowed(
    cfg: G.Config, max: nat, ss: seq<State>, steps: seq<Step>, x: ActionId, t: RT.Table, i: nat)
    requires IsRun(cfg, max, ss, steps) && AssumedAlong(cfg, max, ss, steps, x) && i < |ss|
    requires RoutedAlong(steps, x, t) && RT.Sound(t)
    requires x in ss[i].g.acts && (ss[i].g.acts[x].stage.Settled? || ss[i].g.acts[x].stage.Finished?)
    ensures var channel := G.SettledChannel(ss[i].g.acts[x].stage.result); channel.Some? ==> channel.value in t.allowed
  {
    RunAllowed(cfg, max, ss, steps, x, t, i);
    assert ConclusionOk(ss[i], x) by { RunKeeps(cfg, max, ss, steps, x, i); }
    if G.SettledChannel(ss[i].g.acts[x].stage.result).Some? {
      assert OnAllowlist(t, Decided(ss[i], x)[0]);
    }
  }

  // ---------- and it is the one that the rule file gives for this very order ----------

  /** The reply of one handling of an order of this amount under the file, whatever the LLM and the channel say. */
  ghost predicate RoutedFor(config: Json, amount: int, reply: Reply)
    requires RT.Load(config).Some?
  {
    exists model, answer, ask ::
      reply == RT.DecideAndExecute(RT.Load(config).value, model, answer, "order.place", amount, ask).reply
  }

  /** The channel is where the file's first covering rule leads, for some LLM and answer. */
  ghost predicate FollowsRules(config: Json, amount: int, reply: Reply)
    requires config.Obj?
  {
    !reply.Undecided? ==>
      exists model, answer :: RF.FileLeads(config, model, answer, "order.place", amount, reply.channel)
  }

  lemma RoutedFollows(config: Json, amount: int, reply: Reply)
    requires RT.Load(config).Some? && RoutedFor(config, amount, reply)
    ensures config.Obj? && FollowsRules(config, amount, reply)
  {
    var t := RT.Load(config).value;
    var model, answer, ask :| reply == RT.DecideAndExecute(t, model, answer, "order.place", amount, ask).reply;
    var h := RT.DecideAndExecute(t, model, answer, "order.place", amount, ask);
    RF.LoadedRules(config);
    if !reply.Undecided? {
      RF.FileDecidesIff(config, model, answer, "order.place", amount, ask, reply.channel);
      RT.DispatchIff(t, model, answer, "order.place", amount, ask);
      assert h.sent == [reply.channel];
    }
  }

  /** The agent routes x by the amount that its envelope carries, which is the order's. */
  ghost predicate RoutedByFile(s: State, step: Step, x: ActionId, config: Json)
    requires RT.Load(config).Some?
  {
    step.Work? && step.step.Execute? && step.step.q.id == x && x in s.g.acts ==>
      RoutedFor(config, s.g.acts[x].job.amount, step.step.reply)
  }

  ghost predicate AllFollow(s: State, x: ActionId, config: Json)
    requires config.Obj?
  {
    && (Decided(s, x) != [] ==> x in s.g.acts)
    && (x in s.g.acts ==> forall r :: r in Decided(s, x) ==> FollowsRules(config, s.g.acts[x].job.amount, r))
  }

  lemma NewDecisionFollows(s: State, t: State, x: ActionId, config: Json, more: seq<Reply>)
    requires config.Obj? && AllFollow(s, x, config) && Decided(t, x) == Decided(s, x) + more
    requires x in s.g.acts ==> x in t.g.acts && t.g.acts[x].job == s.g.acts[x].job
    requires forall r :: r in more ==> x in s.g.acts && FollowsRules(config, s.g.acts[x].job.amount, r)
    requires more != [] ==> x in s.g.acts
    ensures AllFollow(t, x, config)
  {
    forall r | r in Decided(t, x) ensures x in t.g.acts && FollowsRules(config, t.g.acts[x].job.amount, r) {
      assert r in Decided(s, x) || r in more;
    }
  }

  /** Whatever the agent works on for x, the gateway knows x. */
  lemma WorkIsKnown(s: State, step: A.Step, x: ActionId)
    requires TrafficOk(s, x) && A.Enabled(s.a, step) && !step.Arrive? && step.q.id == x
    ensures x in s.g.acts
  {
    assert step.q in s.a.calls;
  }

  lemma FollowStep(cfg: G.Config, max: nat, s: State, step: Step, x: ActionId, config: Json)
    requires RT.Load(config).Some? && config.Obj? && AllFollow(s, x, config)
    requires GI.Inv(cfg, s.g) && TrafficOk(s, x) && Enabled(cfg, s, step) && RoutedByFile(s, step, x, config)
    ensures AllFollow(Next(cfg, max, s, step), x, config)
  {
    var t := Next(cfg, max, s, step);
    assert x in s.g.acts ==> x in t.g.acts && t.g.acts[x].job == s.g.acts[x].job by {
      GatewayAdvances(cfg, max, s, step);
    }
    if step.Work? {
      AgentEffect(max, s.a, step.step, x);
      if NewlyDecided(step.step, x) != [] {
        WorkIsKnown(s, step.step, x);
        RoutedFollows(config, s.g.acts[x].job.amount, step.step.reply);
      }
      NewDecisionFollows(s, t, x, config, NewlyDecided(step.step, x));
    } else {
      assert Decided(t, x) == Decided(s, x) + [];
      NewDecisionFollows(s, t, x, config, []);
    }
  }

  lemma RunStepFollows(
    cfg: G.Config, max: nat, ss: seq<State>, steps: seq<Step>, x: ActionId, config: Json, i: nat)
    requires IsRun(cfg, max, ss, steps) && i < |steps| && RT.Load(config).Some? && config.Obj?
    requires AssumedAlong(cfg, max, ss, steps, x) && RoutedByFile(ss[i], steps[i], x, config)
    requires AllFollow(ss[i], x, config)
    ensures AllFollow(ss[i + 1], x, config)
  {
    assert GI.Inv(cfg, ss[i].g) && TrafficOk(ss[i], x) by { RunKeeps(cfg, max, ss, steps, x, i); }
    FollowStep(cfg, max, ss[i], steps[i], x, config);
  }

  lemma {:induction false} FollowOn(ss: seq<State>, x: ActionId, config: Json, i: nat)
    requires i < |ss| && config.Obj? && AllFollow(ss[0], x, config)
    requires forall k :: 0 <= k < |ss| - 1 && AllFollow(ss[k], x, config) ==> AllFollow(ss[k + 1], x, config)
    ensures AllFollow(ss[i], x, config)
  {
    if i > 0 {
      FollowOn(ss, x, config, i - 1);
      assert AllFollow(ss[i - 1 + 1], x, config);
    }
  }

  lemma RunFollows(
    cfg: G.Config, max: nat, ss: seq<State>, steps: seq<Step>, x: ActionId, config: Json, i: nat)
    requires IsRun(cfg, max, ss, steps) && i < |ss| && RT.Load(config).Some? && config.Obj?
    requires AssumedAlong(cfg, max, ss, steps, x)
    requires forall k :: 0 <= k < |steps| ==> RoutedByFile(ss[k], steps[k], x, config)
    ensures AllFollow(ss[i], x, config)
  {
    forall k | 0 <= k < |ss| - 1 && AllFollow(ss[k], x, config) ensures AllFollow(ss[k + 1], x, config) {
      RunStepFollows(cfg, max, ss, steps, x, config, k);
    }
    assert Decided(ss[0], x) == [];
    FollowOn(ss, x, config, i);
  }

  /**
   With the agent's decisions made by a rule file, the channel that a settled action shows is the one to which the
   first rule that covers the order's own amount leads.
   */
  lemma SettledChannelFollowsRules(
    cfg: G.Config, max: nat, ss: seq<State>, steps: seq<Step>, x: ActionId, config: Json, i: nat)
    requires IsRun(cfg, max, ss, steps) && AssumedAlong(cfg, max, ss, steps, x) && i < |ss|
    requires RT.Load(config).Some? && forall k :: 0 <= k < |steps| ==> RoutedByFile(ss[k], steps[k], x, config)
    requires x in ss[i].g.acts && (ss[i].g.acts[x].stage.Settled? || ss[i].g.acts[x].stage.Finished?)
    ensures config.Obj?
    ensures var a := ss[i].g.acts[x];
            G.SettledChannel(a.stage.result).Some? ==>
              exists model, answer ::
                RF.FileLeads(config, model, answer, "order.place", a.job.amount, G.SettledChannel(a.stage.result).value)
  {
    RF.LoadedRules(config);
    RunFollows(cfg, max, ss, steps, x, config, i);
    assert ConclusionOk(ss[i], x) by { RunKeeps(cfg, max, ss, steps, x, i); }
    if G.SettledChannel(ss[i].g.acts[x].stage.result).Some? {
      assert Decided(ss[i], x)[0] in Decided(ss[i], x);
    }
  }
}
