/** How the agent picks a channel: a validated rule table, first match wins, the LLM only chooses from the allowlist. */
module Routing {
  import opened Common
  import opened Wire

  const LLM := "llm"

  datatype Rule = Rule(actionType: string, maxAmount: Option<int>, channel: string, fallback: Option<string>)

  datatype Table = Table(allowed: seq<string>, rules: seq<Rule>)

  // ---------- load-time validation ----------

  predicate IsName(j: Json) { j.Str? && j.s != "" }

  /** Python's `isinstance(x, int)`: booleans are integers. */
  predicate IsInt(j: Json) { j.Int? || j.Bool? }

  function IntValue(j: Json): int
    requires IsInt(j)
  {
    match j case Int(n) => n case Bool(b) => if b then 1 else 0
  }

  function Strings(items: seq<Json>): seq<string>
    requires forall j :: j in items ==> j.Str?
  {
    if items == [] then []
    else
      assert items[0] in items;
      [items[0].s] + Strings(items[1..])
  }

  function Letters(s: string): seq<string> { if s == "" then [] else [[s[0]]] + Letters(s[1..]) }

  /** The keys of a dictionary in some order. */
  ghost function InSomeOrder(keys: set<string>): seq<string>
    ensures forall k :: k in InSomeOrder(keys) <==> k in keys
  {
    if keys == {} then []
    else
      var k :| k in keys;
      [k] + InSomeOrder(keys - {k})
  }

  /**
   `list(_ALLOWED)`, if the value of "allowed_channels" passes: a string yields its letters, a dictionary its keys.
   */
  ghost function Listed(allowed: Json): Option<seq<string>> {
    match allowed
    case Arr(items) => if items == [] || exists j :: j in items && !IsName(j) then None else Some(Strings(items))
    case Str(s) => if s == "" then None else Some(Letters(s))
    case Obj(fields) => if fields == map[] || "" in fields then None else Some(InSomeOrder(fields.Keys))
    case _ => None
  }

  predicate StandsAt(s: string, part: string, i: nat) { i + |part| <= |s| && s[i..i + |part|] == part }

  predicate Contains(s: string, part: string) { exists i :: 0 <= i <= |s| && StandsAt(s, part, i) }

  /** `j in _ALLOWED`: membership in a list, a key of a dictionary, but any substring of a string. */
  predicate InAllowed(allowed: Json, j: Json) {
    match allowed
    case Arr(items) => j in items
    case Obj(fields) => j.Str? && j.s in fields
    case Str(s) => j.Str? && Contains(s, j.s)
    case _ => false
  }

  predicate RuleIsValid(rule: Json, allowed: Json, names: seq<string>) {
    && rule.Obj?
    && Get(rule.fields, "channel").Str?
    && (Get(rule.fields, "channel").s in names || Get(rule.fields, "channel").s == LLM)
    && Get(rule.fields, "action_type").Str?
    && ("max_amount_cents" in rule.fields ==> IsInt(rule.fields["max_amount_cents"]))
    && ("fallback_channel" in rule.fields ==>
          && InAllowed(allowed, rule.fields["fallback_channel"])
          && rule.fields["fallback_channel"].Str?
          && Get(rule.fields, "channel").s == LLM)
  }

  function ReadRule(rule: Json, allowed: Json, names: seq<string>): Rule
    requires RuleIsValid(rule, allowed, names)
  {
    var f := rule.fields;
    Rule(Get(f, "action_type").s,
         if "max_amount_cents" in f then Some(IntValue(f["max_amount_cents"])) else None,
         Get(f, "channel").s,
         if "fallback_channel" in f then Some(f["fallback_channel"].s) else None)
  }

  function ReadRules(rules: seq<Json>, allowed: Json, names: seq<string>): seq<Rule>
    requires forall r :: r in rules ==> RuleIsValid(r, allowed, names)
  {
    if rules == [] then [] else [ReadRule(rules[0], allowed, names)] + ReadRules(rules[1..], allowed, names)
  }

  /** `config.get(key, [])`. */
  function Setting(config: Json, key: string): Json
    requires config.Obj?
  {
    if key in config.fields then config.fields[key] else Arr([])
  }

  /** The rules the loader walks over; None when it cannot. */
  function Rules(config: Json): Option<seq<Json>>
    requires config.Obj?
  {
    match Setting(config, "rules")
    case Arr(items) => Some(items)
    case Obj(fields) => if fields == map[] then Some([]) else None
    case Str(s) => if s == "" then Some([]) else None
    case _ => None
  }

  /** Importing `rules.py` with this parsed file: None when the boot fails. */
  ghost function Load(config: Json): Option<Table> {
    if !config.Obj? then None
    else
      var allowed, rules := Setting(config, "allowed_channels"), Rules(config);
      var names := Listed(allowed);
      if names.None? || rules.None? then None
      else if exists r :: r in rules.value && !RuleIsValid(r, allowed, names.value) then None
      else Some(Table(names.value, ReadRules(rules.value, allowed, names.value)))
  }

  /** Every channel the table can lead to is on its allowlist. */
  ghost predicate Sound(t: Table) {
    && t.allowed != []
    && forall r :: r in t.rules ==>
         && (r.channel in t.allowed || r.channel == LLM)
         && (r.fallback.Some? ==> r.fallback.value in t.allowed && r.channel == LLM)
  }

  /** "allowed_channels" is a JSON string, and some rule's fallback is not a single letter. */
  ghost predicate LooseFallback(config: Json)
    requires Load(config).Some?
  {
    && Setting(config, "allowed_channels").Str?
    && exists r :: r in Rules(config).value && r.Obj? && "fallback_channel" in r.fields
                   && r.fields["fallback_channel"].Str? && |r.fields["fallback_channel"].s| != 1
  }

  lemma {:induction false} StringsMembers(items: seq<Json>)
    requires forall j :: j in items ==> j.Str?
    ensures |Strings(items)| == |items|
    ensures forall c :: c in Strings(items) <==> Str(c) in items
  {
    if items != [] {
      assert items == [items[0]] + items[1..];
      assert items[0] in items;
      StringsMembers(items[1..]);
      assert Strings(items) == [items[0].s] + Strings(items[1..]);
      forall c ensures c in Strings(items) <==> Str(c) in items {
        assert c in Strings(items) <==> c == items[0].s || c in Strings(items[1..]);
        assert Str(c) in items <==> Str(c) == items[0] || Str(c) in items[1..];
      }
    }
  }

  lemma {:induction false} LettersMembers(s: string)
    ensures |Letters(s)| == |s|
    ensures forall c :: c in Letters(s) <==> |c| == 1 && c[0] in s
  {
    if s != "" {
      LettersMembers(s[1..]);
      assert s == [s[0]] + s[1..];
      assert Letters(s) == [[s[0]]] + Letters(s[1..]);
      forall c ensures c in Letters(s) <==> |c| == 1 && c[0] in s {
        assert c in Letters(s) <==> c == [s[0]] || c in Letters(s[1..]);
        assert |c| == 1 ==> (c[0] in s <==> c[0] == s[0] || c[0] in s[1..]) && c == [c[0]];
      }
    }
  }

  /** Membership in the raw value and in the list agree, but for substrings of a string. */
  lemma AllowedMeansListed(allowed: Json, c: string)
    requires Listed(allowed).Some?
    ensures InAllowed(allowed, Str(c)) && (allowed.Str? ==> |c| == 1) ==> c in Listed(allowed).value
    ensures allowed.Str? && |c| != 1 ==> c !in Listed(allowed).value
  {
    match allowed {
      case Arr(items) =>
        assert forall j :: j in items ==> IsName(j);
        StringsMembers(items);
      case Str(s) =>
        LettersMembers(s);
        if InAllowed(allowed, Str(c)) && |c| == 1 {
          var i :| 0 <= i <= |s| && StandsAt(s, c, i);
          assert s[i] == s[i..i + 1][0] && s[i] in s;
        }
      case Obj(_) =>
    }
  }

  lemma ListIsNotEmpty(allowed: Json)
    requires Listed(allowed).Some?
    ensures Listed(allowed).value != []
  {
    match allowed {
      case Arr(items) =>
        assert forall j :: j in items ==> IsName(j);
        StringsMembers(items);
      case Str(s) => LettersMembers(s);
      case Obj(fields) =>
        assert fields.Keys == {} ==> fields == map[];
        var k :| k in fields.Keys;
        assert k in InSomeOrder(fields.Keys);
    }
  }

  lemma {:induction false} RulesMembers(rules: seq<Json>, allowed: Json, names: seq<string>)
    requires forall r :: r in rules ==> RuleIsValid(r, allowed, names)
    ensures |ReadRules(rules, allowed, names)| == |rules|
    ensures forall i :: 0 <= i < |rules| ==>
              rules[i] in rules && ReadRules(rules, allowed, names)[i] == ReadRule(rules[i], allowed, names)
  {
    if rules != [] {
      assert rules[0] in rules;
      RulesMembers(rules[1..], allowed, names);
      forall i | 0 <= i < |rules|
        ensures rules[i] in rules && ReadRules(rules, allowed, names)[i] == ReadRule(rules[i], allowed, names)
      {
        if i > 0 { assert rules[i] == rules[1..][i - 1]; }
      }
    }
  }

  /** A table that survives loading is sound iff its allowlist was not a string with a longer or empty fallback. */
  lemma LoadedTablesAreSoundIff(config: Json)
    requires Load(config).Some?
    ensures Sound(Load(config).value) <==> !LooseFallback(config)
  {
    var allowed, rules, t := Setting(config, "allowed_channels"), Rules(config).value, Load(config).value;
    RulesMembers(rules, allowed, t.allowed);
    ListIsNotEmpty(allowed);
    if LooseFallback(config) {
      var i :| 0 <= i < |rules| && rules[i].Obj? && "fallback_channel" in rules[i].fields
               && rules[i].fields["fallback_channel"].Str? && |rules[i].fields["fallback_channel"].s| != 1;
      AllowedMeansListed(allowed, rules[i].fields["fallback_channel"].s);
      assert t.rules[i] in t.rules;
    } else {
      forall r | r in t.rules
        ensures (r.channel in t.allowed || r.channel == LLM)
             && (r.fallback.Some? ==> r.fallback.value in t.allowed && r.channel == LLM)
      {
        var i :| 0 <= i < |t.rules| && t.rules[i] == r;
        assert rules[i] in rules && RuleIsValid(rules[i], allowed, t.allowed);
        if r.fallback.Some? { AllowedMeansListed(allowed, r.fallback.value); }
      }
    }
  }

  /** A rule that delegates to the LLM and falls back to "mock_erp". */
  function StringRule(): map<string, Json> {
    map["action_type" := Str("order.place"), "channel" := Str(LLM), "fallback_channel" := Str("mock_erp")]
  }

  /** A rule file whose allowlist is the string "mock_erp", with that rule. */
  function StringConfig(): Json {
    Obj(map["allowed_channels" := Str("mock_erp"), "rules" := Arr([Obj(StringRule())])])
  }

  lemma StringRuleIsValid(names: seq<string>)
    ensures RuleIsValid(Obj(StringRule()), Str("mock_erp"), names)
    ensures ReadRule(Obj(StringRule()), Str("mock_erp"), names) == Rule("order.place", None, LLM, Some("mock_erp"))
  {
    assert StandsAt("mock_erp", "mock_erp", 0);
  }

  lemma StringConfigLoads()
    ensures Load(StringConfig()) == Some(Table(Letters("mock_erp"), [Rule("order.place", None, LLM, Some("mock_erp"))]))
  {
    var config, rule, names := StringConfig(), Obj(StringRule()), Letters("mock_erp");
    StringRuleIsValid(names);
    assert Setting(config, "allowed_channels") == Str("mock_erp") && Rules(config) == Some([rule]);
    assert [rule][1..] == [];
    assert ReadRules([rule], Str("mock_erp"), names) == [ReadRule(rule, Str("mock_erp"), names)];
  }

  /** It loads, and without an LLM an order goes to a name that `allowed_channels()` does not list. */
  lemma StringAllowlistSlips(answer: Answer, amount: int, ask: string -> ChannelAnswer)
    ensures Load(StringConfig()).Some?
    ensures var t := Load(StringConfig()).value;
            && "mock_erp" !in t.allowed
            && DecideAndExecute(t, "", answer, "order.place", amount, ask).sent == ["mock_erp"]
  {
    StringConfigLoads();
    NotALetter("mock_erp");
    FallsBack(Load(StringConfig()).value, answer, amount, ask, "mock_erp");
  }

  lemma NotALetter(s: string)
    requires |s| != 1
    ensures s !in Letters(s)
  {
    LettersMembers(s);
  }

  lemma FallsBack(t: Table, answer: Answer, amount: int, ask: string -> ChannelAnswer, f: string)
    requires t.rules == [Rule("order.place", None, LLM, Some(f))]
    ensures DecideAndExecute(t, "", answer, "order.place", amount, ask).sent == [f]
  {
    assert Matches(t.rules[0], "order.place", amount);
  }

  // ---------- first match ----------

  predicate Matches(r: Rule, actionType: string, amount: int) {
    r.actionType == actionType && (r.maxAmount.Some? ==> amount <= r.maxAmount.value)
  }

  /** `_match`: the index of the first matching rule, or -1. */
  function MatchIndex(rules: seq<Rule>, actionType: string, amount: int): (i: int)
    ensures -1 <= i < |rules|
  {
    if rules == [] then -1
    else if Matches(rules[0], actionType, amount) then 0
    else
      var i := MatchIndex(rules[1..], actionType, amount);
      if i < 0 then -1 else i + 1
  }

  function Evaluate(t: Table, actionType: string, amount: int): Option<string> {
    var i := MatchIndex(t.rules, actionType, amount);
    if i < 0 then None else Some(t.rules[i].channel)
  }

  function FallbackChannel(t: Table, actionType: string, amount: int): Option<string> {
    var i := MatchIndex(t.rules, actionType, amount);
    if i < 0 then None else t.rules[i].fallback
  }

  /** The rule is for this type of action and has no ceiling, or one that the amount does not exceed. */
  predicate Covers(r: Rule, actionType: string, amount: int) {
    r.actionType == actionType && (r.maxAmount == None || r.maxAmount.value >= amount)
  }

  /** The index is that of a rule of this type without a smaller ceiling, and no rule before it is one. */
  lemma {:induction false} MatchIsFirst(rules: seq<Rule>, actionType: string, amount: int)
    ensures var i := MatchIndex(rules, actionType, amount);
            && (i >= 0 ==> Covers(rules[i], actionType, amount))
            && forall j :: 0 <= j < (if i < 0 then |rules| else i) ==> !Covers(rules[j], actionType, amount)
  {
    if rules != [] && !Matches(rules[0], actionType, amount) {
      MatchIsFirst(rules[1..], actionType, amount);
      var i := MatchIndex(rules, actionType, amount);
      forall j | 0 <= j < (if i < 0 then |rules| else i) ensures !Covers(rules[j], actionType, amount) {
        if j > 0 { assert rules[j] == rules[1..][j - 1]; }
      }
    }
  }

  /** If some rule takes an amount, then every smaller amount is taken too, by that rule or an earlier one. */
  lemma {:induction false} MatchIsMonotone(rules: seq<Rule>, actionType: string, amount: int, smaller: int)
    requires smaller <= amount && MatchIndex(rules, actionType, amount) >= 0
    ensures 0 <= MatchIndex(rules, actionType, smaller) <= MatchIndex(rules, actionType, amount)
  {
    MatchIsFirst(rules, actionType, amount);
    MatchIsFirst(rules, actionType, smaller);
    assert Covers(rules[MatchIndex(rules, actionType, amount)], actionType, smaller);
  }

  // ---------- the LLM's one decision ----------

  /** What came back from the completion call: nothing usable, or a text (None when it is not JSON). */
  datatype Answer = Unreachable | Text(parsed: Option<Json>)

  function FindChannel(allowed: seq<string>, c: string): Option<string> {
    if allowed == [] then None else if allowed[0] == c then Some(c) else FindChannel(allowed[1..], c)
  }

  /** `_validate`. */
  function Validate(parsed: Option<Json>, allowed: seq<string>): Option<string> {
    if parsed.None? || !parsed.value.Obj? || parsed.value.fields.Keys != {"channel"} then None
    else
      var v := parsed.value.fields["channel"];
      if v.Str? then FindChannel(allowed, v.s) else None
  }

  lemma {:induction false} FindChannelIff(allowed: seq<string>, c: string)
    ensures FindChannel(allowed, c) == if c in allowed then Some(c) else None
  {
    if allowed != [] {
      FindChannelIff(allowed[1..], c);
      assert c in allowed <==> c == allowed[0] || c in allowed[1..];
    }
  }

  /** Exactly one shape of text chooses a channel: the object with that one key and an allowed name. */
  lemma ValidateIff(parsed: Option<Json>, allowed: seq<string>, c: string)
    ensures Validate(parsed, allowed) == Some(c) <==> c in allowed && parsed == Some(Obj(map["channel" := Str(c)]))
  {
    if parsed.Some? && parsed.value.Obj? && parsed.value.fields.Keys == {"channel"} {
      var f := parsed.value.fields;
      assert f == map["channel" := f["channel"]];
      if f["channel"].Str? {
        FindChannelIff(allowed, f["channel"].s);
      }
    }
    FindChannelIff(allowed, c);
    assert map["channel" := Str(c)].Keys == {"channel"};
  }

  // ---------- routing one action ----------

  datatype Decision = Decision(channel: Option<string>, decidedBy: string)

  /** The routing part of `_decide_and_execute`; `model` is "" when the deployment has no LLM. */
  function Decide(t: Table, model: string, answer: Answer, actionType: string, amount: int): Decision {
    var decision := Evaluate(t, actionType, amount);
    if decision == Some(LLM) && model == "" then Decision(FallbackChannel(t, actionType, amount), "rules")
    else if decision == Some(LLM) then
      var picked := if answer.Text? then Validate(answer.parsed, t.allowed) else None;
      Decision(picked, if picked.Some? then "llm" else "rules")
    else Decision(decision, "rules")
  }

  /** What a channel does with an action: it takes it and says so, takes it unheard (a timeout, say), or does not. */
  datatype ChannelAnswer = Taken(reference: string) | Unheard | NotTaken

  /** What handling an action leaves behind: the reply, the channels it was sent to, and whether one took it. */
  datatype Handling = Handling(reply: Reply, sent: seq<string>, took: bool)

  /** `_decide_and_execute`; `ask` is what each channel would answer. */
  function DecideAndExecute(
    t: Table, model: string, answer: Answer, actionType: string, amount: int, ask: string -> ChannelAnswer): Handling
  {
    var d := Decide(t, model, answer, actionType, amount);
    if d.channel.None? then Handling(Undecided, [], false)
    else
      var c := d.channel.value;
      match ask(c)
      case Taken(reference) => Handling(Done(c, d.decidedBy, reference), [c], true)
      case Unheard => Handling(ChannelFailed(c, d.decidedBy), [c], true)
      case NotTaken => Handling(ChannelFailed(c, d.decidedBy), [c], false)
  }

  /**
   Whatever the LLM says: a dispatched channel is on the allowlist; the LLM decides only where the matching rule
   delegates to a configured one; the fallback applies only where none is configured; otherwise nothing is sent.
   */
  lemma RoutingIsClosed(t: Table, model: string, answer: Answer, actionType: string, amount: int)
    requires Sound(t)
    ensures var d, i := Decide(t, model, answer, actionType, amount), MatchIndex(t.rules, actionType, amount);
            && (d.channel.Some? ==> d.channel.value in t.allowed && i >= 0)
            && (d.decidedBy == "llm" ==> d.channel.Some? && model != "" && t.rules[i].channel == LLM
                                         && answer == Text(Some(Obj(map["channel" := Str(d.channel.value)]))))
            && (d.decidedBy == "rules" && d.channel.Some? ==>
                  if t.rules[i].channel == LLM then model == "" && t.rules[i].fallback == d.channel
                  else t.rules[i].channel == d.channel.value)
            && (d.decidedBy == "llm" || d.decidedBy == "rules")
  {
    var i := MatchIndex(t.rules, actionType, amount);
    if i >= 0 {
      assert t.rules[i] in t.rules;
      if t.rules[i].channel == LLM && model != "" && answer.Text? {
        var picked := Validate(answer.parsed, t.allowed);
        if picked.Some? {
          ValidateIff(answer.parsed, t.allowed, picked.value);
        }
      }
    }
  }

  /**
   The first matching rule leads to channel c: by name, by fallback without an LLM, or by the LLM's allowed choice.
   */
  ghost predicate Leads(t: Table, model: string, answer: Answer, actionType: string, amount: int, c: string) {
    var i := MatchIndex(t.rules, actionType, amount);
    && i >= 0
    && var r := t.rules[i];
       || (r.channel != LLM && r.channel == c)
       || (r.channel == LLM && model == "" && r.fallback == Some(c))
       || (r.channel == LLM && model != "" && c in t.allowed && answer == Text(Some(Obj(map["channel" := Str(c)]))))
  }

  lemma RoutingDecidesIff(t: Table, model: string, answer: Answer, actionType: string, amount: int, c: string)
    ensures Decide(t, model, answer, actionType, amount).channel == Some(c)
       <==> Leads(t, model, answer, actionType, amount, c)
  {
    if answer.Text? {
      ValidateIff(answer.parsed, t.allowed, c);
    }
  }

  /**
   An action is sent to the channel its first matching rule leads to, once, and to no other; when it leads to none
   nothing is sent and the reply says so; "executed" means that the channel it was sent to took it and said so.
   */
  lemma DispatchIff(
    t: Table, model: string, answer: Answer, actionType: string, amount: int, ask: string -> ChannelAnswer)
    ensures var h := DecideAndExecute(t, model, answer, actionType, amount, ask);
            && (forall c :: h.sent == [c] <==> Leads(t, model, answer, actionType, amount, c))
            && (h.sent == [] <==> forall c :: !Leads(t, model, answer, actionType, amount, c))
            && |h.sent| <= 1
            && (h.sent == [] <==> h.reply.Undecided?)
            && (h.sent != [] ==> h.reply.channel == h.sent[0])
            && (h.reply.Done? <==> h.sent != [] && ask(h.sent[0]).Taken?)
            && (h.took <==> h.sent != [] && !ask(h.sent[0]).NotTaken?)
            && CanHaveTaken(h.took, h.reply)
  {
    var h := DecideAndExecute(t, model, answer, actionType, amount, ask);
    forall c ensures h.sent == [c] <==> Leads(t, model, answer, actionType, amount, c) {
      RoutingDecidesIff(t, model, answer, actionType, amount, c);
    }
    if h.sent != [] {
      assert h.sent == [h.sent[0]];
    }
  }

  /** Every body the agent can return is understood by the gateway, field by field. */
  lemma AgentBodyRoundTrip(t: Table, model: string, answer: Answer, actionType: string, amount: int,
                           ask: string -> ChannelAnswer, id: ActionId, detail: string)
    requires forall c :: ask(c).Taken? ==> ask(c).reference != ""
    ensures var r := DecideAndExecute(t, model, answer, actionType, amount, ask).reply;
            WellFormed(r) && ParseOkBody(Some(Obj(ReplyBody(id, r, detail))), id) == Parsed(Meaning(r))
  {
    var r := DecideAndExecute(t, model, answer, actionType, amount, ask).reply;
    ReplyRoundTrip(id, r, detail);
  }
}
