/** What a rule file means, told by its raw JSON: which files load, and where each action then goes. */
module RuleFile {
  import opened Common
  import opened Wire
  import opened Routing

  // ---------- which files load ----------

  /** `allowed_channels` holds this name; a string holds its letters, an object its keys. */
  predicate Lists(config: Json, c: string)
    requires config.Obj?
  {
    && "allowed_channels" in config.fields
    && match config.fields["allowed_channels"]
       case Arr(items) => Str(c) in items
       case Str(s) => |c| == 1 && c[0] in s
       case Obj(fields) => c in fields
       case _ => false
  }

  /** There is an allowlist, it is not empty, and it holds nothing but names. */
  predicate AllowlistBoots(config: Json)
    requires config.Obj?
  {
    && "allowed_channels" in config.fields
    && match config.fields["allowed_channels"]
       case Arr(items) => items != [] && forall j :: j in items ==> j.Str? && j.s != ""
       case Str(s) => s != ""
       case Obj(fields) => fields != map[] && "" !in fields
       case _ => false
  }

  /** The rules, or nothing: no key, an empty object and an empty string all mean none. */
  predicate RulesBoot(config: Json)
    requires config.Obj?
  {
    "rules" in config.fields ==>
      match config.fields["rules"]
      case Arr(_) => true
      case Obj(fields) => fields == map[]
      case Str(s) => s == ""
      case _ => false
  }

  function RawRules(config: Json): seq<Json>
    requires config.Obj?
  {
    if "rules" in config.fields && config.fields["rules"].Arr? then config.fields["rules"].items else []
  }

  /** A fallback has to be in the allowlist as the file has it: any part of it, if it is a string. */
  predicate FallbackBoots(config: Json, c: string)
    requires config.Obj? && "allowed_channels" in config.fields
  {
    match config.fields["allowed_channels"]
    case Str(s) => exists i :: 0 <= i <= |s| && StandsAt(s, c, i)
    case _ => Lists(config, c)
  }

  /** A rule is refused for its channel, its action type, its ceiling, or its fallback. */
  predicate RuleBoots(config: Json, rule: Json)
    requires config.Obj? && "allowed_channels" in config.fields
  {
    && rule.Obj?
    && var f := rule.fields;
       && "channel" in f && f["channel"].Str? && (f["channel"].s == "llm" || Lists(config, f["channel"].s))
       && "action_type" in f && f["action_type"].Str?
       && ("max_amount_cents" in f ==> f["max_amount_cents"].Int? || f["max_amount_cents"].Bool?)
       && ("fallback_channel" in f ==>
             f["fallback_channel"].Str? && FallbackBoots(config, f["fallback_channel"].s) && f["channel"].s == "llm")
  }

  ghost predicate Boots(config: Json) {
    && config.Obj? && AllowlistBoots(config) && RulesBoot(config)
    && forall i :: 0 <= i < |RawRules(config)| ==> RuleBoots(config, RawRules(config)[i])
  }

  lemma ListedIff(config: Json, c: string)
    requires config.Obj? && Listed(Setting(config, "allowed_channels")).Some?
    ensures c in Listed(Setting(config, "allowed_channels")).value <==> Lists(config, c)
  {
    match Setting(config, "allowed_channels") {
      case Arr(items) =>
        assert forall j :: j in items ==> IsName(j);
        StringsMembers(items);
      case Str(s) => LettersMembers(s);
      case Obj(_) =>
    }
  }

  lemma AllowlistBootsIff(config: Json)
    requires config.Obj?
    ensures Listed(Setting(config, "allowed_channels")).Some? <==> AllowlistBoots(config)
  {}

  lemma RuleBootsIff(config: Json, rule: Json, names: seq<string>)
    requires config.Obj? && AllowlistBoots(config) && Listed(Setting(config, "allowed_channels")) == Some(names)
    ensures RuleIsValid(rule, Setting(config, "allowed_channels"), names) <==> RuleBoots(config, rule)
  {
    if rule.Obj? && Get(rule.fields, "channel").Str? {
      ListedIff(config, Get(rule.fields, "channel").s);
    }
  }

  /** Exactly which files survive loading. */
  lemma LoadsIff(config: Json)
    ensures Load(config).Some? <==> Boots(config)
  {
    if config.Obj? {
      AllowlistBootsIff(config);
      var names, rules := Listed(Setting(config, "allowed_channels")), Rules(config);
      if names.Some? && rules.Some? {
        assert rules.value == RawRules(config);
        forall i | 0 <= i < |rules.value|
          ensures RuleIsValid(rules.value[i], Setting(config, "allowed_channels"), names.value)
             <==> RuleBoots(config, rules.value[i])
        {
          RuleBootsIff(config, rules.value[i], names.value);
        }
      }
    }
  }

  // ---------- where an action goes ----------

  /** The number a ceiling stands for; true and false are 1 and 0. */
  function Ceiling(j: Json): int {
    match j
    case Int(n) => n
    case Bool(b) => if b then 1 else 0
    case _ => 0
  }

  /** The rule is for this type of action, and has no ceiling or one that is at least the amount. */
  predicate RawCovers(rule: Json, actionType: string, amount: int) {
    && rule.Obj? && Says(rule.fields, "action_type", actionType)
    && ("max_amount_cents" in rule.fields ==> Ceiling(rule.fields["max_amount_cents"]) >= amount)
  }

  predicate FirstRule(config: Json, actionType: string, amount: int, i: int)
    requires config.Obj?
  {
    && 0 <= i < |RawRules(config)| && RawCovers(RawRules(config)[i], actionType, amount)
    && forall j :: 0 <= j < i ==> !RawCovers(RawRules(config)[j], actionType, amount)
  }

  /** The rule itself names the channel, or its fallback does without an LLM, or the LLM does. */
  predicate RuleLeads(config: Json, rule: Json, model: string, answer: Answer, c: string)
    requires config.Obj?
  {
    && rule.Obj?
    && var f := rule.fields;
       || (Says(f, "channel", c) && c != "llm")
       || (Says(f, "channel", "llm") && model == "" && Says(f, "fallback_channel", c))
       || (Says(f, "channel", "llm") && model != "" && Lists(config, c)
           && answer == Text(Some(Obj(map["channel" := Str(c)]))))
  }

  ghost predicate FileLeads(config: Json, model: string, answer: Answer, actionType: string, amount: int, c: string)
    requires config.Obj?
  {
    exists i :: FirstRule(config, actionType, amount, i) && RuleLeads(config, RawRules(config)[i], model, answer, c)
  }

  lemma LoadedRules(config: Json)
    requires Load(config).Some?
    ensures config.Obj? && |Load(config).value.rules| == |RawRules(config)|
    ensures var allowed, t := Setting(config, "allowed_channels"), Load(config).value;
            && Listed(allowed) == Some(t.allowed)
            && forall i :: 0 <= i < |t.rules| ==>
                 RuleIsValid(RawRules(config)[i], allowed, t.allowed)
                 && t.rules[i] == ReadRule(RawRules(config)[i], allowed, t.allowed)
  {
    var allowed, t := Setting(config, "allowed_channels"), Load(config).value;
    assert Rules(config).value == RawRules(config);
    RulesMembers(RawRules(config), allowed, t.allowed);
  }

  lemma CoversIff(config: Json, i: nat, actionType: string, amount: int)
    requires Load(config).Some? && i < |Load(config).value.rules|
    ensures config.Obj? && i < |RawRules(config)|
    ensures Covers(Load(config).value.rules[i], actionType, amount)
       <==> RawCovers(RawRules(config)[i], actionType, amount)
  {
    LoadedRules(config);
  }

  /** The rule that the loaded table finds is the first in the file that covers the action, and none if none does. */
  lemma FirstRuleIff(config: Json, actionType: string, amount: int)
    requires Load(config).Some?
    ensures config.Obj?
    ensures var i := MatchIndex(Load(config).value.rules, actionType, amount);
            && (forall k :: FirstRule(config, actionType, amount, k) <==> k == i >= 0)
            && (i < 0 <==> forall k :: 0 <= k < |RawRules(config)| ==>
                             !RawCovers(RawRules(config)[k], actionType, amount))
  {
    var rules := Load(config).value.rules;
    var i := MatchIndex(rules, actionType, amount);
    LoadedRules(config);
    MatchIsFirst(rules, actionType, amount);
    forall k | 0 <= k < |rules|
      ensures Covers(rules[k], actionType, amount) <==> RawCovers(RawRules(config)[k], actionType, amount)
    {
      CoversIff(config, k, actionType, amount);
    }
  }

  lemma RuleLeadsIff(config: Json, i: nat, model: string, answer: Answer, c: string)
    requires Load(config).Some? && i < |Load(config).value.rules|
    ensures config.Obj? && i < |RawRules(config)|
    ensures var t, r := Load(config).value, Load(config).value.rules[i];
            RuleLeads(config, RawRules(config)[i], model, answer, c)
            <==> (|| (r.channel != LLM && r.channel == c)
                  || (r.channel == LLM && model == "" && r.fallback == Some(c))
                  || (r.channel == LLM && model != "" && c in t.allowed
                      && answer == Text(Some(Obj(map["channel" := Str(c)])))))
  {
    LoadedRules(config);
    ListedIff(config, c);
  }

  /**
   For every file that loads, every answer of the LLM and every channel: an action is sent to a channel, and only there,
   if and only if the first rule in the file that covers it leads there.
   */
  lemma FileDecidesIff(config: Json, model: string, answer: Answer, actionType: string, amount: int,
                       ask: string -> ChannelAnswer, c: string)
    requires Load(config).Some?
    ensures config.Obj?
    ensures DecideAndExecute(Load(config).value, model, answer, actionType, amount, ask).sent == [c]
       <==> FileLeads(config, model, answer, actionType, amount, c)
  {
    var t := Load(config).value;
    var i := MatchIndex(t.rules, actionType, amount);
    DispatchIff(t, model, answer, actionType, amount, ask);
    FirstRuleIff(config, actionType, amount);
    if i >= 0 {
      RuleLeadsIff(config, i, model, answer, c);
      assert FirstRule(config, actionType, amount, i);
    }
  }

  // ---------- the file as shipped ----------

  function ShippedRule(): Json {
    Obj(map["action_type" := Str("order.place"), "max_amount_cents" := Int(20000), "channel" := Str("mock_erp")])
  }

  function ShippedLast(): Json {
    Obj(map["action_type" := Str("order.place"), "channel" := Str("llm"), "fallback_channel" := Str("mock_erp")])
  }

  function ShippedFile(): Json {
    Obj(map["allowed_channels" := Arr([Str("mock_erp"), Str("slack_stub"), Str("email_stub")]),
            "rules" := Arr([ShippedRule(), ShippedLast()])])
  }

  /** It loads; an order up to 20000 goes to the ERP, a larger one where a configured LLM says, if that is allowed. */
  lemma ShippedFileDecides(model: string, answer: Answer, amount: int, ask: string -> ChannelAnswer, c: string)
    ensures Load(ShippedFile()).Some?
    ensures DecideAndExecute(Load(ShippedFile()).value, model, answer, "order.place", amount, ask).sent == [c]
       <==> if amount <= 20000 || model == "" then c == "mock_erp"
            else c in {"mock_erp", "slack_stub", "email_stub"} && answer == Text(Some(Obj(map["channel" := Str(c)])))
  {
    var config, first, last := ShippedFile(), ShippedRule(), ShippedLast();
    assert RawRules(config) == [first, last] && RawRules(config)[0] == first && RawRules(config)[1] == last;
    ShippedFileBoots();
    LoadsIff(config);
    FileDecidesIff(config, model, answer, "order.place", amount, ask, c);
    ShippedFirst(amount);
    assert Lists(config, c) <==> c in {"mock_erp", "slack_stub", "email_stub"};
  }

  lemma ShippedFirst(amount: int)
    ensures forall i :: FirstRule(ShippedFile(), "order.place", amount, i) <==> i == if amount <= 20000 then 0 else 1
  {
    var config, first, last := ShippedFile(), ShippedRule(), ShippedLast();
    assert RawRules(config) == [first, last] && RawRules(config)[0] == first && RawRules(config)[1] == last;
    assert FirstRule(config, "order.place", amount, if amount <= 20000 then 0 else 1);
  }

  lemma ShippedFileBoots()
    ensures Boots(ShippedFile())
  {
    var config := ShippedFile();
    assert Str("mock_erp") in config.fields["allowed_channels"].items;
    assert RuleBoots(config, ShippedRule());
    assert RuleBoots(config, ShippedLast());
    assert RawRules(config) == [ShippedRule(), ShippedLast()];
  }
}
