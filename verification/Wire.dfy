/** What travels between the gateway and the internal agent, and how each side checks it. */
module Wire {
  import opened Common

  /** A parsed JSON value. */
  datatype Json = Null | Bool(b: bool) | Int(n: int) | Float(x: real) | Str(s: string)
                | Arr(items: seq<Json>) | Obj(fields: map<string, Json>)

  /** `dict.get(key)`: absent keys read as None. */
  function Get(fields: map<string, Json>, key: string): Json {
    if key in fields then fields[key] else Null
  }

  /** Lists and dicts cannot be looked up in a set: `in` raises TypeError. */
  predicate Hashable(j: Json) { !j.Arr? && !j.Obj? }

  // ---------- the agent's reply ----------

  /** The bodies that `_decide_and_execute` can return. */
  datatype Reply = Undecided
                 | ChannelFailed(channel: string, decidedBy: string)
                 | Done(channel: string, decidedBy: string, reference: string)

  predicate WellFormed(r: Reply) {
    && (r.ChannelFailed? || r.Done? ==> r.decidedBy == "rules" || r.decidedBy == "llm")
    && (r.Done? ==> r.reference != "")
  }

  /** Whether the channel can have taken the action behind a reply: a failure may hide that it did. */
  predicate CanHaveTaken(took: bool, r: Reply) { (r.Done? ==> took) && (r.Undecided? ==> !took) }

  function ReplyBody(id: ActionId, r: Reply, detail: string): map<string, Json> {
    match r
    case Undecided =>
      map["action_id" := Str(id), "status" := Str("failed"), "channel" := Null,
          "decided_by" := Null, "reference" := Null, "detail" := Str(detail)]
    case ChannelFailed(channel, who) =>
      map["action_id" := Str(id), "status" := Str("failed"), "channel" := Str(channel),
          "decided_by" := Str(who), "reference" := Null, "detail" := Str(detail)]
    case Done(channel, who, reference) =>
      map["action_id" := Str(id), "status" := Str("executed"), "channel" := Str(channel),
          "decided_by" := Str(who), "reference" := Str(reference), "detail" := Str(detail)]
  }

  // ---------- the gateway's reading of it ----------

  datatype Result = Ok(executed: bool, channel: Option<string>, decidedBy: Option<string>, reference: Option<string>)
                  | Down
                  | Unknown

  datatype Parse = Raises | Malformed | Parsed(result: Result)

  function AsString(j: Json): Option<string> { if j.Str? then Some(j.s) else None }

  /** `_parse_ok_body`; `body` is None when the bytes are not JSON. */
  function ParseOkBody(body: Option<Json>, expected: ActionId): Parse {
    if body.None? || !body.value.Obj? then Malformed
    else
      var d := body.value.fields;
      var status, channel := Get(d, "status"), Get(d, "channel");
      var who, reference := Get(d, "decided_by"), Get(d, "reference");
      if Get(d, "action_id") != Str(expected) then Malformed
      else if !Hashable(status) then Raises
      else if status != Str("executed") && status != Str("failed") then Malformed
      else if status == Str("executed") && !channel.Str? then Malformed
      else if status == Str("executed") && !Hashable(who) then Raises
      else if status == Str("executed") && who != Str("rules") && who != Str("llm") then Malformed
      else if status == Str("executed") && (!reference.Str? || reference.s == "") then Malformed
      else Parsed(Ok(status == Str("executed"), AsString(channel), AsString(who), AsString(reference)))
  }

  /** The text under a key, if there is one. */
  predicate Says(d: map<string, Json>, key: string, text: string) { key in d && d[key] == Str(text) }

  /** What a result may quote from a field: its text, and nothing if the field is missing or no text. */
  predicate Quotes(quoted: Option<string>, d: map<string, Json>, key: string) {
    match quoted
    case Some(text) => Says(d, key, text)
    case None => key !in d || !d[key].Str?
  }

  predicate QuotesAll(r: Result, d: map<string, Json>)
    requires r.Ok?
  {
    Quotes(r.channel, d, "channel") && Quotes(r.decidedBy, d, "decided_by") && Quotes(r.reference, d, "reference")
  }

  /** The body reports, for this action and in full, that it was executed. */
  predicate ReportsExecuted(body: Option<Json>, id: ActionId) {
    && body.Some? && body.value.Obj? && Says(body.value.fields, "action_id", id)
    && var d := body.value.fields;
       && Says(d, "status", "executed") && "channel" in d && d["channel"].Str?
       && (Says(d, "decided_by", "rules") || Says(d, "decided_by", "llm"))
       && "reference" in d && d["reference"].Str? && d["reference"].s != ""
  }

  /** The body reports for this action that it failed; the other fields may be anything. */
  predicate ReportsFailed(body: Option<Json>, id: ActionId) {
    && body.Some? && body.value.Obj?
    && Says(body.value.fields, "action_id", id) && Says(body.value.fields, "status", "failed")
  }

  /** The body is this action's, and a set lookup on it raises: a list or an object for a status or a decider. */
  predicate Unreadable(body: Option<Json>, id: ActionId) {
    && body.Some? && body.value.Obj? && Says(body.value.fields, "action_id", id)
    && var d := body.value.fields;
       || ("status" in d && (d["status"].Arr? || d["status"].Obj?))
       || (Says(d, "status", "executed") && "channel" in d && d["channel"].Str?
           && "decided_by" in d && (d["decided_by"].Arr? || d["decided_by"].Obj?))
  }

  /** Exactly which bodies are accepted and as what, which raise, and that all others are malformed. */
  lemma ParsedIff(body: Option<Json>, id: ActionId)
    ensures ParseOkBody(body, id).Parsed? <==> ReportsExecuted(body, id) || ReportsFailed(body, id)
    ensures ParseOkBody(body, id).Raises? <==> Unreadable(body, id)
    ensures ParseOkBody(body, id).Parsed? ==>
              var r := ParseOkBody(body, id).result;
              r.Ok? && (r.executed <==> ReportsExecuted(body, id)) && QuotesAll(r, body.value.fields)
  {}

  /** The result an intact reply must be read as. */
  function Meaning(r: Reply): Result {
    match r
    case Undecided => Ok(false, None, None, None)
    case ChannelFailed(channel, who) => Ok(false, Some(channel), Some(who), None)
    case Done(channel, who, reference) => Ok(true, Some(channel), Some(who), Some(reference))
  }

  /** Every reply the agent can give survives the trip: it is never read as malformed, and loses no field. */
  lemma ReplyRoundTrip(id: ActionId, r: Reply, detail: string)
    requires WellFormed(r)
    ensures ParseOkBody(Some(Obj(ReplyBody(id, r, detail))), id) == Parsed(Meaning(r))
  {
    var d := ReplyBody(id, r, detail);
    assert Get(d, "action_id") == Str(id);
    match r {
      case Undecided => assert Get(d, "status") == Str("failed");
      case ChannelFailed(channel, who) => assert Get(d, "channel") == Str(channel) && Get(d, "status") == Str("failed");
      case Done(channel, who, reference) =>
        assert Get(d, "status") == Str("executed") && Get(d, "channel") == Str(channel)
            && Get(d, "decided_by") == Str(who) && Get(d, "reference") == Str(reference);
    }
  }

  /** A body that is accepted for one action is accepted for no other. */
  lemma AcceptedForOneAction(body: Option<Json>, a: ActionId, b: ActionId)
    requires ParseOkBody(body, a).Parsed? && ParseOkBody(body, b).Parsed?
    ensures a == b
  {}

  // ---------- the envelope ----------

  datatype Mode = WithinMandate | ApprovedByHuman

  datatype Payload = Payload(item: string, quantity: int, amount: int)

  datatype Mandate = Mandate(
    mode: Mode, limit: int, used: int, remaining: int, window: int, approvedBy: Option<string>)

  datatype Envelope = Envelope(
    id: ActionId, actionType: string, client: ClientId, requestedAt: Time, payload: Payload, mandate: Mandate)

  /** `_handoff_envelope`. */
  function BuildEnvelope(
    id: ActionId, job: Job, byHuman: bool, limit: int, used: int, window: int, now: Time): Envelope {
    Envelope(id, "order.place", job.client, now, Payload(job.item, job.quantity, job.amount),
             Mandate(if byHuman then ApprovedByHuman else WithinMandate, limit, used,
                     if limit - used > 0 then limit - used else 0, window, if byHuman then Some("admin") else None))
  }

  /** The bounds the gateway puts on an order (`Tier3OrderRequest`). */
  predicate OrderInBounds(item: string, quantity: int, amount: int) {
    1 <= |item| <= 200 && 0 < quantity <= 10_000 && 0 < amount <= 1_000_000
  }

  /** The bounds the agent puts on an envelope (`ActionEnvelope`, `Mandate`, `OrderPayload`). */
  predicate AgentAccepts(e: Envelope) {
    && 1 <= |e.id| <= 64 && e.actionType == "order.place"
    && 1 <= |e.client| <= 200
    && e.mandate.limit > 0 && e.mandate.used >= 0 && e.mandate.remaining >= 0 && e.mandate.window > 0
    && OrderInBounds(e.payload.item, e.payload.quantity, e.payload.amount)
  }

  /** Whoever sends it, no envelope reaches the dispatch whose numbers are out of bounds. */
  lemma AcceptedIsBounded(e: Envelope)
    requires AgentAccepts(e)
    ensures 1 <= |e.id| <= 64 && 1 <= |e.client| <= 200 && e.actionType == "order.place"
    ensures 1 <= |e.payload.item| <= 200 && 1 <= e.payload.quantity <= 10_000 && 1 <= e.payload.amount <= 1_000_000
    ensures e.mandate.limit >= 1 && e.mandate.used >= 0 && e.mandate.remaining >= 0 && e.mandate.window >= 1
  {}
}
