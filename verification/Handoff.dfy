/** One handoff: at most two deliveries of the same envelope, and what the gateway concludes. */
module Handoff {
  import opened Common
  import opened Wire

  /**
   What became of one attempt, by the exception that ended it. `_post_action` reports both `Refused` (nothing was
   sent) and `Dropped` (the connection broke after the request was sent) as "down".
   */
  datatype Attempt = Response(status: int, body: Option<Json>) | TimedOut | Refused | Dropped

  /** `execute_handoff` returns a result or lets a TypeError escape. */
  datatype Outcome = Raised | Returned(result: Result)

  /** The conclusion from the last attempt that was made. */
  function Conclude(last: Attempt, id: ActionId): Outcome {
    match last
    case TimedOut => Returned(Unknown)
    case Refused => Returned(Down)
    case Dropped => Returned(Down)
    case Response(status, body) =>
      if status != 200 then Returned(Down)
      else
        match ParseOkBody(body, id)
        case Raises => Raised
        case Malformed => Returned(Unknown)
        case Parsed(r) => Returned(r)
  }

  /** The attempt that decides: the retry if there was one. */
  function Deciding(first: Attempt, second: Attempt): Attempt {
    if first.TimedOut? then second else first
  }

  /** The attempts that the gateway takes for "not executed". */
  predicate TurnedAway(a: Attempt) { a.Refused? || a.Dropped? || (a.Response? && a.status != 200) }

  /** The gateway releases the reserved budget on these conclusions and on no others. */
  predicate Releases(o: Outcome) {
    o.Returned? && (o.result.Down? || (o.result.Ok? && !o.result.executed))
  }

  /** The reports after which the budget is given back: nothing came of the request, or a proper "failed" came back. */
  predicate Frees(last: Attempt, id: ActionId) {
    match last
    case Refused => true
    case Dropped => true
    case TimedOut => false
    case Response(status, body) => status == 200 ==> ReportsFailed(body, id)
  }

  /** What is concluded from an attempt, told by the raw body: a 200 that is no proper report never releases. */
  lemma ConcludeIff(last: Attempt, id: ActionId)
    ensures Releases(Conclude(last, id)) <==> Frees(last, id)
    ensures Conclude(last, id).Raised? <==> last.Response? && last.status == 200 && Unreadable(last.body, id)
    ensures (exists r :: Conclude(last, id) == Returned(r) && r.Ok? && r.executed)
       <==> last.Response? && last.status == 200 && ReportsExecuted(last.body, id)
    ensures Conclude(last, id) == Returned(Unknown)
       <==> last.TimedOut? || (last.Response? && last.status == 200 && !Unreadable(last.body, id)
                               && !ReportsExecuted(last.body, id) && !ReportsFailed(last.body, id))
  {
    if last.Response? { ParsedIff(last.body, id); }
    if last.Response? && last.status == 200 && ReportsExecuted(last.body, id) {
      assert Conclude(last, id) == Returned(ParseOkBody(last.body, id).result);
    }
  }

  /** `execute_handoff`, with the two attempts' reports as inputs; the second is read only after a timeout. */
  method ExecuteHandoff(first: Attempt, second: Attempt, id: ActionId) returns (r: Outcome)
    ensures r == Conclude(Deciding(first, second), id)
    ensures r == Returned(Down) <==> TurnedAway(Deciding(first, second))
    ensures r.Raised? || r == Returned(Unknown) ==> !Releases(r)
    ensures Releases(r) <==> Frees(if first.TimedOut? then second else first, id)
  {
    var attempt := first;
    if attempt.TimedOut? {
      attempt := second;
      if attempt.TimedOut? {
        return Returned(Unknown);
      }
    }
    ConcludeIff(attempt, id);
    if attempt.Refused? || attempt.Dropped? {
      return Returned(Down);
    }
    if attempt.status != 200 {
      return Returned(Down);
    }
    var parsed := ParseOkBody(attempt.body, id);
    if parsed.Raises? {
      return Raised;
    }
    if parsed.Malformed? {
      return Returned(Unknown);
    }
    return Returned(parsed.result);
  }

  // ---------- when releasing is safe ----------

  /** What became of one delivery: whether it ran, what the agent replied, and whether the channel took the action. */
  datatype Delivery = Delivery(ran: bool, reply: Reply, took: bool)

  datatype World = World(first: Delivery, second: Delivery)

  /** The agent answers 4xx only before it takes the action's lock; any other failure can follow a dispatch. */
  predicate ProvesIdle(a: Attempt) { a.Refused? || (a.Response? && 400 <= a.status < 500) }

  /** The network may lose, delay or mangle; an acceptable body tells the verdict and whether a channel was tried. */
  ghost predicate Explains(d: Delivery, a: Attempt, id: ActionId) {
    && CanHaveTaken(d.took, d.reply)
    && (ProvesIdle(a) ==> !d.ran)
    && (a.Response? && a.status == 200 && ParseOkBody(a.body, id).Parsed? ==>
          var r := ParseOkBody(a.body, id).result;
          d.ran && (r.executed <==> d.reply.Done?) && (!r.executed ==> (r.channel.None? <==> d.reply.Undecided?)))
  }

  /** `remembers`: the agent answers a second delivery with the outcome of the first. */
  ghost predicate Consistent(first: Attempt, second: Attempt, id: ActionId, remembers: bool, w: World) {
    && Explains(w.first, first, id)
    && (if first.TimedOut? then Explains(w.second, second, id) else !w.second.ran)
    && (remembers && w.first.ran && w.second.ran ==> w.first == w.second)
  }

  /** Some channel took the action. */
  predicate Executed(w: World) { (w.first.ran && w.first.took) || (w.second.ran && w.second.took) }

  /** A "failed" that names a channel: the channel was tried, and may have taken the action without saying so. */
  predicate NamesChannel(o: Outcome) { o.Returned? && o.result.Ok? && !o.result.executed && o.result.channel.Some? }

  /**
   The ways to go wrong: the deciding attempt is answered "failed" by a channel that was tried; a single attempt
   fails without proof that nothing ran; a timed-out attempt's retry is turned away; or its retry is answered
   "failed" by an agent that has forgotten the first delivery.
   */
  predicate Doubtful(first: Attempt, second: Attempt, id: ActionId, remembers: bool) {
    || NamesChannel(Conclude(Deciding(first, second), id))
    || (if first.TimedOut? then TurnedAway(second) || (!remembers && Releases(Conclude(second, id)))
        else TurnedAway(first) && !ProvesIdle(first))
  }

  /**
   Releasing the budget is safe in every world that explains the two attempts iff they are not doubtful, for an
   agent that remembers and for one that does not.
   */
  lemma ReleaseSafeIff(first: Attempt, second: Attempt, id: ActionId, remembers: bool)
    ensures (forall w ::
               Consistent(first, second, id, remembers, w) && Releases(Conclude(Deciding(first, second), id)) ==>
                 !Executed(w))
       <==> !Doubtful(first, second, id, remembers)
  {
    if Doubtful(first, second, id, remembers) {
      var idle, took := Delivery(false, Undecided, false), Delivery(true, Done("mock_erp", "rules", "ref"), true);
      var silent := Delivery(true, ChannelFailed("mock_erp", "rules"), true);
      var w :=
        if NamesChannel(Conclude(Deciding(first, second), id)) then
          World(silent, if first.TimedOut? then silent else idle)
        else World(took, if first.TimedOut? && !TurnedAway(second) then Delivery(true, Undecided, false) else idle);
      assert Consistent(first, second, id, remembers, w) && Executed(w);
    }
  }

  /** With an intact 200 the gateway never says "unknown": it learns exactly what the agent did. */
  lemma IntactReplyIsUnderstood(id: ActionId, reply: Reply, detail: string)
    requires WellFormed(reply)
    ensures Conclude(Response(200, Some(Obj(ReplyBody(id, reply, detail)))), id) == Returned(Meaning(reply))
    ensures Releases(Returned(Meaning(reply))) <==> !reply.Done?
  {
    ReplyRoundTrip(id, reply, detail);
  }
}
