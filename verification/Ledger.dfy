/**
 The audit log as a budget ledger: recording with its two prunes, the windowed usage sum, and the
 in-place settlement of a reservation, together with what they still say about the full history.
 */
module Ledger {
  import opened Common
  import opened Retention

  datatype Outcome = Accepted | Rejected | Queued | Expired

  /** How far a reserved action's handoff has come, as the audit reason tells it. */
  datatype Progress = InProgress | ExecutedVia(channel: Option<string>, decidedBy: Option<string>)
                    | CouldNotExecute | AgentUnavailable | ExecutionUnknown

  datatype Reason = NoCertificate | NoToken | TokenRejected | NoGrant
                  | QueueFull | OverMandate(remaining: int, limit: int)
                  | ApprovalExpired | MandateRevoked | RevokedWhilePending | RejectedByHuman
                  | Handoff(byHuman: bool, progress: Progress)

  datatype Entry = Entry(
    item: string, amount: int, outcome: Outcome, reason: Reason,
    order: Option<string>, id: Option<ActionId>)

  type Event = Row<Entry>

  /** The arguments of one `settle_tier3_event` call. */
  datatype Settlement = Settlement(id: ActionId, outcome: Outcome, reason: Reason, order: Option<string>)

  /** `record_tier3_event`: append, drop what left the window, cap each client. */
  function Record(log: seq<Event>, e: Event, window: Time, cap: nat): seq<Event> {
    Pruned(log + [e], e.at - window, cap)
  }

  /** `tier3_used_cents`: the accepted amounts of one client inside the window. */
  function Used(log: seq<Event>, c: ClientId, cutoff: Time): int {
    if log == [] then 0
    else
      var e := log[0];
      (if e.client == c && e.data.outcome == Accepted && e.at >= cutoff then e.data.amount else 0)
      + Used(log[1..], c, cutoff)
  }

  /** The part of the usage that was reserved without a human decision. */
  function Autonomous(log: seq<Event>, c: ClientId, cutoff: Time): int {
    if log == [] then 0
    else
      var e := log[0];
      (if e.client == c && e.at >= cutoff && IsAutonomous(e) then e.data.amount else 0)
      + Autonomous(log[1..], c, cutoff)
  }

  predicate IsAutonomous(e: Event) {
    e.data.outcome == Accepted && e.data.reason.Handoff? && !e.data.reason.byHuman
  }

  /** Index of the newest event with this action id, or -1. */
  function NewestWith(log: seq<Event>, id: ActionId): (k: int)
    ensures -1 <= k < |log|
  {
    if log == [] then -1
    else
      var k := NewestWith(log[1..], id);
      if k >= 0 then k + 1 else if log[0].data.id == Some(id) then 0 else -1
  }

  function Resettled(e: Event, v: Settlement): Event {
    e.(data := e.data.(outcome := v.outcome, reason := v.reason,
                       order := if v.order.Some? then v.order else e.data.order))
  }

  /** `settle_tier3_event`: rewrite the newest event with this id, if there is one. */
  function Settle(log: seq<Event>, v: Settlement): seq<Event> {
    var k := NewestWith(log, v.id);
    if k < 0 then log else log[k := Resettled(log[k], v)]
  }

  /** What one event says about its action: the outcome, and for a reservation who authorised it. */
  datatype Mark = Mark(outcome: Outcome, byHuman: Option<bool>)

  function MarkFor(outcome: Outcome, reason: Reason): Mark {
    Mark(outcome, if reason.Handoff? then Some(reason.byHuman) else None)
  }

  function MarkOf(e: Event): Mark { MarkFor(e.data.outcome, e.data.reason) }

  /** The marks that the events of one action show, oldest first. */
  function Trail(log: seq<Event>, id: ActionId): seq<Mark> {
    if log == [] then []
    else (if log[0].data.id == Some(id) then [MarkOf(log[0])] else []) + Trail(log[1..], id)
  }

  /** Every event of this action belongs to client c. */
  ghost predicate OwnedBy(log: seq<Event>, id: ActionId, c: ClientId) {
    forall e :: e in log && e.data.id == Some(id) ==> e.client == c
  }

  ghost predicate PositiveAmounts(log: seq<Event>) {
    forall e :: e in log ==> e.data.amount > 0
  }

  // ---------- the newest event of an action ----------

  lemma {:induction false} NewestWithIsNewest(log: seq<Event>, id: ActionId)
    ensures var k := NewestWith(log, id);
            && (k >= 0 ==> log[k].data.id == Some(id))
            && forall j :: k < j < |log| ==> log[j].data.id != Some(id)
  {
    if log != [] {
      NewestWithIsNewest(log[1..], id);
      var k := NewestWith(log, id);
      forall j | k < j < |log| ensures log[j].data.id != Some(id) {
        if j > 0 { assert log[j] == log[1..][j - 1]; }
      }
    }
  }

  lemma {:induction false} TrailConcat(a: seq<Event>, b: seq<Event>, id: ActionId)
    ensures Trail(a + b, id) == Trail(a, id) + Trail(b, id)
  {
    if a == [] {
      assert a + b == b;
    } else {
      TrailConcat(a[1..], b, id);
      assert (a + b)[0] == a[0] && (a + b)[1..] == a[1..] + b;
      Regroup(if a[0].data.id == Some(id) then [MarkOf(a[0])] else [], Trail(a[1..], id), Trail(b, id));
    }
  }

  lemma {:induction false} TrailEnd(log: seq<Event>, id: ActionId)
    requires NewestWith(log, id) >= 0
    ensures Trail(log, id) != [] && MarkOf(log[NewestWith(log, id)]) == Trail(log, id)[|Trail(log, id)| - 1]
  {
    TrailEmpty(log[1..], id);
    if NewestWith(log[1..], id) >= 0 {
      TrailEnd(log[1..], id);
    }
  }

  lemma {:induction false} TrailEmpty(log: seq<Event>, id: ActionId)
    ensures Trail(log, id) == [] <==> NewestWith(log, id) == -1
    ensures |Trail(log, id)| <= |log|
  {
    if log != [] {
      TrailEmpty(log[1..], id);
    }
  }

  lemma SettleCons(e: Event, log: seq<Event>, v: Settlement)
    ensures Settle([e] + log, v) ==
            if NewestWith(log, v.id) >= 0 then [e] + Settle(log, v)
            else if e.data.id == Some(v.id) then [Resettled(e, v)] + log
            else [e] + log
  {
    assert ([e] + log)[1..] == log;
  }

  lemma TrailCons(e: Event, log: seq<Event>, id: ActionId)
    ensures Trail([e] + log, id) == (if e.data.id == Some(id) then [MarkOf(e)] else []) + Trail(log, id)
  {
    assert ([e] + log)[1..] == log;
  }

  function Amended(t: seq<Mark>, o: Mark): seq<Mark> {
    if t == [] then [] else t[..|t| - 1] + [o]
  }

  lemma AmendedCons(first: Mark, t: seq<Mark>, o: Mark)
    ensures t != [] ==> Amended([first] + t, o) == [first] + Amended(t, o)
  {
    if t != [] {
      assert ([first] + t)[..|t|] == [first] + t[..|t| - 1];
    }
  }

  /** Settling rewrites the last mark in the action's own trail and no other trail. */
  lemma SettleTrailStep(e: Event, rest: seq<Event>, v: Settlement, id: ActionId)
    requires Trail(Settle(rest, v), id) ==
             if id == v.id then Amended(Trail(rest, id), MarkFor(v.outcome, v.reason)) else Trail(rest, id)
    ensures Trail(Settle([e] + rest, v), id) ==
            if id == v.id then Amended(Trail([e] + rest, id), MarkFor(v.outcome, v.reason)) else Trail([e] + rest, id)
  {
    SettleCons(e, rest, v);
    TrailEmpty(rest, v.id);
    TrailCons(e, rest, id);
    if NewestWith(rest, v.id) >= 0 {
      TrailCons(e, Settle(rest, v), id);
      AmendedCons(MarkOf(e), Trail(rest, id), MarkFor(v.outcome, v.reason));
    } else if e.data.id == Some(v.id) {
      TrailCons(Resettled(e, v), rest, id);
      assert Amended([MarkOf(e)], MarkFor(v.outcome, v.reason)) == [MarkFor(v.outcome, v.reason)];
    }
  }

  lemma {:induction false} SettleTrail(log: seq<Event>, v: Settlement, id: ActionId)
    ensures Trail(Settle(log, v), id) ==
            if id == v.id then Amended(Trail(log, id), MarkFor(v.outcome, v.reason)) else Trail(log, id)
  {
    if log != [] {
      SettleTrail(log[1..], v, id);
      SettleTrailStep(log[0], log[1..], v, id);
      assert log == [log[0]] + log[1..];
    }
  }

  /** Settling keeps owners, times, items, amounts and ids. */
  lemma SettleKeeps(log: seq<Event>, v: Settlement)
    ensures var s := Settle(log, v);
            && |s| == |log|
            && forall i :: 0 <= i < |log| ==>
                && s[i].client == log[i].client && s[i].at == log[i].at
                && s[i].data.amount == log[i].data.amount && s[i].data.id == log[i].data.id
                && s[i].data.item == log[i].data.item
  {}

  // ---------- settlement commutes with pruning ----------

  lemma {:induction false} CountOfSettle(log: seq<Event>, v: Settlement, d: ClientId)
    ensures CountOf(Settle(log, v), d) == CountOf(log, d)
  {
    if log != [] {
      var e, rest := log[0], log[1..];
      assert log == [e] + rest;
      CountOfSettle(rest, v, d);
      SettleCons(e, rest, v);
      var s := Settle(log, v);
      assert s[1..] == if NewestWith(rest, v.id) >= 0 then Settle(rest, v) else rest;
    }
  }

  lemma {:induction false} NewestWithSome(log: seq<Event>, id: ActionId)
    ensures NewestWith(log, id) >= 0 <==> exists e :: e in log && e.data.id == Some(id)
  {
    if log != [] {
      NewestWithSome(log[1..], id);
      if NewestWith(log[1..], id) >= 0 {
        var e :| e in log[1..] && e.data.id == Some(id);
        assert e in log;
      } else if log[0].data.id == Some(id) {
        assert log[0] in log;
      } else {
        forall e | e in log ensures e.data.id != Some(id) {
          if e != log[0] { assert e in log[1..]; }
        }
      }
    }
  }

  lemma {:induction false} SettleSince(log: seq<Event>, v: Settlement, cutoff: Time)
    requires Sorted(log)
    ensures Since(Settle(log, v), cutoff) == Settle(Since(log, cutoff), v)
  {
    if log != [] {
      var e, rest := log[0], log[1..];
      assert log == [e] + rest;
      SortedHead(log);
      SettleSince(rest, v, cutoff);
      SettleCons(e, rest, v);
      SinceCons(e, rest, cutoff);
      SinceCons(e, Settle(rest, v), cutoff);
      SinceCons(Resettled(e, v), rest, cutoff);
      if e.at >= cutoff {
        SinceAll(rest, cutoff);
      } else {
        assert Since(log, cutoff) == Since(rest, cutoff);
        assert Since([e] + Settle(rest, v), cutoff) == Since(Settle(rest, v), cutoff);
        assert Since([Resettled(e, v)] + rest, cutoff) == Since(rest, cutoff);
      }
    }
  }

  /** While a client is under the cap, the cap hides none of its events. */
  lemma CappedKeepsAction(log: seq<Event>, cap: nat, id: ActionId, c: ClientId)
    requires OwnedBy(log, id, c) && CountOf(log, c) <= cap
    ensures NewestWith(Capped(log, cap), id) >= 0 <==> NewestWith(log, id) >= 0
  {
    NewestWithSome(log, id);
    NewestWithSome(Capped(log, cap), id);
    CappedMembers(log, cap);
    if NewestWith(log, id) >= 0 {
      var e :| e in log && e.data.id == Some(id);
      OfMembers(log, c);
      CappedOf(log, cap, c);
      OfMembers(Capped(log, cap), c);
      assert e in Of(log, c) && e in Of(Capped(log, cap), c);
    }
  }

  lemma {:induction false} SettleCapped(log: seq<Event>, v: Settlement, cap: nat, c: ClientId)
    requires OwnedBy(log, v.id, c)
    ensures Capped(Settle(log, v), cap) == Settle(Capped(log, cap), v)
  {
    if log != [] {
      var e, rest := log[0], log[1..];
      assert log == [e] + rest;
      assert OwnedBy(rest, v.id, c);
      SettleCapped(rest, v, cap, c);
      SettleCons(e, rest, v);
      SettleCons(e, Capped(rest, cap), v);
      CountOfSettle(rest, v, e.client);
      var s := Settle(log, v);
      assert s[1..] == if NewestWith(rest, v.id) >= 0 then Settle(rest, v) else rest;
      if CountOf(rest, e.client) < cap && e.data.id == Some(v.id) {
        CappedKeepsAction(rest, cap, v.id, c);
      }
      if NewestWith(rest, v.id) < 0 {
        NewestWithSome(rest, v.id);
        NewestWithSome(Capped(rest, cap), v.id);
        CappedMembers(rest, cap);
      }
      SettleCappedStep(e, rest, v, cap);
    }
  }

  /** The case analysis of `SettleCapped` once the facts about the tail are known. */
  lemma SettleCappedStep(e: Event, rest: seq<Event>, v: Settlement, cap: nat)
    requires Capped(Settle(rest, v), cap) == Settle(Capped(rest, cap), v)
    requires CountOf(Settle(rest, v), e.client) == CountOf(rest, e.client)
    requires NewestWith(rest, v.id) < 0 ==> NewestWith(Capped(rest, cap), v.id) < 0
    requires CountOf(rest, e.client) < cap && e.data.id == Some(v.id) ==>
               (NewestWith(Capped(rest, cap), v.id) >= 0 <==> NewestWith(rest, v.id) >= 0)
    ensures Capped(Settle([e] + rest, v), cap) == Settle(Capped([e] + rest, cap), v)
  {
    SettleCons(e, rest, v);
    SettleCons(e, Capped(rest, cap), v);
    CappedCons(e, rest, cap);
    CappedCons(e, Settle(rest, v), cap);
    CappedCons(Resettled(e, v), rest, cap);
    if CountOf(rest, e.client) < cap {
      assert Capped([e] + rest, cap) == [e] + Capped(rest, cap);
    } else {
      assert Capped([e] + rest, cap) == Capped(rest, cap);
    }
  }

  /** Settling the pruned log is pruning the settled history: no settlement lands on the wrong event. */
  lemma SettlePruned(history: seq<Event>, v: Settlement, cutoff: Time, cap: nat, c: ClientId)
    requires Sorted(history) && OwnedBy(history, v.id, c)
    ensures Pruned(Settle(history, v), cutoff, cap) == Settle(Pruned(history, cutoff, cap), v)
  {
    SettleSince(history, v, cutoff);
    SinceMembers(history, cutoff);
    SettleCapped(Since(history, cutoff), v, cap, c);
  }

  // ---------- trails in the pruned log ----------

  lemma {:induction false} TrailOf(log: seq<Event>, id: ActionId, c: ClientId)
    requires OwnedBy(log, id, c)
    ensures Trail(Of(log, c), id) == Trail(log, id)
  {
    if log != [] {
      assert OwnedBy(log[1..], id, c);
      TrailOf(log[1..], id, c);
      assert log[0] in log;
      TrailConcat(if log[0].client == c then [log[0]] else [], Of(log[1..], c), id);
    }
  }

  lemma TrailSuffix(log: seq<Event>, b: nat, id: ActionId)
    requires b <= |log|
    ensures |Trail(log[..b], id)| <= |Trail(log, id)|
    ensures Trail(log[b..], id) == Trail(log, id)[|Trail(log[..b], id)|..]
  {
    assert log == log[..b] + log[b..];
    TrailConcat(log[..b], log[b..], id);
  }

  lemma NewestSinceIsSuffix(h: seq<Event>, cutoff: Time, cap: nat) returns (b: nat)
    requires Sorted(h)
    ensures b <= |h| && Newest(Since(h, cutoff), cap) == h[b..]
  {
    SinceIsSuffix(h, cutoff);
    var a := |h| - |Since(h, cutoff)|;
    b := if |Since(h, cutoff)| <= cap then a else |h| - cap;
  }

  /** What the pruned log shows of an action is a suffix of what happened to it. */
  lemma TrailOfPruned(history: seq<Event>, id: ActionId, c: ClientId, cutoff: Time, cap: nat)
    requires Sorted(history) && OwnedBy(history, id, c)
    ensures exists k :: 0 <= k <= |Trail(history, id)| &&
                        Trail(Pruned(history, cutoff, cap), id) == Trail(history, id)[k..]
  {
    var log := Pruned(history, cutoff, cap);
    assert OwnedBy(log, id, c) by {
      CappedMembers(Since(history, cutoff), cap);
      SinceMembers(history, cutoff);
    }
    TrailOf(history, id, c);
    TrailOf(log, id, c);
    PrunedOf(history, cutoff, cap, c);
    OfSorted(history, c);
    var b := NewestSinceIsSuffix(Of(history, c), cutoff, cap);
    TrailSuffix(Of(history, c), b, id);
  }

  // ---------- usage ----------

  lemma {:induction false} UsedConcat(a: seq<Event>, b: seq<Event>, c: ClientId, cutoff: Time)
    ensures Used(a + b, c, cutoff) == Used(a, c, cutoff) + Used(b, c, cutoff)
  {
    if a == [] {
      assert a + b == b;
    } else {
      assert (a + b)[1..] == a[1..] + b;
      UsedConcat(a[1..], b, c, cutoff);
    }
  }

  lemma {:induction false} UsedSeesOnlyWindow(log: seq<Event>, c: ClientId, cutoff: Time)
    ensures Used(log, c, cutoff) == Used(Since(Of(log, c), cutoff), c, cutoff)
  {
    if log != [] {
      UsedSeesOnlyWindow(log[1..], c, cutoff);
      var mine := if log[0].client == c then [log[0]] else [];
      SinceConcat(mine, Of(log[1..], c), cutoff);
      UsedConcat(Since(mine, cutoff), Since(Of(log[1..], c), cutoff), c, cutoff);
    }
  }

  lemma {:induction false} UsedNonNegative(log: seq<Event>, c: ClientId, cutoff: Time)
    requires PositiveAmounts(log)
    ensures 0 <= Autonomous(log, c, cutoff) <= Used(log, c, cutoff)
  {
    if log != [] {
      UsedNonNegative(log[1..], c, cutoff);
      assert log[0] in log;
    }
  }

  /** The in-window events of a client that the cap has pushed out of the log. */
  function Evicted(history: seq<Event>, c: ClientId, cutoff: Time, cap: nat): seq<Event> {
    var s := Since(Of(history, c), cutoff);
    if |s| <= cap then [] else s[..|s| - cap]
  }

  /**
   The pruned log understates the windowed sum over the full history by exactly the accepted amounts
   the cap evicted, whatever cutoff the log was last pruned with.
   */
  lemma UsedAgainstHistory(history: seq<Event>, c: ClientId, pruned: Time, cutoff: Time, cap: nat)
    requires Sorted(history) && pruned <= cutoff
    ensures Used(Pruned(history, pruned, cap), c, cutoff) + Used(Evicted(history, c, cutoff, cap), c, cutoff)
         == Used(history, c, cutoff)
  {
    var s := Since(Of(history, c), cutoff);
    UsedSeesOnlyWindow(Pruned(history, pruned, cap), c, cutoff);
    UsedSeesOnlyWindow(history, c, cutoff);
    SinceOfPruned(history, pruned, cutoff, cap, c);
    assert s == Evicted(history, c, cutoff, cap) + Newest(s, cap);
    UsedConcat(Evicted(history, c, cutoff, cap), Newest(s, cap), c, cutoff);
  }

  /** The log's usage is the true one iff no accepted event has been evicted; it never overstates it. */
  lemma UsedExactIff(history: seq<Event>, c: ClientId, pruned: Time, cutoff: Time, cap: nat)
    requires Sorted(history) && PositiveAmounts(history) && pruned <= cutoff
    ensures Used(Pruned(history, pruned, cap), c, cutoff) <= Used(history, c, cutoff)
    ensures Used(Pruned(history, pruned, cap), c, cutoff) == Used(history, c, cutoff)
       <==> forall e :: e in Evicted(history, c, cutoff, cap) ==> e.data.outcome != Accepted
    ensures |Since(Of(history, c), cutoff)| <= cap ==>
              Used(Pruned(history, pruned, cap), c, cutoff) == Used(history, c, cutoff)
  {
    UsedAgainstHistory(history, c, pruned, cutoff, cap);
    var gone := Evicted(history, c, cutoff, cap);
    OfMembers(history, c);
    SinceMembers(Of(history, c), cutoff);
    forall e | e in gone ensures e in history && e.client == c && e.at >= cutoff {
      assert e in Since(Of(history, c), cutoff);
    }
    UsedZeroIff(gone, c, cutoff);
  }

  /** The cap can make the log forget spending: here a queued event evicts an accepted one and usage drops to zero. */
  lemma EvictionUnderstatesUsage()
    ensures var spent := Row("c", 1.0, Entry("x", 100, Accepted, Handoff(false, InProgress), None, Some("a")));
            var later := Row("c", 2.0, Entry("x", 1, Queued, OverMandate(0, 100), None, Some("b")));
            && Used(Record([spent], later, 10.0, 1), "c", 0.0) == 0
            && Used([spent, later], "c", 0.0) == 100
  {
    var spent := Row("c", 1.0, Entry("x", 100, Accepted, Handoff(false, InProgress), None, Some("a")));
    var later := Row("c", 2.0, Entry("x", 1, Queued, OverMandate(0, 100), None, Some("b")));
    var log := [spent, later];
    assert log[1..] == [later] && [later][1..] == [];
    assert [spent] + [later] == log;
    SinceAll(log, -8.0);
    assert Of([later], "c") == [later];
    CappedCons(spent, [later], 1);
    assert Capped([later], 1) == [later];
  }

  lemma {:induction false} UsedZeroIff(log: seq<Event>, c: ClientId, cutoff: Time)
    requires PositiveAmounts(log)
    requires forall e :: e in log ==> e.client == c && e.at >= cutoff
    ensures 0 <= Used(log, c, cutoff)
    ensures Used(log, c, cutoff) == 0 <==> forall e :: e in log ==> e.data.outcome != Accepted
  {
    if log != [] {
      assert log[0] in log;
      UsedZeroIff(log[1..], c, cutoff);
      if Used(log, c, cutoff) == 0 {
        forall e | e in log ensures e.data.outcome != Accepted {
          if e != log[0] { assert e in log[1..]; }
        }
      }
    }
  }

  // ---------- isolation between clients ----------

  /** Recording for one client changes neither another client's in-window events nor its usage. */
  lemma RecordIsolatesClients(log: seq<Event>, e: Event, window: Time, cap: nat, c: ClientId)
    requires Sorted(log + [e]) && WithinCap(log, cap) && e.client != c
    ensures Of(Record(log, e, window, cap), c) == Since(Of(log, c), e.at - window)
    ensures forall cutoff :: cutoff >= e.at - window ==>
              Used(Record(log, e, window, cap), c, cutoff) == Used(log, c, cutoff)
  {
    var cut := e.at - window;
    var after := Record(log, e, window, cap);
    PrunedOf(log + [e], cut, cap, c);
    OfConcat(log, [e], c);
    assert Of(log + [e], c) == Of(log, c);
    SinceMembers(Of(log, c), cut);
    assert CountOf(log, c) <= cap;
    forall cutoff | cutoff >= cut ensures Used(after, c, cutoff) == Used(log, c, cutoff) {
      UsedSeesOnlyWindow(after, c, cutoff);
      UsedSeesOnlyWindow(log, c, cutoff);
      SinceTwice(Of(log, c), cut, cutoff);
    }
  }

  // ---------- autonomous spending ----------

  lemma {:induction false} AutonomousConcat(a: seq<Event>, b: seq<Event>, c: ClientId, cutoff: Time)
    ensures Autonomous(a + b, c, cutoff) == Autonomous(a, c, cutoff) + Autonomous(b, c, cutoff)
  {
    if a == [] {
      assert a + b == b;
    } else {
      assert (a + b)[1..] == a[1..] + b;
      AutonomousConcat(a[1..], b, c, cutoff);
    }
  }

  lemma {:induction false} AutonomousSeesOnlyWindow(log: seq<Event>, c: ClientId, cutoff: Time)
    ensures Autonomous(log, c, cutoff) == Autonomous(Since(Of(log, c), cutoff), c, cutoff)
  {
    if log != [] {
      AutonomousSeesOnlyWindow(log[1..], c, cutoff);
      var mine := if log[0].client == c then [log[0]] else [];
      SinceConcat(mine, Of(log[1..], c), cutoff);
      AutonomousConcat(Since(mine, cutoff), Since(Of(log[1..], c), cutoff), c, cutoff);
    }
  }

  lemma {:induction false} NothingAutonomous(log: seq<Event>, c: ClientId, cutoff: Time)
    requires forall e :: e in log ==> !IsAutonomous(e)
    ensures Autonomous(log, c, cutoff) == 0
  {
    if log != [] {
      assert log[0] in log;
      NothingAutonomous(log[1..], c, cutoff);
    }
  }

  /** The pruned log understates autonomous spending, too, by exactly what the cap evicted. */
  lemma AutonomousAgainstHistory(history: seq<Event>, c: ClientId, pruned: Time, cutoff: Time, cap: nat)
    requires Sorted(history) && pruned <= cutoff
    ensures Autonomous(Pruned(history, pruned, cap), c, cutoff)
            + Autonomous(Evicted(history, c, cutoff, cap), c, cutoff)
         == Autonomous(history, c, cutoff)
  {
    var s := Since(Of(history, c), cutoff);
    AutonomousSeesOnlyWindow(Pruned(history, pruned, cap), c, cutoff);
    AutonomousSeesOnlyWindow(history, c, cutoff);
    SinceOfPruned(history, pruned, cutoff, cap, c);
    assert s == Evicted(history, c, cutoff, cap) + Newest(s, cap);
    AutonomousConcat(Evicted(history, c, cutoff, cap), Newest(s, cap), c, cutoff);
  }

  /** As long as the cap has evicted no autonomous reservation, the log's usage covers them all. */
  lemma UsedCoversAutonomous(history: seq<Event>, c: ClientId, pruned: Time, cutoff: Time, cap: nat)
    requires Sorted(history) && PositiveAmounts(history) && pruned <= cutoff
    requires forall e :: e in Evicted(history, c, cutoff, cap) ==> !IsAutonomous(e)
    ensures Autonomous(history, c, cutoff) <= Used(Pruned(history, pruned, cap), c, cutoff)
  {
    AutonomousAgainstHistory(history, c, pruned, cutoff, cap);
    NothingAutonomous(Evicted(history, c, cutoff, cap), c, cutoff);
    assert PositiveAmounts(Pruned(history, pruned, cap)) by {
      CappedMembers(Since(history, pruned), cap);
      SinceMembers(history, pruned);
    }
    UsedNonNegative(Pruned(history, pruned, cap), c, cutoff);
  }

  lemma {:induction false} AutonomousAges(log: seq<Event>, c: ClientId, early: Time, late: Time)
    requires PositiveAmounts(log) && early <= late
    ensures Autonomous(log, c, late) <= Autonomous(log, c, early)
  {
    if log != [] {
      assert log[0] in log;
      AutonomousAges(log[1..], c, early, late);
    }
  }

  /** What one event adds to a client's usage. */
  function Weight(e: Event, c: ClientId, cutoff: Time): int {
    if e.client == c && e.data.outcome == Accepted && e.at >= cutoff then e.data.amount else 0
  }

  lemma {:induction false} UsedUpdate(log: seq<Event>, k: nat, e: Event, c: ClientId, cutoff: Time)
    requires k < |log|
    ensures Used(log[k := e], c, cutoff) == Used(log, c, cutoff) - Weight(log[k], c, cutoff) + Weight(e, c, cutoff)
  {
    if k == 0 {
      assert log[k := e][1..] == log[1..];
    } else {
      assert log[k := e][1..] == log[1..][k - 1 := e];
      UsedUpdate(log[1..], k - 1, e, c, cutoff);
    }
  }

  /** Settling an accepted reservation never raises autonomous spending. */
  lemma {:induction false} SettleAutonomous(log: seq<Event>, v: Settlement, c: ClientId, cutoff: Time)
    requires PositiveAmounts(log)
    requires v.reason.Handoff?
    requires var k := NewestWith(log, v.id);
             k >= 0 ==> log[k].data.outcome == Accepted
                        && log[k].data.reason.Handoff? && log[k].data.reason.byHuman == v.reason.byHuman
    ensures Autonomous(Settle(log, v), c, cutoff) <= Autonomous(log, c, cutoff)
  {
    if log != [] {
      var e, rest := log[0], log[1..];
      assert log == [e] + rest && e in log;
      SettleCons(e, rest, v);
      var s := Settle(log, v);
      assert s[1..] == if NewestWith(rest, v.id) >= 0 then Settle(rest, v) else rest;
      if NewestWith(rest, v.id) >= 0 {
        assert log[NewestWith(log, v.id)] == rest[NewestWith(rest, v.id)];
      }
      SettleAutonomous(rest, v, c, cutoff);
    }
  }
}
