/**
 The pollable resolution map: an insertion-ordered dictionary from action ids to their fate, modelled
 as the sequence of its values in insertion order.
 */
module Resolutions {
  import opened Common
  import opened Retention

  datatype Status = Queued | Executed | Failed | Rejected | Expired | ExecutionUnknown

  /** One resolution; the row's `at` is its `updated_at`. */
  datatype Fate = Fate(id: ActionId, status: Status, created: Time, channel: Option<string>, order: Option<string>)

  type Resolution = Row<Fate>

  /** The arguments of one `set_tier3_resolution` call. */
  datatype Update = Update(
    id: ActionId, client: ClientId, status: Status, channel: Option<string>, order: Option<string>)

  /** Dictionary keys are unique. */
  ghost predicate UniqueIds(rs: seq<Resolution>) {
    forall i, j :: 0 <= i < j < |rs| ==> rs[i].data.id != rs[j].data.id
  }

  function IndexOf(rs: seq<Resolution>, id: ActionId): (k: int)
    ensures -1 <= k < |rs|
    ensures k >= 0 ==> rs[k].data.id == id
    ensures k < 0 ==> forall r :: r in rs ==> r.data.id != id
  {
    if rs == [] then -1
    else if rs[0].data.id == id then 0
    else
      var k := IndexOf(rs[1..], id);
      if k < 0 then -1 else k + 1
  }

  function Refreshed(r: Resolution, u: Update, now: Time): Resolution {
    r.(at := now, data := r.data.(status := u.status,
                                  channel := if u.channel.Some? then u.channel else r.data.channel,
                                  order := if u.order.Some? then u.order else r.data.order))
  }

  function Created(u: Update, now: Time): Resolution {
    Row(u.client, now, Fate(u.id, u.status, now, u.channel, u.order))
  }

  /** `set_tier3_resolution`: update in place, or insert and then prune. */
  function Put(rs: seq<Resolution>, u: Update, now: Time, ttl: Time, cap: nat): seq<Resolution> {
    var k := IndexOf(rs, u.id);
    if k >= 0 then rs[k := Refreshed(rs[k], u, now)]
    else Pruned(rs + [Created(u, now)], now - ttl, cap)
  }

  /** `get_tier3_resolution`: what the caller sees, and the map without the entry if it was stale. */
  function Get(rs: seq<Resolution>, id: ActionId, now: Time, ttl: Time): (Option<Resolution>, seq<Resolution>) {
    var k := IndexOf(rs, id);
    if k < 0 then (None, rs)
    else if now - rs[k].at > ttl then (None, rs[..k] + rs[k + 1..])
    else (Some(rs[k]), rs)
  }

  // ---------- uniqueness ----------

  lemma {:induction false} PrunedKeepsUnique(rs: seq<Resolution>, cutoff: Time, cap: nat)
    requires UniqueIds(rs)
    ensures UniqueIds(Pruned(rs, cutoff, cap))
  {
    PrunedSubsequence(rs, cutoff, cap);
    SubsequenceUnique(Pruned(rs, cutoff, cap), rs);
  }

  lemma {:induction false} SubsequenceUnique(a: seq<Resolution>, b: seq<Resolution>)
    requires Subsequence(a, b) && UniqueIds(b)
    ensures UniqueIds(a)
    ensures forall r :: r in a ==> r in b
  {
    if a != [] {
      assert b == [b[0]] + b[1..];
      if a[0] == b[0] && Subsequence(a[1..], b[1..]) {
        SubsequenceUnique(a[1..], b[1..]);
        forall i, j | 0 <= i < j < |a| ensures a[i].data.id != a[j].data.id {
          assert a[j] == a[1..][j - 1] && a[j] in a[1..];
          var m :| 0 <= m < |b[1..]| && b[1..][m] == a[j];
          assert b[m + 1] == a[j];
          if i > 0 { assert a[i] == a[1..][i - 1]; }
        }
      } else {
        SubsequenceUnique(a, b[1..]);
      }
    }
  }

  // ---------- what one update does ----------

  lemma PrunedMembers(rs: seq<Resolution>, cutoff: Time, cap: nat)
    ensures forall r :: r in Pruned(rs, cutoff, cap) ==> r in rs
  {
    CappedMembers(Since(rs, cutoff), cap);
    SinceMembers(rs, cutoff);
  }

  lemma CreatedIsUnique(rs: seq<Resolution>, r: Resolution)
    requires UniqueIds(rs) && IndexOf(rs, r.data.id) < 0
    ensures UniqueIds(rs + [r])
  {
    forall i | 0 <= i < |rs| ensures rs[i].data.id != r.data.id {
      assert rs[i] in rs;
    }
  }

  /** An update changes the entry of its own id only, and every entry for that id shows the new status. */
  lemma PutTouchesOneAction(rs: seq<Resolution>, u: Update, now: Time, ttl: Time, cap: nat)
    requires UniqueIds(rs)
    ensures UniqueIds(Put(rs, u, now, ttl, cap))
    ensures forall r :: r in Put(rs, u, now, ttl, cap) ==>
              if r.data.id == u.id then r.data.status == u.status && r.at == now else r in rs
  {
    var k := IndexOf(rs, u.id);
    if k < 0 {
      var all := rs + [Created(u, now)];
      CreatedIsUnique(rs, Created(u, now));
      PrunedKeepsUnique(all, now - ttl, cap);
      PrunedMembers(all, now - ttl, cap);
    }
  }

  /** Every entry of the updated map has the key and owner of an old entry or of the update. */
  lemma PutKeepsOwners(rs: seq<Resolution>, u: Update, now: Time, ttl: Time, cap: nat)
    ensures forall r :: r in Put(rs, u, now, ttl, cap) ==>
              (r.data.id == u.id && r.client == u.client)
              || exists o :: o in rs && o.data.id == r.data.id && o.client == r.client
  {
    var k := IndexOf(rs, u.id);
    if k >= 0 {
      forall r | r in Put(rs, u, now, ttl, cap)
        ensures exists o :: o in rs && o.data.id == r.data.id && o.client == r.client
      {
        var i :| 0 <= i < |rs| && rs[k := Refreshed(rs[k], u, now)][i] == r;
        assert rs[i] in rs;
      }
    } else {
      PrunedMembers(rs + [Created(u, now)], now - ttl, cap);
    }
  }

  lemma InsertForOwner(rs: seq<Resolution>, r: Resolution, cutoff: Time, cap: nat)
    requires r.at >= cutoff
    ensures Of(Pruned(rs + [r], cutoff, cap), r.client) == Newest(Since(Of(rs, r.client), cutoff) + [r], cap)
  {
    PrunedOf(rs + [r], cutoff, cap, r.client);
    OfConcat(rs, [r], r.client);
    assert Of([r], r.client) == [r];
    SinceConcat(Of(rs, r.client), [r], cutoff);
  }

  lemma InsertedIsKept(rs: seq<Resolution>, r: Resolution, cutoff: Time, cap: nat)
    requires r.at >= cutoff && cap > 0
    ensures r in Pruned(rs + [r], cutoff, cap)
  {
    InsertForOwner(rs, r, cutoff, cap);
    var mine := Since(Of(rs, r.client), cutoff) + [r];
    assert Newest(mine, cap)[|Newest(mine, cap)| - 1] == r;
    OfMembers(Pruned(rs + [r], cutoff, cap), r.client);
  }

  /** What was written is what is read, until the TTL has passed since the write. */
  lemma PutThenGet(rs: seq<Resolution>, u: Update, now: Time, ttl: Time, cap: nat, later: Time)
    requires UniqueIds(rs) && cap > 0 && now <= later <= now + ttl
    ensures var g, k := Get(Put(rs, u, now, ttl, cap), u.id, later, ttl).0, IndexOf(rs, u.id);
            && g.Some? && g.value.data.id == u.id && g.value.data.status == u.status
            && g.value.client == (if k >= 0 then rs[k].client else u.client)
            && g.value.at == now && g.value.data.created == (if k >= 0 then rs[k].data.created else now)
            && g.value.data.order == (if u.order.Some? || k < 0 then u.order else rs[k].data.order)
            && g.value.data.channel == (if u.channel.Some? || k < 0 then u.channel else rs[k].data.channel)
  {
    var after, k := Put(rs, u, now, ttl, cap), IndexOf(rs, u.id);
    var r := if k >= 0 then Refreshed(rs[k], u, now) else Created(u, now);
    assert r in after by {
      if k >= 0 {
        assert after[k] == r;
      } else {
        InsertedIsKept(rs, r, now - ttl, cap);
      }
    }
    PutTouchesOneAction(rs, u, now, ttl, cap);
    var i :| 0 <= i < |after| && after[i] == r;
    assert IndexOf(after, u.id) == i;
  }

  /**
   A lookup shows an entry if and only if the map has it and no more than the TTL has passed since its last write;
   when more has passed the entry goes, and nothing else does.
   */
  lemma GetIff(rs: seq<Resolution>, id: ActionId, now: Time, ttl: Time)
    requires UniqueIds(rs)
    ensures forall r :: Get(rs, id, now, ttl).0 == Some(r) <==> r in rs && r.data.id == id && r.at >= now - ttl
    ensures forall r :: r in Get(rs, id, now, ttl).1 <==> r in rs && (r.data.id == id ==> r.at >= now - ttl)
  {
    var k := IndexOf(rs, id);
    if k >= 0 {
      assert rs == rs[..k] + [rs[k]] + rs[k + 1..];
      forall r | r in rs && r.data.id == id ensures r == rs[k] {
        var j :| 0 <= j < |rs| && rs[j] == r;
      }
      assert forall j :: 0 <= j < k ==> rs[..k][j] == rs[j] && rs[j].data.id != id;
      assert forall j :: k < j < |rs| ==> rs[j].data.id != id;
    }
  }

  /** What an updated entry quotes was in the update, or in the entry that it updates. */
  lemma PutQuotes(rs: seq<Resolution>, u: Update, now: Time, ttl: Time, cap: nat)
    requires UniqueIds(rs)
    ensures forall r :: r in Put(rs, u, now, ttl, cap) && r.data.id == u.id ==>
              && (r.data.channel == u.channel
                  || (u.channel.None? && exists o :: o in rs && o.data.id == u.id && o.data.channel == r.data.channel))
              && (r.data.order == u.order
                  || (u.order.None? && exists o :: o in rs && o.data.id == u.id && o.data.order == r.data.order))
  {
    var k := IndexOf(rs, u.id);
    if k >= 0 {
      assert rs[k] in rs;
      forall r | r in Put(rs, u, now, ttl, cap) && r.data.id == u.id ensures r == Refreshed(rs[k], u, now) {
        var j :| 0 <= j < |rs| && Put(rs, u, now, ttl, cap)[j] == r;
      }
    } else {
      PrunedMembers(rs + [Created(u, now)], now - ttl, cap);
    }
  }

  lemma InsertForOthers(rs: seq<Resolution>, r: Resolution, cutoff: Time, cap: nat, d: ClientId)
    requires d != r.client && CountOf(rs, d) <= cap
    ensures Of(Pruned(rs + [r], cutoff, cap), d) == Since(Of(rs, d), cutoff)
  {
    PrunedOf(rs + [r], cutoff, cap, d);
    OfConcat(rs, [r], d);
    assert Of(rs + [r], d) == Of(rs, d);
    SinceMembers(Of(rs, d), cutoff);
  }

  /** Inserting a new id drops only stale entries and the inserting client's oldest ones beyond the cap. */
  lemma InsertIsBounded(rs: seq<Resolution>, u: Update, now: Time, ttl: Time, cap: nat)
    requires WithinCap(rs, cap) && IndexOf(rs, u.id) < 0 && ttl >= 0.0
    ensures Of(Put(rs, u, now, ttl, cap), u.client)
         == Newest(Since(Of(rs, u.client), now - ttl) + [Created(u, now)], cap)
    ensures forall d :: d != u.client ==> Of(Put(rs, u, now, ttl, cap), d) == Since(Of(rs, d), now - ttl)
  {
    var r := Created(u, now);
    var after := Put(rs, u, now, ttl, cap);
    assert after == Pruned(rs + [r], now - ttl, cap);
    InsertForOwner(rs, r, now - ttl, cap);
    forall d | d != u.client ensures Of(after, d) == Since(Of(rs, d), now - ttl) {
      InsertForOthers(rs, r, now - ttl, cap, d);
    }
  }

  /** Insertion, pruning included, leaves the remaining entries in insertion order. */
  lemma InsertKeepsOrder(rs: seq<Resolution>, u: Update, now: Time, ttl: Time, cap: nat)
    requires IndexOf(rs, u.id) < 0
    ensures Subsequence(Put(rs, u, now, ttl, cap), rs + [Created(u, now)])
  {
    PrunedSubsequence(rs + [Created(u, now)], now - ttl, cap);
  }

  predicate SameKey(r: Resolution, s: Resolution) {
    r.data.id == s.data.id && r.client == s.client && r.data.created == s.data.created
  }

  /** Updating an existing id moves nothing: same ids, owners and creation times, in the same places. */
  lemma UpdateStaysInPlace(rs: seq<Resolution>, u: Update, now: Time, ttl: Time, cap: nat)
    requires UniqueIds(rs) && IndexOf(rs, u.id) >= 0
    ensures var after := Put(rs, u, now, ttl, cap);
            && |after| == |rs|
            && (forall i :: 0 <= i < |rs| && rs[i].data.id != u.id ==> after[i] == rs[i])
            && (forall i :: 0 <= i < |rs| ==> SameKey(after[i], rs[i]))
            && forall d :: CountOf(after, d) == CountOf(rs, d)
  {
    var k := IndexOf(rs, u.id);
    forall d ensures CountOf(Put(rs, u, now, ttl, cap), d) == CountOf(rs, d) {
      CountOfUpdate(rs, k, Refreshed(rs[k], u, now), d);
    }
  }

  lemma {:induction false} CountOfUpdate(rs: seq<Resolution>, k: nat, r: Resolution, d: ClientId)
    requires k < |rs| && r.client == rs[k].client
    ensures CountOf(rs[k := r], d) == CountOf(rs, d)
  {
    if k == 0 {
      assert rs[k := r][1..] == rs[1..];
    } else {
      assert rs[k := r][1..] == rs[1..][k - 1 := r];
      CountOfUpdate(rs[1..], k - 1, r, d);
    }
  }

  lemma {:induction false} CountOfRemoved(rs: seq<Resolution>, k: nat, d: ClientId)
    requires k < |rs|
    ensures CountOf(rs[..k] + rs[k + 1..], d) <= CountOf(rs, d)
  {
    assert rs == rs[..k] + ([rs[k]] + rs[k + 1..]);
    OfConcat(rs[..k], [rs[k]] + rs[k + 1..], d);
    OfCons(rs[k], rs[k + 1..], d);
    OfConcat(rs[..k], rs[k + 1..], d);
  }

  /** Both operations keep the per-client bound. */
  lemma BoundsAreKept(rs: seq<Resolution>, u: Update, id: ActionId, now: Time, ttl: Time, cap: nat)
    requires UniqueIds(rs) && WithinCap(rs, cap)
    ensures WithinCap(Put(rs, u, now, ttl, cap), cap)
    ensures WithinCap(Get(rs, id, now, ttl).1, cap)
    ensures UniqueIds(Get(rs, id, now, ttl).1)
    ensures forall r :: r in Get(rs, id, now, ttl).1 ==> r in rs
  {
    if IndexOf(rs, u.id) >= 0 {
      UpdateStaysInPlace(rs, u, now, ttl, cap);
      forall d ensures CountOf(Put(rs, u, now, ttl, cap), d) <= cap {
        assert CountOf(rs, d) <= cap;
      }
    } else {
      CappedWithinCap(Since(rs + [Created(u, now)], now - ttl), cap);
    }
    var k := IndexOf(rs, id);
    if k >= 0 && now - rs[k].at > ttl {
      forall d ensures CountOf(Get(rs, id, now, ttl).1, d) <= cap {
        CountOfRemoved(rs, k, d);
        assert CountOf(rs, d) <= cap;
      }
    }
  }
}
