/** The approval queue: an insertion-ordered dictionary of actions that wait for a human. */
module Queue {
  import opened Common

  datatype Pending = Pending(id: ActionId, job: Job, queuedAt: Time, expiresAt: Time)

  ghost predicate UniqueIds(q: seq<Pending>) {
    forall i, j :: 0 <= i < j < |q| ==> q[i].id != q[j].id
  }

  predicate IsOverdue(p: Pending, now: Time) { now > p.expiresAt }

  /** The ids to expire, in queue order. */
  function Overdue(q: seq<Pending>, now: Time): seq<ActionId> {
    if q == [] then []
    else (if IsOverdue(q[0], now) then [q[0].id] else []) + Overdue(q[1..], now)
  }

  /** The ids of one client, in queue order. */
  function IdsOf(q: seq<Pending>, c: ClientId): seq<ActionId> {
    if q == [] then []
    else (if q[0].job.client == c then [q[0].id] else []) + IdsOf(q[1..], c)
  }

  function Has(q: seq<Pending>, id: ActionId): (b: bool)
    ensures b <==> exists p :: p in q && p.id == id
  {
    q != [] && (q[0].id == id || Has(q[1..], id))
  }

  function Find(q: seq<Pending>, id: ActionId): (p: Pending)
    requires Has(q, id)
    ensures p in q && p.id == id
  {
    if q[0].id == id then q[0] else Find(q[1..], id)
  }

  /** `pending[p.id] = p`: a new key goes to the end, a known one keeps its place. */
  function Enqueue(q: seq<Pending>, p: Pending): seq<Pending> {
    if q == [] then [p] else if q[0].id == p.id then [p] + q[1..] else [q[0]] + Enqueue(q[1..], p)
  }

  lemma {:induction false} EnqueueNew(q: seq<Pending>, p: Pending)
    requires !Has(q, p.id)
    ensures Enqueue(q, p) == q + [p]
  {
    if q != [] {
      assert q[0] in q;
      assert forall r :: r in q[1..] ==> r in q;
      EnqueueNew(q[1..], p);
      assert q + [p] == [q[0]] + (q[1..] + [p]);
    }
  }

  /** A known key keeps its place, and only its own value changes. */
  lemma {:induction false} EnqueueKnown(q: seq<Pending>, p: Pending)
    requires UniqueIds(q) && Has(q, p.id)
    ensures |Enqueue(q, p)| == |q|
    ensures forall i :: 0 <= i < |q| ==> Enqueue(q, p)[i] == if q[i].id == p.id then p else q[i]
  {
    if q[0].id == p.id {
      assert forall i :: 0 < i < |q| ==> q[i].id != q[0].id;
    } else {
      assert UniqueIds(q[1..]);
      EnqueueKnown(q[1..], p);
      assert forall i :: 0 < i < |q| ==> q[i] == q[1..][i - 1];
    }
  }

  /** `pop(id)`. */
  function Without(q: seq<Pending>, id: ActionId): seq<Pending> {
    if q == [] then [] else if q[0].id == id then q[1..] else [q[0]] + Without(q[1..], id)
  }

  function CountFor(q: seq<Pending>, c: ClientId): nat { |IdsOf(q, c)| }

  lemma HeadIsUnique(q: seq<Pending>)
    requires q != [] && UniqueIds(q)
    ensures UniqueIds(q[1..]) && forall p :: p in q[1..] ==> p.id != q[0].id
  {
    forall p | p in q[1..] ensures p.id != q[0].id {
      var i :| 0 <= i < |q[1..]| && q[1..][i] == p;
      assert q[i + 1] == p;
    }
  }

  lemma ConsIsUnique(p: Pending, q: seq<Pending>)
    requires UniqueIds(q) && forall r :: r in q ==> r.id != p.id
    ensures UniqueIds([p] + q)
  {
    assert forall i :: 0 <= i < |q| ==> q[i] in q;
  }

  lemma {:induction false} WithoutMembers(q: seq<Pending>, id: ActionId)
    requires UniqueIds(q)
    ensures UniqueIds(Without(q, id))
    ensures forall p :: p in Without(q, id) ==> p in q && p.id != id
    ensures forall p :: p in q && p.id != id ==> p in Without(q, id)
  {
    if q != [] {
      assert q == [q[0]] + q[1..];
      HeadIsUnique(q);
      if q[0].id != id {
        WithoutMembers(q[1..], id);
        ConsIsUnique(q[0], Without(q[1..], id));
      }
    }
  }

  lemma {:induction false} WithoutCount(q: seq<Pending>, id: ActionId, c: ClientId)
    ensures CountFor(Without(q, id), c) <= CountFor(q, c)
  {
    if q != [] {
      WithoutCount(q[1..], id, c);
      if q[0].id != id {
        assert ([q[0]] + Without(q[1..], id))[1..] == Without(q[1..], id);
      }
    }
  }

  lemma {:induction false} AppendCount(q: seq<Pending>, p: Pending, c: ClientId)
    ensures CountFor(q + [p], c) == CountFor(q, c) + if p.job.client == c then 1 else 0
  {
    if q != [] {
      assert (q + [p])[1..] == q[1..] + [p];
      AppendCount(q[1..], p, c);
    } else {
      assert q + [p] == [p] && [p][1..] == [];
    }
  }

  predicate Distinct(ids: seq<ActionId>) {
    forall i, j :: 0 <= i < j < |ids| ==> ids[i] != ids[j]
  }

  lemma {:induction false} OverdueMembers(q: seq<Pending>, now: Time)
    requires UniqueIds(q)
    ensures Distinct(Overdue(q, now))
    ensures forall p :: p in q ==> (IsOverdue(p, now) <==> p.id in Overdue(q, now))
    ensures forall id :: id in Overdue(q, now) ==> exists p :: p in q && p.id == id && IsOverdue(p, now)
  {
    if q != [] {
      assert q == [q[0]] + q[1..];
      assert UniqueIds(q[1..]);
      OverdueMembers(q[1..], now);
      HeadIsNew(q);
      var t := Overdue(q[1..], now);
      assert q[0].id !in t;
      forall id | id in t ensures id != q[0].id && exists p :: p in q && p.id == id && IsOverdue(p, now) {
        var p :| p in q[1..] && p.id == id && IsOverdue(p, now);
        assert p in q;
      }
      var o := Overdue(q, now);
      forall i, j | 0 <= i < j < |o| ensures o[i] != o[j] {
        if IsOverdue(q[0], now) {
          assert o == [q[0].id] + t && o[j] == t[j - 1] && o[j] in t;
        }
      }
    }
  }

  lemma OverdueAreQueued(q: seq<Pending>, now: Time)
    requires UniqueIds(q)
    ensures Distinct(Overdue(q, now)) && forall j :: 0 <= j < |Overdue(q, now)| ==> Has(q, Overdue(q, now)[j])
  {
    OverdueMembers(q, now);
    forall j | 0 <= j < |Overdue(q, now)| ensures Has(q, Overdue(q, now)[j]) {
      assert Overdue(q, now)[j] in Overdue(q, now);
    }
  }

  lemma HeadIsNew(q: seq<Pending>)
    requires UniqueIds(q) && q != []
    ensures forall p :: p in q[1..] ==> p.id != q[0].id
  {
    forall p | p in q[1..] ensures p.id != q[0].id {
      var i :| 0 <= i < |q[1..]| && q[1..][i] == p;
      assert q[i + 1] == p;
    }
  }

  lemma {:induction false} IdsOfMembers(q: seq<Pending>, c: ClientId)
    requires UniqueIds(q)
    ensures Distinct(IdsOf(q, c))
    ensures forall p :: p in q ==> (p.job.client == c <==> p.id in IdsOf(q, c))
    ensures forall id :: id in IdsOf(q, c) ==> exists p :: p in q && p.id == id && p.job.client == c
  {
    if q != [] {
      assert q == [q[0]] + q[1..];
      assert UniqueIds(q[1..]);
      IdsOfMembers(q[1..], c);
      HeadIsNew(q);
      var t := IdsOf(q[1..], c);
      assert q[0].id !in t;
      forall id | id in t ensures id != q[0].id && exists p :: p in q && p.id == id && p.job.client == c {
        var p :| p in q[1..] && p.id == id && p.job.client == c;
        assert p in q;
      }
      var o := IdsOf(q, c);
      forall i, j | 0 <= i < j < |o| ensures o[i] != o[j] {
        if q[0].job.client == c {
          assert o == [q[0].id] + t && o[j] == t[j - 1] && o[j] in t;
        }
      }
    }
  }
}
