/**
 The memory-bounding scheme that the audit log and the resolution map share: drop rows older than a
 cutoff, then keep only the newest `cap` rows of each client. The lemmas say what that scheme
 remembers of the sequence it was applied to.
 */
module Retention {
  import opened Common

  /** One stored row: whose it is, the time that decides its age, and what it holds. */
  datatype Row<+D> = Row(client: ClientId, at: Time, data: D)

  /** The rows of one client, in order. */
  function Of<D>(rows: seq<Row<D>>, c: ClientId): seq<Row<D>> {
    if rows == [] then []
    else (if rows[0].client == c then [rows[0]] else []) + Of(rows[1..], c)
  }

  /** The rows that are not older than the cutoff, in order. */
  function Since<D>(rows: seq<Row<D>>, cutoff: Time): seq<Row<D>> {
    if rows == [] then []
    else (if rows[0].at >= cutoff then [rows[0]] else []) + Since(rows[1..], cutoff)
  }

  /** The last n elements. */
  function Newest<T>(s: seq<T>, n: nat): seq<T> {
    if |s| <= n then s else s[|s| - n..]
  }

  function CountOf<D>(rows: seq<Row<D>>, c: ClientId): nat { |Of(rows, c)| }

  /** Keep a row iff fewer than `cap` later rows belong to the same client. */
  function Capped<D>(rows: seq<Row<D>>, cap: nat): seq<Row<D>> {
    if rows == [] then []
    else (if CountOf(rows[1..], rows[0].client) < cap then [rows[0]] else []) + Capped(rows[1..], cap)
  }

  /** What one pass of the scheme leaves of `rows`. */
  function Pruned<D>(rows: seq<Row<D>>, cutoff: Time, cap: nat): seq<Row<D>> {
    Capped(Since(rows, cutoff), cap)
  }

  ghost predicate Sorted<D>(rows: seq<Row<D>>) {
    forall i, j :: 0 <= i < j < |rows| ==> rows[i].at <= rows[j].at
  }

  ghost predicate WithinCap<D>(rows: seq<Row<D>>, cap: nat) {
    forall c :: CountOf(rows, c) <= cap
  }

  // ---------- filters over concatenation ----------

  lemma {:induction false} OfConcat<D>(a: seq<Row<D>>, b: seq<Row<D>>, c: ClientId)
    ensures Of(a + b, c) == Of(a, c) + Of(b, c)
  {
    if a == [] {
      assert a + b == b;
    } else {
      OfConcat(a[1..], b, c);
      OfCons(a[0], a[1..] + b, c);
      assert a + b == [a[0]] + (a[1..] + b);
      Regroup(if a[0].client == c then [a[0]] else [], Of(a[1..], c), Of(b, c));
    }
  }

  lemma {:induction false} SinceConcat<D>(a: seq<Row<D>>, b: seq<Row<D>>, cutoff: Time)
    ensures Since(a + b, cutoff) == Since(a, cutoff) + Since(b, cutoff)
  {
    if a == [] {
      assert a + b == b;
    } else {
      SinceConcat(a[1..], b, cutoff);
      SinceCons(a[0], a[1..] + b, cutoff);
      assert a + b == [a[0]] + (a[1..] + b);
      Regroup(if a[0].at >= cutoff then [a[0]] else [], Since(a[1..], cutoff), Since(b, cutoff));
    }
  }

  lemma OfCons<D>(r: Row<D>, s: seq<Row<D>>, c: ClientId)
    ensures Of([r] + s, c) == (if r.client == c then [r] else []) + Of(s, c)
  {
    assert ([r] + s)[1..] == s;
  }

  lemma SinceCons<D>(r: Row<D>, s: seq<Row<D>>, cutoff: Time)
    ensures Since([r] + s, cutoff) == (if r.at >= cutoff then [r] else []) + Since(s, cutoff)
  {
    assert ([r] + s)[1..] == s;
  }

  lemma {:induction false} OfSince<D>(rows: seq<Row<D>>, c: ClientId, cutoff: Time)
    ensures Of(Since(rows, cutoff), c) == Since(Of(rows, c), cutoff)
  {
    if rows != [] {
      OfSince(rows[1..], c, cutoff);
      var h := if rows[0].at >= cutoff then [rows[0]] else [];
      var g := if rows[0].client == c then [rows[0]] else [];
      OfConcat(h, Since(rows[1..], cutoff), c);
      SinceConcat(g, Of(rows[1..], c), cutoff);
    }
  }

  lemma {:induction false} OfMembers<D>(rows: seq<Row<D>>, c: ClientId)
    ensures forall r :: r in Of(rows, c) ==> r in rows && r.client == c
    ensures forall r :: r in rows && r.client == c ==> r in Of(rows, c)
  {
    if rows != [] {
      OfMembers(rows[1..], c);
      assert rows == [rows[0]] + rows[1..];
    }
  }

  lemma {:induction false} SinceMembers<D>(rows: seq<Row<D>>, cutoff: Time)
    ensures forall r :: r in Since(rows, cutoff) ==> r in rows && r.at >= cutoff
    ensures forall r :: r in rows && r.at >= cutoff ==> r in Since(rows, cutoff)
    ensures |Since(rows, cutoff)| <= |rows|
  {
    if rows != [] {
      SinceMembers(rows[1..], cutoff);
      assert rows == [rows[0]] + rows[1..];
    }
  }

  lemma {:induction false} SinceTwice<D>(rows: seq<Row<D>>, early: Time, late: Time)
    requires early <= late
    ensures Since(Since(rows, early), late) == Since(rows, late)
  {
    if rows != [] {
      SinceTwice(rows[1..], early, late);
      SinceConcat(if rows[0].at >= early then [rows[0]] else [], Since(rows[1..], early), late);
    }
  }

  lemma {:induction false} SinceAll<D>(rows: seq<Row<D>>, cutoff: Time)
    requires forall r :: r in rows ==> r.at >= cutoff
    ensures Since(rows, cutoff) == rows
  {
    if rows != [] {
      assert rows == [rows[0]] + rows[1..];
      SinceAll(rows[1..], cutoff);
    }
  }

  lemma SortedCons<D>(r: Row<D>, s: seq<Row<D>>)
    requires Sorted(s) && forall x :: x in s ==> r.at <= x.at
    ensures Sorted([r] + s)
  {
    var t := [r] + s;
    forall i, j | 0 <= i < j < |t| ensures t[i].at <= t[j].at {
      assert t[j] == s[j - 1];
      if i > 0 { assert t[i] == s[i - 1]; }
    }
  }

  lemma SortedHead<D>(rows: seq<Row<D>>)
    requires Sorted(rows) && rows != []
    ensures Sorted(rows[1..]) && forall x :: x in rows[1..] ==> rows[0].at <= x.at
  {
    forall x | x in rows[1..] ensures rows[0].at <= x.at {
      var i :| 0 <= i < |rows[1..]| && rows[1..][i] == x;
      assert rows[i + 1] == x;
    }
  }

  lemma {:induction false} OfSorted<D>(rows: seq<Row<D>>, c: ClientId)
    requires Sorted(rows)
    ensures Sorted(Of(rows, c))
  {
    if rows != [] {
      SortedHead(rows);
      OfSorted(rows[1..], c);
      OfMembers(rows[1..], c);
      SortedCons(rows[0], Of(rows[1..], c));
    }
  }

  lemma {:induction false} SinceSorted<D>(rows: seq<Row<D>>, cutoff: Time)
    requires Sorted(rows)
    ensures Sorted(Since(rows, cutoff))
  {
    if rows != [] {
      SortedHead(rows);
      SinceSorted(rows[1..], cutoff);
      SinceMembers(rows[1..], cutoff);
      SortedCons(rows[0], Since(rows[1..], cutoff));
    }
  }

  lemma NewestCons<T>(x: T, s: seq<T>, n: nat)
    ensures Newest([x] + s, n) == (if |s| < n then [x] else []) + Newest(s, n)
  {
    if |s| >= n {
      assert ([x] + s)[|s| + 1 - n..] == s[|s| - n..];
    }
  }

  // ---------- the per-client cap ----------

  /** The cap keeps, for each client, exactly its newest `cap` rows. */
  lemma {:induction false} CappedOf<D>(rows: seq<Row<D>>, cap: nat, c: ClientId)
    ensures Of(Capped(rows, cap), c) == Newest(Of(rows, c), cap)
  {
    if rows != [] {
      var r, rest := rows[0], rows[1..];
      var kept := if CountOf(rest, r.client) < cap then [r] else [];
      CappedOf(rest, cap, c);
      OfConcat(kept, Capped(rest, cap), c);
      assert Of(kept, c) == if r.client == c && |Of(rest, c)| < cap then [r] else [];
      NewestCons(r, Of(rest, c), cap);
      assert r.client != c ==> Of(rows, c) == Of(rest, c);
    }
  }

  lemma {:induction false} CappedMembers<D>(rows: seq<Row<D>>, cap: nat)
    ensures forall r :: r in Capped(rows, cap) ==> r in rows
    ensures |Capped(rows, cap)| <= |rows|
  {
    if rows != [] {
      CappedMembers(rows[1..], cap);
    }
  }

  lemma {:induction false} PrunedIsSorted<D>(rows: seq<Row<D>>, cutoff: Time, cap: nat)
    requires Sorted(rows)
    ensures Sorted(Pruned(rows, cutoff, cap))
  {
    SinceSorted(rows, cutoff);
    CappedSorted(Since(rows, cutoff), cap);
  }

  lemma {:induction false} CappedSorted<D>(rows: seq<Row<D>>, cap: nat)
    requires Sorted(rows)
    ensures Sorted(Capped(rows, cap))
  {
    if rows != [] {
      SortedHead(rows);
      CappedSorted(rows[1..], cap);
      CappedMembers(rows[1..], cap);
      SortedCons(rows[0], Capped(rows[1..], cap));
    }
  }

  lemma CappedWithinCap<D>(rows: seq<Row<D>>, cap: nat)
    ensures WithinCap(Capped(rows, cap), cap)
  {
    forall c ensures CountOf(Capped(rows, cap), c) <= cap {
      CappedOf(rows, cap, c);
    }
  }

  /** Whether a row survives does not depend on rows that the cap had already dropped. */
  lemma CappedCount<D>(a: seq<Row<D>>, b: seq<Row<D>>, cap: nat, c: ClientId)
    ensures CountOf(Capped(a, cap) + b, c) < cap <==> CountOf(a + b, c) < cap
    ensures CountOf(Capped(a, cap) + b, c) <= CountOf(a + b, c)
  {
    CappedOf(a, cap, c);
    OfConcat(a, b, c);
    OfConcat(Capped(a, cap), b, c);
  }

  lemma CappedCons<D>(r: Row<D>, s: seq<Row<D>>, cap: nat)
    ensures Capped([r] + s, cap) == (if CountOf(s, r.client) < cap then [r] else []) + Capped(s, cap)
  {
    assert ([r] + s)[1..] == s;
  }

  lemma CappedAppendStep<D>(r: Row<D>, rest: seq<Row<D>>, b: seq<Row<D>>, cap: nat)
    requires Capped(Capped(rest, cap) + b, cap) == Capped(rest + b, cap)
    ensures Capped(Capped([r] + rest, cap) + b, cap) == Capped([r] + (rest + b), cap)
  {
    CappedCons(r, rest, cap);
    CappedCons(r, rest + b, cap);
    CappedCount(rest, b, cap, r.client);
    if CountOf(rest, r.client) < cap {
      assert Capped([r] + rest, cap) + b == [r] + (Capped(rest, cap) + b);
      CappedCons(r, Capped(rest, cap) + b, cap);
    } else {
      assert Capped([r] + rest, cap) + b == Capped(rest, cap) + b;
      OfConcat(rest, b, r.client);
    }
  }

  lemma {:induction false} CappedAppend<D>(a: seq<Row<D>>, b: seq<Row<D>>, cap: nat)
    ensures Capped(Capped(a, cap) + b, cap) == Capped(a + b, cap)
  {
    if a == [] {
      assert Capped(a, cap) + b == b && a + b == b;
    } else {
      assert a == [a[0]] + a[1..];
      assert a + b == [a[0]] + (a[1..] + b);
      CappedAppend(a[1..], b, cap);
      CappedAppendStep(a[0], a[1..], b, cap);
    }
  }

  /** In time order, capping first and ageing afterwards is the same as the reverse. */
  lemma {:induction false} AgeCommutesWithCap<D>(rows: seq<Row<D>>, cutoff: Time, cap: nat)
    requires Sorted(rows)
    ensures Since(Capped(rows, cap), cutoff) == Capped(Since(rows, cutoff), cap)
  {
    if rows != [] {
      var r, rest := rows[0], rows[1..];
      SortedHead(rows);
      AgeCommutesWithCap(rest, cutoff, cap);
      var kept := if CountOf(rest, r.client) < cap then [r] else [];
      SinceConcat(kept, Capped(rest, cap), cutoff);
      if r.at >= cutoff {
        SinceAll(rest, cutoff);
        assert Since(rows, cutoff) == [r] + rest;
        assert Since(kept, cutoff) == kept;
        CappedCons(r, rest, cap);
      } else {
        assert Since(kept, cutoff) == [];
        assert Since(rows, cutoff) == Since(rest, cutoff);
      }
    }
  }

  /**
   Pruning again after one more row gives what pruning the whole history once would give, so the
   bounded log loses nothing that a single pass over everything would have kept.
   */
  lemma PruneIncrementally<D>(history: seq<Row<D>>, r: Row<D>, early: Time, late: Time, cap: nat)
    requires Sorted(history + [r]) && early <= late
    ensures Pruned(Pruned(history, early, cap) + [r], late, cap) == Pruned(history + [r], late, cap)
  {
    var aged := Since(history, early);
    assert Sorted(history) by { assert forall i :: 0 <= i < |history| ==> (history + [r])[i] == history[i]; }
    SinceSorted(history, early);
    SinceConcat(Capped(aged, cap), [r], late);
    AgeCommutesWithCap(aged, late, cap);
    SinceTwice(history, early, late);
    CappedAppend(Since(history, late), Since([r], late), cap);
    SinceConcat(history, [r], late);
  }

  /** What one client sees of a pruned sequence. */
  lemma PrunedOf<D>(rows: seq<Row<D>>, cutoff: Time, cap: nat, c: ClientId)
    ensures Of(Pruned(rows, cutoff, cap), c) == Newest(Since(Of(rows, c), cutoff), cap)
  {
    CappedOf(Since(rows, cutoff), cap, c);
    OfSince(rows, c, cutoff);
  }

  /** In time order the rows since a cutoff are a suffix. */
  lemma {:induction false} SinceIsSuffix<D>(s: seq<Row<D>>, cutoff: Time)
    requires Sorted(s)
    ensures |Since(s, cutoff)| <= |s| && Since(s, cutoff) == s[|s| - |Since(s, cutoff)|..]
  {
    if s != [] {
      if s[0].at >= cutoff {
        SinceAll(s, cutoff);
      } else {
        SinceIsSuffix(s[1..], cutoff);
      }
    }
  }

  lemma SinceOfRecent<D>(s: seq<Row<D>>, n: nat, cutoff: Time)
    requires Sorted(s) && n < |s| && s[0].at >= cutoff
    ensures Since(Newest(s, n), cutoff) == Newest(Since(s, cutoff), n)
  {
    assert forall r :: r in Newest(s, n) ==> r in s;
    SinceAll(s, cutoff);
    SinceAll(Newest(s, n), cutoff);
  }

  /** In time order, ageing a suffix gives a suffix of what ageing the whole gives. */
  lemma {:induction false} SinceOfSuffix<D>(s: seq<Row<D>>, n: nat, cutoff: Time)
    requires Sorted(s)
    ensures Since(Newest(s, n), cutoff) == Newest(Since(s, cutoff), n)
  {
    if |s| <= n {
      assert |Since(s, cutoff)| <= |s| by { SinceMembers(s, cutoff); }
    } else {
      SortedHead(s);
      if s[0].at >= cutoff {
        SinceOfRecent(s, n, cutoff);
      } else {
        assert Newest(s, n) == Newest(s[1..], n);
        SinceOfSuffix(s[1..], n, cutoff);
      }
    }
  }

  /** A reader with a later cutoff than the pruner's sees the newest `cap` of the rows it asks for. */
  lemma SinceOfPruned<D>(rows: seq<Row<D>>, early: Time, late: Time, cap: nat, c: ClientId)
    requires Sorted(rows) && early <= late
    ensures Since(Of(Pruned(rows, early, cap), c), late) == Newest(Since(Of(rows, c), late), cap)
  {
    PrunedOf(rows, early, cap, c);
    OfSorted(rows, c);
    SinceSorted(Of(rows, c), early);
    SinceOfSuffix(Since(Of(rows, c), early), cap, late);
    SinceTwice(Of(rows, c), early, late);
  }

  // ---------- original order ----------

  /** `a` can be obtained from `b` by leaving elements out. */
  ghost predicate Subsequence<T>(a: seq<T>, b: seq<T>) {
    a == [] || (b != [] && ((a[0] == b[0] && Subsequence(a[1..], b[1..])) || Subsequence(a, b[1..])))
  }

  lemma {:induction false} SubsequenceTransitive<T>(a: seq<T>, b: seq<T>, c: seq<T>)
    requires Subsequence(a, b) && Subsequence(b, c)
    ensures Subsequence(a, c)
  {
    if a != [] {
      if b[0] == c[0] && Subsequence(b[1..], c[1..]) {
        if a[0] == b[0] && Subsequence(a[1..], b[1..]) {
          SubsequenceTransitive(a[1..], b[1..], c[1..]);
        } else {
          SubsequenceTransitive(a, b[1..], c[1..]);
        }
      } else {
        SubsequenceTransitive(a, b, c[1..]);
      }
    }
  }

  lemma {:induction false} CappedSubsequence<D>(rows: seq<Row<D>>, cap: nat)
    ensures Subsequence(Capped(rows, cap), rows)
  {
    if rows != [] {
      CappedSubsequence(rows[1..], cap);
      assert Capped(rows, cap) == (if CountOf(rows[1..], rows[0].client) < cap then [rows[0]] + Capped(rows[1..], cap)
                                   else Capped(rows[1..], cap));
    }
  }

  lemma {:induction false} SinceSubsequence<D>(rows: seq<Row<D>>, cutoff: Time)
    ensures Subsequence(Since(rows, cutoff), rows)
  {
    if rows != [] {
      SinceSubsequence(rows[1..], cutoff);
      assert Since(rows, cutoff) == (if rows[0].at >= cutoff then [rows[0]] + Since(rows[1..], cutoff)
                                     else Since(rows[1..], cutoff));
    }
  }

  /** Pruning never reorders rows. */
  lemma PrunedSubsequence<D>(rows: seq<Row<D>>, cutoff: Time, cap: nat)
    ensures Subsequence(Pruned(rows, cutoff, cap), rows)
  {
    SinceSubsequence(rows, cutoff);
    CappedSubsequence(Since(rows, cutoff), cap);
    SubsequenceTransitive(Pruned(rows, cutoff, cap), Since(rows, cutoff), rows);
  }
}
