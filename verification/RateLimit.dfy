/** The sliding-window limiter: every call is remembered until it is a window old, allowed or not. */
module RateLimit {
  import opened Common

  /** One `check_rate_limit` call. */
  datatype Call = Call(bucket: string, address: string, at: Time, max: int, window: Time)

  type Hits = map<string, seq<Time>>

  function Key(bucket: string, address: string): string { bucket + ":" + address }

  function Recent(hits: seq<Time>, now: Time, window: Time): seq<Time> {
    if hits == [] then []
    else (if now - hits[0] < window then [hits[0]] else []) + Recent(hits[1..], now, window)
  }

  function Lookup(hits: Hits, key: string): seq<Time> { if key in hits then hits[key] else [] }

  /** The list stored for the call's key afterwards. */
  function Hit(hits: Hits, c: Call): seq<Time> {
    Recent(Lookup(hits, Key(c.bucket, c.address)), c.at, c.window) + [c.at]
  }

  function Step(hits: Hits, c: Call): Hits { hits[Key(c.bucket, c.address) := Hit(hits, c)] }

  predicate Allowed(hits: Hits, c: Call) { |Hit(hits, c)| <= c.max }

  /** The table after a run of calls. */
  function After(calls: seq<Call>): Hits {
    if calls == [] then map[] else Step(After(calls[..|calls| - 1]), calls[|calls| - 1])
  }

  /** How many calls of one bucket and address made inside [from, to) were allowed. */
  function AllowedIn(calls: seq<Call>, bucket: string, address: string, from: Time, to: Time): nat {
    if calls == [] then 0
    else
      var init, c := calls[..|calls| - 1], calls[|calls| - 1];
      AllowedIn(init, bucket, address, from, to)
      + if c.bucket == bucket && c.address == address && from <= c.at < to && Allowed(After(init), c) then 1 else 0
  }

  ghost predicate InTimeOrder(calls: seq<Call>) {
    forall i, j :: 0 <= i < j < |calls| ==> calls[i].at <= calls[j].at
  }

  ghost predicate BucketNames(calls: seq<Call>) {
    forall c :: c in calls ==> ':' !in c.bucket
  }

  ghost predicate FixedLimit(calls: seq<Call>, bucket: string, max: int, window: Time) {
    forall c :: c in calls && c.bucket == bucket ==> c.max == max && c.window == window
  }

  function FirstColon(s: string): nat {
    if s == [] || s[0] == ':' then 0 else 1 + FirstColon(s[1..])
  }

  lemma {:induction false} KeyColon(bucket: string, address: string)
    requires ':' !in bucket
    ensures FirstColon(Key(bucket, address)) == |bucket|
  {
    if bucket != [] {
      assert Key(bucket, address)[1..] == Key(bucket[1..], address);
      KeyColon(bucket[1..], address);
    }
  }

  /** A bucket name without a colon can be read back from the key. */
  lemma KeysAreDistinct(b1: string, a1: string, b2: string, a2: string)
    requires ':' !in b1 && ':' !in b2 && Key(b1, a1) == Key(b2, a2)
    ensures b1 == b2 && a1 == a2
  {
    var k := Key(b1, a1);
    KeyColon(b1, a1);
    KeyColon(b2, a2);
    assert k[..|b1|] == b1 && k[..|b2|] == b2;
    assert k[|b1| + 1..] == a1 && k[|b2| + 1..] == a2;
  }

  /** How many calls for a key came after a moment, allowed or not. */
  function CallsAfter(calls: seq<Call>, key: string, since: Time): nat {
    if calls == [] then 0
    else
      var c := calls[|calls| - 1];
      CallsAfter(calls[..|calls| - 1], key, since) + if Key(c.bucket, c.address) == key && c.at > since then 1 else 0
  }

  function TimesAfter(hits: seq<Time>, since: Time): nat {
    if hits == [] then 0 else (if hits[0] > since then 1 else 0) + TimesAfter(hits[1..], since)
  }

  lemma {:induction false} TimesAfterConcat(a: seq<Time>, b: seq<Time>, since: Time)
    ensures TimesAfter(a + b, since) == TimesAfter(a, since) + TimesAfter(b, since)
  {
    if a == [] {
      assert a + b == b;
    } else {
      assert (a + b)[1..] == a[1..] + b;
      TimesAfterConcat(a[1..], b, since);
    }
  }

  /** Forgetting hits that are a window old changes no count inside the window, and leaves nothing else. */
  lemma {:induction false} RecentKeepsCount(hits: seq<Time>, now: Time, window: Time, since: Time)
    requires since >= now - window
    ensures TimesAfter(Recent(hits, now, window), since) == TimesAfter(hits, since)
    ensures |Recent(hits, now, window)| == TimesAfter(hits, now - window)
  {
    if hits != [] {
      RecentKeepsCount(hits[1..], now, window, since);
      TimesAfterConcat(if now - hits[0] < window then [hits[0]] else [], Recent(hits[1..], now, window), since);
    }
  }

  /** Although every call prunes, the stored list still counts all calls of the current window. */
  lemma {:induction false} ListCountsCalls(
    calls: seq<Call>, bucket: string, address: string, now: Time, window: Time, since: Time)
    requires BucketNames(calls) && ':' !in bucket
    requires forall c :: c in calls && c.bucket == bucket ==> c.window == window
    requires forall c :: c in calls ==> c.at <= now
    requires since >= now - window
    ensures TimesAfter(Lookup(After(calls), Key(bucket, address)), since)
         == CallsAfter(calls, Key(bucket, address), since)
  {
    if calls != [] {
      var init, c, key := calls[..|calls| - 1], calls[|calls| - 1], Key(bucket, address);
      ListCountsCalls(init, bucket, address, now, window, since);
      if Key(c.bucket, c.address) == key {
        KeysAreDistinct(c.bucket, c.address, bucket, address);
        assert c in calls && c.at <= now;
        var before := Lookup(After(init), key);
        RecentKeepsCount(before, c.at, window, since);
        TimesAfterConcat(Recent(before, c.at, window), [c.at], since);
      }
    }
  }

  /**
   A call is allowed iff fewer than `max` calls of its bucket and address, refused ones included, fall in the window
   before it.
   */
  lemma AllowedIff(calls: seq<Call>, c: Call)
    requires InTimeOrder(calls + [c]) && BucketNames(calls + [c])
    requires forall d :: d in calls && d.bucket == c.bucket ==> d.window == c.window
    ensures Allowed(After(calls), c) <==> CallsAfter(calls, Key(c.bucket, c.address), c.at - c.window) < c.max
  {
    var all := calls + [c];
    assert all[|calls|] == c && c in all;
    forall d | d in calls ensures d.at <= c.at && d in all {
      var i :| 0 <= i < |calls| && calls[i] == d;
      assert all[i] == d;
    }
    ListCountsCalls(calls, c.bucket, c.address, c.at, c.window, c.at - c.window);
    RecentKeepsCount(Lookup(After(calls), Key(c.bucket, c.address)), c.at, c.window, c.at - c.window);
  }

  lemma {:induction false} AllowedAreCalls(
    calls: seq<Call>, bucket: string, address: string, from: Time, to: Time, since: Time)
    requires since < from
    ensures AllowedIn(calls, bucket, address, from, to) <= CallsAfter(calls, Key(bucket, address), since)
  {
    if calls != [] {
      AllowedAreCalls(calls[..|calls| - 1], bucket, address, from, to, since);
    }
  }

  /** The last call was allowed, so the window before it had room. */
  lemma LastAllowed(calls: seq<Call>, bucket: string, address: string, max: int, window: Time, from: Time)
    requires calls != [] && InTimeOrder(calls) && BucketNames(calls) && ':' !in bucket
    requires FixedLimit(calls, bucket, max, window)
    requires var c := calls[|calls| - 1];
             && c.bucket == bucket && c.address == address && from <= c.at < from + window
             && Allowed(After(calls[..|calls| - 1]), c)
    ensures AllowedIn(calls[..|calls| - 1], bucket, address, from, from + window) < max
  {
    var init, c := calls[..|calls| - 1], calls[|calls| - 1];
    assert c in calls && c.max == max && c.window == window;
    assert init + [c] == calls;
    AllowedIff(init, c);
    AllowedAreCalls(init, bucket, address, from, from + window, c.at - window);
  }

  /** In any half-open interval one window long, at most `max` calls of a bucket and address were allowed. */
  lemma {:induction false} SlidingWindow(
    calls: seq<Call>, bucket: string, address: string, max: int, window: Time, from: Time)
    requires InTimeOrder(calls) && BucketNames(calls) && ':' !in bucket
    requires FixedLimit(calls, bucket, max, window)
    ensures AllowedIn(calls, bucket, address, from, from + window) <= if max < 0 then 0 else max
  {
    if calls != [] {
      var init, c := calls[..|calls| - 1], calls[|calls| - 1];
      if c.bucket == bucket && c.address == address && from <= c.at < from + window && Allowed(After(init), c) {
        LastAllowed(calls, bucket, address, max, window, from);
      } else {
        SlidingWindow(init, bucket, address, max, window, from);
      }
    }
  }
}
