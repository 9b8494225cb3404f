/** The rate limiter's mutable map, and its sweep, against the pure specification. */
module Limiter {
  import opened Prelude
  import opened Sorting
  import opened RateLimiting

  /** Map.delete. */
  function Removed(s: seq<Entry>, k: Key): seq<Entry> {
    var i := FindKey(s, k);
    if i < |s| then s[..i] + s[i + 1..] else s
  }

  lemma RemovedMiddle(pre: seq<Entry>, e: Entry, post: seq<Entry>)
    requires Distinct(pre + [e] + post)
    ensures Removed(pre + [e] + post, e.key) == pre + post && Distinct(pre + post)
  {
    var s := pre + [e] + post;
    var i := FindKey(s, e.key);
    assert s[|pre|] == e;
    assert i == |pre|;
    assert forall j :: 0 <= j < |pre + post| ==> (pre + post)[j] == if j < |pre| then s[j] else s[j + 1];
  }

  lemma {:induction false} KeepAll(s: seq<Entry>, p: Entry -> bool)
    requires forall e :: e in s ==> p(e)
    ensures Keep(s, p) == s
  {
    if s != [] {
      KeepAll(s[..|s| - 1], p);
    }
  }

  function ButFor(k: Key): Entry -> bool {
    (e: Entry) => e.key != k
  }

  lemma RemovedLast(s: seq<Entry>, k: Key)
    requires s != [] && Distinct(s)
    ensures var n := |s| - 1;
      Removed(s, k) == if s[n].key == k then s[..n] else Removed(s[..n], k) + [s[n]]
  {
    var n := |s| - 1;
    assert FindKey(s[..n], k) < n ==> s[FindKey(s[..n], k)].key != s[n].key;
  }

  lemma {:induction false} RemovedIsKeep(s: seq<Entry>, k: Key)
    requires Distinct(s)
    ensures Removed(s, k) == Keep(s, ButFor(k))
  {
    if s != [] {
      var n := |s| - 1;
      RemovedIsKeep(s[..n], k);
      RemovedLast(s, k);
      hide Removed;
      if s[n].key == k {
        KeepAll(s[..n], ButFor(k));
      }
    }
  }

  lemma {:induction false} KeepTwice(s: seq<Entry>, p: Entry -> bool, q: Entry -> bool, both: Entry -> bool)
    requires forall e :: e in s ==> (both(e) <==> p(e) && q(e))
    ensures Keep(Keep(s, p), q) == Keep(s, both)
  {
    if s != [] {
      var n := |s| - 1;
      KeepTwice(s[..n], p, q, both);
      assert (Keep(s[..n], p) + [s[n]])[..|Keep(s[..n], p)|] == Keep(s[..n], p);
    }
  }

  lemma RemoveOneMore(s: seq<Entry>, victims: seq<Entry>, v: Entry)
    requires Distinct(s)
    ensures Removed(WithoutAll(s, victims), v.key) == WithoutAll(s, victims + [v])
  {
    var p := (e: Entry) => !exists x :: x in victims && x.key == e.key;
    var q := ButFor(v.key);
    var both := (e: Entry) => !exists x :: x in victims + [v] && x.key == e.key;
    KeepDistinct(s, p);
    RemovedIsKeep(WithoutAll(s, victims), v.key);
    forall e | e in s ensures both(e) <==> p(e) && q(e) {
      if !(p(e) && q(e)) {
        var x :| x in victims + [v] && x.key == e.key;
      } else {
        assert forall x :: x in victims + [v] ==> x in victims || x == v;
      }
    }
    KeepTwice(s, p, q, both);
  }

  lemma SweepNothing(now: int, idleMs: int)
    ensures SweepIdle([], now, idleMs) == []
  {
  }

  lemma SweepNext(s: seq<Entry>, i: nat, now: int, idleMs: int)
    requires i < |s|
    ensures SweepIdle(s[..i + 1], now, idleMs)
         == SweepIdle(s[..i], now, idleMs) + if Idle(s[i], now, idleMs) then [] else [s[i]]
    ensures s[i..] == [s[i]] + s[i + 1..]
  {
    assert s[..i + 1][..i] == s[..i];
  }

  class RateLimiter {
    const options: Options
    var buckets: seq<Entry>

    constructor (options: Options)
      ensures this.options == options && buckets == []
    {
      this.options := options;
      buckets := [];
    }

    method Check(r: Request) returns (d: Decision)
      requires Distinct(buckets)
      modifies this
      ensures Distinct(buckets)
      ensures buckets == RateLimiting.Check(options, old(buckets), r).state
      ensures d == RateLimiting.Check(options, old(buckets), r).decision
    {
      hide Served, Spent, Verdict, Get, Put, Evicted, Distinct;
      var tier := options.TierFor(r.key);
      var bucket := Served(tier, Get(buckets, r.key), r.now);
      PutGets(buckets, r.key, bucket, r.key);
      CheckGets(options, buckets, r, r.key);
      buckets := Put(buckets, r.key, bucket);
      EvictIdle(r.now);
      d := Verdict(tier, bucket);
      if Get(buckets, r.key).Some? {
        buckets := Put(buckets, r.key, Spent(bucket));
      }
    }

    method Size() returns (n: nat)
      ensures n == |buckets|
    {
      n := |buckets|;
    }

    method Reset()
      modifies this
      ensures buckets == []
    {
      buckets := [];
    }

    method EvictIdle(now: int)
      requires Distinct(buckets)
      modifies this
      ensures buckets == Evicted(options, old(buckets), now)
    {
      var idleMs, maxClients := options.IdleMs(), options.MaxClients();
      if |buckets| <= maxClients && |buckets| < 128 {
        return;
      }
      DropIdle(now, idleMs);
      KeepDistinct(old(buckets), (e: Entry) => !Idle(e, now, idleMs));
      if |buckets| > maxClients {
        DropOldest(maxClients);
      }
    }

    method DropIdle(now: int, idleMs: int)
      requires Distinct(buckets)
      modifies this
      ensures buckets == SweepIdle(old(buckets), now, idleMs)
    {
      hide Distinct, SweepIdle, Removed;
      var entries := buckets;
      SweepNothing(now, idleMs);
      for i := 0 to |entries|
        invariant buckets == SweepIdle(entries[..i], now, idleMs) + entries[i..] && Distinct(buckets)
      {
        ghost var kept := SweepIdle(entries[..i], now, idleMs);
        SweepNext(entries, i, now, idleMs);
        assert buckets == kept + [entries[i]] + entries[i + 1..];
        RemovedMiddle(kept, entries[i], entries[i + 1..]);
        if Idle(entries[i], now, idleMs) {
          buckets := Removed(buckets, entries[i].key);
        }
      }
      assert entries[..|entries|] == entries;
    }

    method DropOldest(maxClients: int)
      requires Distinct(buckets) && |buckets| > maxClients
      modifies this
      ensures buckets == DropExcess(old(buckets), maxClients)
    {
      hide SortBy, Distinct, Removed, Keep;
      var all := buckets;
      var byAge := SortBy(SeenNotLater, buckets);
      var excess := |buckets| - maxClients;
      KeepAll(all, (e: Entry) => !exists x :: x in byAge[..0] && x.key == e.key);
      var i := 0;
      while i < excess
        invariant 0 <= i <= excess
        invariant buckets == WithoutAll(all, byAge[..if i < |byAge| then i else |byAge|])
      {
        hide WithoutAll;
        if i < |byAge| {
          RemoveOneMore(all, byAge[..i], byAge[i]);
          assert byAge[..i + 1] == byAge[..i] + [byAge[i]];
          buckets := Removed(buckets, byAge[i].key);
        }
        i := i + 1;
      }
      assert byAge[..|byAge|] == byAge;
    }
  }
}
