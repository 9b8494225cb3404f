/** When anything the rate limiter forgets can be noticed by a client: the idle sweep and the cap together. */
module IdleSweep {
  import opened Prelude
  import opened Sorting
  import opened RateLimiting
  import opened ClientCap

  /** The number of tracked clients from which on the map is swept. */
  const SWEPT_FROM := 128

  // ----- few clients: no sweep at all -----

  lemma {:induction false} NeverSwept(o: Options, run: seq<Request>, k: Key)
    requires |Clients(run)| <= o.MaxClients() && |Clients(run)| < SWEPT_FROM
    ensures Get(After(o, [], run), k) == Lone(o, run, k)
  {
    if run != [] {
      var n := |run| - 1;
      var s, r := After(o, [], run[..n]), run[n];
      hide Served, Spent, Get, Put, Distinct, Tracks, Check;
      assert r.key in Clients(run) && Clients(run[..n]) <= Clients(run);
      Smaller(Clients(run[..n]), Clients(run));
      NeverSwept(o, run[..n], k);
      NeverSwept(o, run[..n], r.key);
      DistinctNothing();
      StaysDistinct(o, [], run[..n]);
      OnlyClientsTracked(o, run[..n], Clients(run));
      var b := Served(o.TierFor(r.key), Get(s, r.key), r.now);
      PutGets(s, r.key, b, k);
      PutTracks(s, r.key, b, Clients(run));
      SizeIsKeys(Put(s, r.key, b), Clients(run));
      assert Evicted(o, Put(s, r.key, b), r.now) == Put(s, r.key, b);
      CheckGets(o, s, r, k);
    }
  }

  lemma FewClientsUnswept(o: Options, clients: set<Key>, a: Key)
    requires |clients| <= o.MaxClients() && |clients| < SWEPT_FROM
    ensures EvictionUnseen(o, clients, a)
  {
    hide Monotone, Answer, Served, Verdict, Lone, After, Get;
    forall run: seq<Request>, n: nat | Monotone(run) && Clients(run) <= clients && n < |run| && run[n].key == a
      ensures Answer(o, run, n) == Alone(o, run, n)
    {
      assert Clients(run[..n]) <= Clients(run);
      Smaller(Clients(run[..n]), clients);
      NeverSwept(o, run[..n], a);
      AnswerIs(o, run, n);
    }
  }

  // ----- a sweep that takes everyone -----

  /** An idle bucket does not survive a sweep. */
  lemma SweptIsGone(o: Options, s: seq<Entry>, now: int, k: Key)
    requires Distinct(s) && (|s| > o.MaxClients() || |s| >= SWEPT_FROM)
    requires Get(s, k).Some? && Idle(Entry(k, Get(s, k).value), now, o.IdleMs())
    ensures Get(Evicted(o, s, now), k) == None
  {
    hide Get, Distinct, Keep;
    var idle := (e: Entry) => !Idle(e, now, o.IdleMs());
    var swept := Keep(s, idle);
    KeepGets(s, idle, k);
    KeepDistinct(s, idle);
    if |swept| > o.MaxClients() {
      var victims := Excess(swept, o.MaxClients());
      KeepGets(swept, (e: Entry) => !exists v :: v in victims && v.key == e.key, k);
    }
  }

  /** The first moment at which a bucket last seen at zero is idle. */
  function SweepTime(o: Options): nat {
    if o.IdleMs() < 0 then 0 else o.IdleMs() + 1
  }

  lemma NewcomerSweeps(o: Options, s: seq<Entry>, keys: seq<Key>, a: Key, newcomer: Key)
    requires AtZero(s, keys) && NoRepeats(keys) && a in keys && newcomer !in keys
    requires |keys| >= o.MaxClients() || |keys| >= SWEPT_FROM - 1
    ensures Get(Check(o, s, Request(newcomer, SweepTime(o))).state, a) == None
  {
    hide Served, Spent, Verdict, Get, Put, NoRepeats, Distinct, Check, Evicted;
    var now := SweepTime(o);
    var b := Served(o.TierFor(newcomer), Get(s, newcomer), now);
    DistinctKeys(s, keys);
    PutGets(s, newcomer, b, a);
    PutAdds(s, keys, newcomer, b);
    var i :| 0 <= i < |keys| && keys[i] == a;
    assert s[i].key == a;
    GetIs(s, i);
    SweptIsGone(o, Put(s, newcomer, b), now, a);
    CheckGets(o, s, Request(newcomer, now), a);
  }

  lemma PutAdds(s: seq<Entry>, keys: seq<Key>, k: Key, b: Bucket)
    requires AtZero(s, keys) && k !in keys
    ensures |Put(s, k, b)| == |keys| + 1
  {
    NotFound(s, keys, k);
  }

  // ----- the run that notices -----

  /** Spend every token, let the others in, wait until all are idle, let one more client in. */
  function Waiting(o: Options, a: Key, others: seq<Key>, newcomer: Key): seq<Request>
    requires o.TierFor(a).capacity >= 0.0
  {
    Noticing(o, a, others) + [Request(newcomer, SweepTime(o))]
  }

  lemma SweptAfterWaiting(o: Options, a: Key, others: seq<Key>, newcomer: Key)
    requires o.TierFor(a).capacity >= 1.0 && NoRepeats([a] + others) && newcomer !in [a] + others
    requires Room(o, |others|) && (|others| + 1 >= o.MaxClients() || |others| + 1 >= SWEPT_FROM - 1)
    ensures Get(After(o, [], Waiting(o, a, others, newcomer)), a) == None
  {
    hide Check, AtZero, NoRepeats, Repeats, AllOf, Get;
    var before := Noticing(o, a, others);
    OthersArrive(o, a, o.TierFor(a).capacity.Floor, others);
    AfterStep(o, before, Request(newcomer, SweepTime(o)));
    assert ([a] + others)[0] == a;
    NewcomerSweeps(o, After(o, [], before), [a] + others, a, newcomer);
  }

  lemma LoneAfterWaiting(o: Options, a: Key, others: seq<Key>, newcomer: Key)
    requires o.TierFor(a).capacity >= 1.0 && NoRepeats([a] + others) && newcomer !in [a] + others
    ensures Lone(o, Waiting(o, a, others, newcomer), a) == Some(Bucket(LeftOver(o.TierFor(a)), 0, 0))
  {
    hide Lone, Repeats, AllOf, NoRepeats;
    var n := o.TierFor(a).capacity.Floor;
    assert ([a] + others)[0] == a;
    FirstIsNoOther(a, others);
    LoneSpends(o, a, n);
    OthersLeaveLone(o, Repeats(a, n), others, a);
    LoneStep(o, Noticing(o, a, others), Request(newcomer, SweepTime(o)), a);
  }

  predicate WholeCapacity(tier: Tier) {
    tier.capacity >= 1.0 && tier.capacity.Floor as real == tier.capacity
  }

  /** What a burst leaves in a full bucket: less than a token. */
  function LeftOver(tier: Tier): real {
    tier.capacity - tier.capacity.Floor as real
  }

  /** After a burst, the shortest idle period that is swept does not bring back every whole token. */
  predicate BurstOutlasts(o: Options, tier: Tier) {
    LeftOver(tier) + Gain(o.IdleMs() + 1, tier.refillPerSec) < tier.capacity.Floor as real
  }

  /** A full bucket and one that lacks a whole token are told different things. */
  lemma ShortOfFullShows(o: Options, tier: Tier)
    requires tier.capacity >= 1.0 && tier.refillPerSec >= 0.0 && BurstOutlasts(o, tier)
    ensures Verdict(tier, Served(tier, None, SweepTime(o)))
         != Verdict(tier, Served(tier, Some(Bucket(LeftOver(tier), 0, 0)), SweepTime(o)))
  {
    var t := SweepTime(o);
    assert Gain(t - t, tier.refillPerSec) == 0.0;
    assert Gain(t - 0, tier.refillPerSec) == Gain(o.IdleMs() + 1, tier.refillPerSec);
    GainIsPositive(t, tier.refillPerSec);
    hide Gain;
    var full, short := Served(tier, None, t), Served(tier, Some(Bucket(LeftOver(tier), 0, 0)), t);
    assert full.tokens == tier.capacity && short.tokens < tier.capacity.Floor as real;
    assert (tier.capacity - 1.0).Floor == tier.capacity.Floor - 1;
  }

  lemma WaitingShows(o: Options, a: Key, others: seq<Key>, newcomer: Key)
    requires o.TierFor(a).capacity >= 1.0 && o.TierFor(a).refillPerSec >= 0.0 && BurstOutlasts(o, o.TierFor(a))
    requires NoRepeats([a] + others) && newcomer !in [a] + others
    requires Room(o, |others|) && (|others| + 1 >= o.MaxClients() || |others| + 1 >= SWEPT_FROM - 1)
    ensures var run := Waiting(o, a, others, newcomer) + [Request(a, SweepTime(o))];
      Answer(o, run, |run| - 1) != Alone(o, run, |run| - 1)
  {
    var before := Waiting(o, a, others, newcomer);
    var run := before + [Request(a, SweepTime(o))];
    hide Get, Served, Verdict, After, Answer, Lone, NoRepeats, Waiting, BurstOutlasts;
    assert run[..|run| - 1] == before;
    SweptAfterWaiting(o, a, others, newcomer);
    LoneAfterWaiting(o, a, others, newcomer);
    ShortOfFullShows(o, o.TierFor(a));
    AnswerIs(o, run, |run| - 1);
  }

  lemma WaitingIsOrderly(o: Options, a: Key, others: seq<Key>, newcomer: Key, clients: set<Key>)
    requires o.TierFor(a).capacity >= 1.0
    requires a in clients && newcomer in clients && forall k :: k in others ==> k in clients
    ensures var run := Waiting(o, a, others, newcomer) + [Request(a, SweepTime(o))];
      Monotone(run) && Clients(run) <= clients
  {
    var first := Noticing(o, a, others);
    var run := Waiting(o, a, others, newcomer) + [Request(a, SweepTime(o))];
    NoticingIs(o, a, others);
    assert forall i :: 0 <= i < |first| ==> run[i] == (first + [Request(a, 0)])[i] && first[i].now == 0;
    NoticingIsTheirs(o, a, others, clients);
    hide Noticing;
    forall r | r in run ensures r.key in clients {
      if r in first {
        assert r in first + [Request(a, 0)];
        assert r.key in Clients(first + [Request(a, 0)]);
      }
    }
  }

  /** Enough clients to start a sweep, and too short a wait to refill, whatever the capacity: the run above shows it. */
  lemma SweepShows(o: Options, clients: set<Key>, a: Key)
    requires a in clients && o.MaxClients() >= 1
    requires o.TierFor(a).capacity >= 1.0 && o.TierFor(a).refillPerSec >= 0.0 && BurstOutlasts(o, o.TierFor(a))
    requires |clients| > o.MaxClients() || |clients| >= SWEPT_FROM
    ensures !EvictionUnseen(o, clients, a)
  {
    var m := if o.MaxClients() < SWEPT_FROM - 1 then o.MaxClients() else SWEPT_FROM - 1;
    var chosen := Choose(clients - {a}, m);
    var others, newcomer := chosen[..m - 1], chosen[m - 1];
    assert chosen == others + [newcomer];
    InitHasNoRepeats(others, newcomer);
    assert newcomer in chosen && forall k :: k in others ==> k in chosen;
    JoinFirst(a, others);
    hide Answer, Alone, Monotone, Clients, NoRepeats, EvictionUnseen, BurstOutlasts, Waiting;
    WaitingShows(o, a, others, newcomer);
    WaitingIsOrderly(o, a, others, newcomer, clients);
    OneRunIsEnough(o, clients, a, Waiting(o, a, others, newcomer) + [Request(a, SweepTime(o))]);
  }

  // ----- the exact condition -----

  lemma WholeBurst(o: Options, tier: Tier)
    requires WholeCapacity(tier) && tier.refillPerSec >= 0.0
    ensures BurstOutlasts(o, tier) <==> !EvictsOnlyFull(o, tier)
  {
  }

  /** For whole capacities, exactly when a client can never tell that the limiter forgets buckets: there are no more
      clients than the cap allows, and either too few to start a sweep or an idle limit that refills any bucket. */
  lemma EvictionUnseenIff(o: Options, clients: set<Key>, a: Key)
    requires a in clients && WholeCapacity(o.TierFor(a)) && o.TierFor(a).refillPerSec >= 0.0
    ensures EvictionUnseen(o, clients, a) <==>
      |clients| <= o.MaxClients() && (|clients| < SWEPT_FROM || EvictsOnlyFull(o, o.TierFor(a)))
  {
    hide EvictionUnseen, EvictsOnlyFull;
    if EvictsOnlyFull(o, o.TierFor(a)) {
      CapUnseenIff(o, clients, a);
    } else if |clients| <= o.MaxClients() && |clients| < SWEPT_FROM {
      FewClientsUnswept(o, clients, a);
    } else if o.MaxClients() < 1 {
      assert |clients| > 0;
      AnyoneNotices(o, clients, a);
    } else {
      assert BurstOutlasts(o, o.TierFor(a)) by { WholeBurst(o, o.TierFor(a)); }
      SweepShows(o, clients, a);
    }
  }
}
