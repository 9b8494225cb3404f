/** When the rate limiter's cap on tracked clients can be noticed by a client. */
module ClientCap {
  import opened Prelude
  import opened Sorting
  import opened RateLimiting

  /** What the limiter would answer to request n if it kept every bucket for ever. */
  function Alone(o: Options, run: seq<Request>, n: nat): Decision
    requires n < |run|
  {
    var k := run[n].key;
    Verdict(o.TierFor(k), Served(o.TierFor(k), Lone(o, run[..n], k), run[n].now))
  }

  /** No run of these clients shows k an answer that depends on anyone else. */
  ghost predicate EvictionUnseen(o: Options, clients: set<Key>, k: Key) {
    forall run: seq<Request>, n: nat ::
      Monotone(run) && Clients(run) <= clients && n < |run| && run[n].key == k ==> Answer(o, run, n) == Alone(o, run, n)
  }

  // ----- a map touched only at time zero -----

  ghost predicate NoRepeats(keys: seq<Key>) {
    forall i, j :: 0 <= i < j < |keys| ==> keys[i] != keys[j]
  }

  /** The map holds exactly these keys, in this order, all last seen at time zero. */
  ghost predicate AtZero(s: seq<Entry>, keys: seq<Key>) {
    && |s| == |keys|
    && forall i :: 0 <= i < |s| ==> s[i].key == keys[i] && s[i].bucket.lastSeenMs == 0
  }

  lemma {:induction false} NoneIdle(s: seq<Entry>, idleMs: int)
    requires idleMs >= 0 && forall i :: 0 <= i < |s| ==> s[i].bucket.lastSeenMs == 0
    ensures SweepIdle(s, 0, idleMs) == s
  {
    if s != [] {
      NoneIdle(s[..|s| - 1], idleMs);
    }
  }

  lemma NotFound(s: seq<Entry>, keys: seq<Key>, k: Key)
    requires AtZero(s, keys) && k !in keys
    ensures FindKey(s, k) == |s|
  {
  }

  /** One client more than n causes no sweep, or none that finds anyone idle at once. */
  predicate Room(o: Options, n: nat) {
    n < o.MaxClients() && (o.IdleMs() >= 0 || n < 127)
  }

  /** While there is room a new client is added at the end and nobody leaves. */
  lemma NewcomerFits(o: Options, s: seq<Entry>, keys: seq<Key>, k: Key)
    requires AtZero(s, keys) && NoRepeats(keys) && k !in keys && Room(o, |keys|)
    ensures AtZero(Check(o, s, Request(k, 0)).state, keys + [k]) && NoRepeats(keys + [k])
  {
    hide Served, Spent, Verdict, SweepIdle;
    NotFound(s, keys, k);
    var b := Served(o.TierFor(k), Get(s, k), 0);
    ServedNow(o.TierFor(k), Get(s, k), 0);
    var put := s + [Entry(k, b)];
    if o.IdleMs() >= 0 {
      NoneIdle(put, o.IdleMs());
    }
    assert Evicted(o, put, 0) == put;
    assert AtZero(put, keys + [k]);
    TouchKeepsZero(put, keys + [k], k, Spent(b));
  }

  lemma ServedNow(tier: Tier, b: Option<Bucket>, now: int)
    ensures Served(tier, b, now).lastSeenMs == now && Spent(Served(tier, b, now)).lastSeenMs == now
  {
  }

  lemma TouchKeepsZero(s: seq<Entry>, keys: seq<Key>, k: Key, b: Bucket)
    requires AtZero(s, keys) && k in keys && b.lastSeenMs == 0
    ensures AtZero(Put(s, k, b), keys) && FindKey(s, k) < |s|
  {
    var i :| 0 <= i < |keys| && keys[i] == k;
    assert s[i].key == k;
    assert FindKey(s, k) <= i;
  }

  /** One client more than the cap displaces the first of those seen at the same time. */
  lemma NewcomerDisplacesFirst(o: Options, s: seq<Entry>, keys: seq<Key>, k: Key)
    requires o.IdleMs() >= 0 && AtZero(s, keys) && NoRepeats(keys) && k !in keys && |keys| == o.MaxClients() >= 1
    ensures Get(Check(o, s, Request(k, 0)).state, keys[0]) == None
  {
    hide Served, Spent, Verdict, SweepIdle, Keep, Get;
    NotFound(s, keys, k);
    var b := Served(o.TierFor(k), Get(s, k), 0);
    ServedNow(o.TierFor(k), Get(s, k), 0);
    var put := s + [Entry(k, b)];
    NoneIdle(put, o.IdleMs());
    FirstIsExcess(put, o.MaxClients());
    var swept := Evicted(o, put, 0);
    assert swept == DropExcess(put, o.MaxClients());
    assert Distinct(put) by { DistinctKeys(put, keys + [k]); }
    DroppedIsGone(put, o.MaxClients());
    EvictedGets(o, put, 0, k);
    PutGets(swept, k, Spent(b), keys[0]);
  }

  lemma DistinctKeys(s: seq<Entry>, keys: seq<Key>)
    requires AtZero(s, keys) && NoRepeats(keys)
    ensures Distinct(s)
  {
  }

  lemma FirstIsExcess(s: seq<Entry>, max: int)
    requires |s| == max + 1 >= 2 && forall i :: 0 <= i < |s| ==> s[i].bucket.lastSeenMs == 0
    ensures Excess(s, max) == [s[0]]
  {
    SortFixesOrdered(SeenNotLater, s);
  }

  lemma DroppedIsGone(s: seq<Entry>, max: int)
    requires Distinct(s) && |s| > max && |s| > 0 && Excess(s, max) == [s[0]]
    ensures Get(DropExcess(s, max), s[0].key) == None
  {
    var victims := Excess(s, max);
    GetIs(s, 0);
    assert s[0] in victims;
    KeepGets(s, (e: Entry) => !exists v :: v in victims && v.key == e.key, s[0].key);
  }

  // ----- the run that notices -----

  function Repeats(k: Key, n: nat): seq<Request> {
    seq(n, i => Request(k, 0))
  }

  function AllOf(keys: seq<Key>): seq<Request> {
    seq(|keys|, i requires 0 <= i < |keys| => Request(keys[i], 0))
  }

  /** Spend every whole token, let the others in, and come back. */
  function Noticing(o: Options, a: Key, others: seq<Key>): seq<Request>
    requires o.TierFor(a).capacity >= 0.0
  {
    Repeats(a, o.TierFor(a).capacity.Floor) + AllOf(others)
  }

  lemma AfterStep(o: Options, run: seq<Request>, r: Request)
    ensures After(o, [], run + [r]) == Check(o, After(o, [], run), r).state
  {
    assert (run + [r])[..|run|] == run;
  }

  lemma SameClientStays(o: Options, s: seq<Entry>, a: Key)
    requires o.MaxClients() >= 1 && (s == [] || AtZero(s, [a]))
    ensures AtZero(Check(o, s, Request(a, 0)).state, [a])
  {
    if s == [] {
      NewcomerFits(o, [], [], a);
      assert [] + [a] == [a];
    } else {
      hide Served, Spent, Verdict, Get, Put, SweepIdle, DropExcess, AtZero;
      var b := Served(o.TierFor(a), Get(s, a), 0);
      ServedNow(o.TierFor(a), Get(s, a), 0);
      OnlyEntry(s, a, b);
      OnlyEntry([Entry(a, b)], a, Spent(b));
    }
  }

  lemma OnlyEntry(s: seq<Entry>, a: Key, b: Bucket)
    requires AtZero(s, [a]) && b.lastSeenMs == 0
    ensures Put(s, a, b) == [Entry(a, b)] && AtZero([Entry(a, b)], [a]) && Get([Entry(a, b)], a) == Some(b)
  {
    assert s[0].key == a;
    assert FindKey(s, a) <= 0;
    assert FindKey([Entry(a, b)], a) <= 0;
  }

  lemma {:induction false} SpendingAlone(o: Options, a: Key, n: nat)
    requires o.MaxClients() >= 1 && n > 0
    ensures AtZero(After(o, [], Repeats(a, n)), [a])
  {
    hide Check;
    assert Repeats(a, n) == Repeats(a, n - 1) + [Request(a, 0)];
    AfterStep(o, Repeats(a, n - 1), Request(a, 0));
    if n > 1 {
      SpendingAlone(o, a, n - 1);
    }
    SameClientStays(o, After(o, [], Repeats(a, n - 1)), a);
  }

  lemma {:induction false} OthersArrive(o: Options, a: Key, n: nat, others: seq<Key>)
    requires n > 0 && NoRepeats([a] + others) && Room(o, |others|)
    ensures AtZero(After(o, [], Repeats(a, n) + AllOf(others)), [a] + others)
  {
    hide Check, AtZero;
    if others == [] {
      assert Repeats(a, n) + AllOf(others) == Repeats(a, n) && [a] + others == [a];
      SpendingAlone(o, a, n);
    } else {
      var m := |others| - 1;
      assert Repeats(a, n) + AllOf(others) == (Repeats(a, n) + AllOf(others[..m])) + [Request(others[m], 0)];
      assert [a] + others == ([a] + others[..m]) + [others[m]];
      assert NoRepeats([a] + others[..m]) && others[m] !in [a] + others[..m] by { InitHasNoRepeats([a] + others[..m], others[m]); }
      OthersArrive(o, a, n, others[..m]);
      AfterStep(o, Repeats(a, n) + AllOf(others[..m]), Request(others[m], 0));
      NewcomerFits(o, After(o, [], Repeats(a, n) + AllOf(others[..m])), [a] + others[..m], others[m]);
    }
  }

  lemma InitHasNoRepeats(keys: seq<Key>, k: Key)
    requires NoRepeats(keys + [k])
    ensures NoRepeats(keys) && k !in keys
  {
    forall i, j | 0 <= i < j < |keys| ensures keys[i] != keys[j] {
      assert (keys + [k])[i] == keys[i] && (keys + [k])[j] == keys[j];
    }
    forall i | 0 <= i < |keys| ensures keys[i] != k {
      assert (keys + [k])[i] == keys[i] && (keys + [k])[|keys|] == k;
    }
  }

  /** As many others as the cap allows in all: the last of them displaces a. */
  lemma LastArrivalDisplaces(o: Options, a: Key, n: nat, others: seq<Key>)
    requires o.IdleMs() >= 0 && n > 0 && NoRepeats([a] + others) && |others| == o.MaxClients() >= 1
    ensures Get(After(o, [], Repeats(a, n) + AllOf(others)), a) == None
  {
    hide Check, AtZero;
    var m := |others| - 1;
    assert Repeats(a, n) + AllOf(others) == (Repeats(a, n) + AllOf(others[..m])) + [Request(others[m], 0)];
    assert [a] + others == ([a] + others[..m]) + [others[m]];
    InitHasNoRepeats([a] + others[..m], others[m]);
    OthersArrive(o, a, n, others[..m]);
    AfterStep(o, Repeats(a, n) + AllOf(others[..m]), Request(others[m], 0));
    NewcomerDisplacesFirst(o, After(o, [], Repeats(a, n) + AllOf(others[..m])), [a] + others[..m], others[m]);
  }

  // ----- what the lone bucket would have said -----

  lemma {:induction false} LoneSpends(o: Options, a: Key, n: nat)
    requires n > 0 && n as real <= o.TierFor(a).capacity
    ensures Lone(o, Repeats(a, n), a) == Some(Bucket(o.TierFor(a).capacity - n as real, 0, 0))
  {
    assert Repeats(a, n) == Repeats(a, n - 1) + [Request(a, 0)];
    LoneStep(o, Repeats(a, n - 1), Request(a, 0), a);
    if n > 1 {
      LoneSpends(o, a, n - 1);
    }
    NothingGained(o.TierFor(a));
    hide Gain;
  }

  lemma NothingGained(tier: Tier)
    ensures Gain(0, tier.refillPerSec) == 0.0
  {
  }

  lemma {:induction false} OthersLeaveLone(o: Options, run: seq<Request>, others: seq<Key>, a: Key)
    requires a !in others
    ensures Lone(o, run + AllOf(others), a) == Lone(o, run, a)
  {
    if others == [] {
      assert run + AllOf(others) == run;
    } else {
      var m := |others| - 1;
      assert run + AllOf(others) == (run + AllOf(others[..m])) + [Request(others[m], 0)];
      OthersLeaveLone(o, run, others[..m], a);
      LoneStep(o, run + AllOf(others[..m]), Request(others[m], 0), a);
    }
  }

  lemma SpentIsRefused(tier: Tier)
    requires tier.capacity >= 1.0
    ensures !Verdict(tier, Served(tier, Some(Bucket(tier.capacity - tier.capacity.Floor as real, 0, 0)), 0)).allowed
  {
    NothingGained(tier);
  }

  lemma NewIsAllowed(tier: Tier)
    requires tier.capacity >= 1.0
    ensures Verdict(tier, Served(tier, None, 0)).allowed
  {
    NothingGained(tier);
  }

  /** With as many other clients as the cap, whatever the tier: a client that has spent every whole token is let
      in again at once, though its own bucket would refuse it. */
  lemma CapEvictionForgives(o: Options, a: Key, others: seq<Key>)
    requires o.IdleMs() >= 0 && o.TierFor(a).capacity >= 1.0
    requires NoRepeats([a] + others) && |others| == o.MaxClients() >= 1
    ensures var run := Noticing(o, a, others) + [Request(a, 0)];
      && Monotone(run)
      && Answer(o, run, |run| - 1).allowed && !Alone(o, run, |run| - 1).allowed
  {
    hide Answer, Alone, Noticing, Repeats, AllOf, Monotone;
    NoticingIs(o, a, others);
    ReadmittedByLimiter(o, a, others);
    RefusedAlone(o, a, others);
  }

  lemma ReadmittedByLimiter(o: Options, a: Key, others: seq<Key>)
    requires o.IdleMs() >= 0 && o.TierFor(a).capacity >= 1.0
    requires NoRepeats([a] + others) && |others| == o.MaxClients() >= 1
    ensures var run := Noticing(o, a, others) + [Request(a, 0)]; Answer(o, run, |run| - 1).allowed
  {
    var before := Noticing(o, a, others);
    var run := before + [Request(a, 0)];
    hide Get, Served, Verdict, After, Answer, Check, Repeats, AllOf, NoRepeats;
    assert run[..|run| - 1] == before;
    LastArrivalDisplaces(o, a, o.TierFor(a).capacity.Floor, others);
    hide Noticing;
    NewIsAllowed(o.TierFor(a));
    AnswerIs(o, run, |run| - 1);
  }

  lemma RefusedAlone(o: Options, a: Key, others: seq<Key>)
    requires o.TierFor(a).capacity >= 1.0 && NoRepeats([a] + others)
    ensures var run := Noticing(o, a, others) + [Request(a, 0)]; !Alone(o, run, |run| - 1).allowed
  {
    var n, before := o.TierFor(a).capacity.Floor, Noticing(o, a, others);
    var run := before + [Request(a, 0)];
    hide Served, Verdict, Lone, Repeats, AllOf, NoRepeats;
    assert run[..|run| - 1] == before;
    FirstIsNoOther(a, others);
    LoneSpends(o, a, n);
    OthersLeaveLone(o, Repeats(a, n), others, a);
    SpentIsRefused(o.TierFor(a));
  }

  lemma NoticingIs(o: Options, a: Key, others: seq<Key>)
    requires o.TierFor(a).capacity >= 0.0
    ensures Noticing(o, a, others) == Repeats(a, o.TierFor(a).capacity.Floor) + AllOf(others)
    ensures Monotone(Noticing(o, a, others) + [Request(a, 0)])
  {
    var run := Noticing(o, a, others) + [Request(a, 0)];
    assert forall i :: 0 <= i < |run| ==> run[i].now == 0;
  }

  lemma AnswerIs(o: Options, run: seq<Request>, n: nat)
    requires n < |run|
    ensures Answer(o, run, n)
         == Verdict(o.TierFor(run[n].key), Served(o.TierFor(run[n].key), Get(After(o, [], run[..n]), run[n].key), run[n].now))
  {
    hide Served, Verdict, Get, After, Evicted, Put;
  }

  lemma FirstIsNoOther(a: Key, others: seq<Key>)
    requires NoRepeats([a] + others)
    ensures a !in others
  {
    forall i | 0 <= i < |others| ensures others[i] != a {
      assert ([a] + others)[0] == a && ([a] + others)[i + 1] == others[i];
    }
  }

  // ----- a cap of nobody -----

  lemma NobodyStays(o: Options, s: seq<Entry>, r: Request)
    requires Distinct(s) && o.MaxClients() <= 0
    ensures Check(o, s, r).state == []
  {
    hide Served, Spent, Verdict, Get, Put, Keep, Distinct, DropExcess;
    var b := Served(o.TierFor(r.key), Get(s, r.key), r.now);
    var put := Put(s, r.key, b);
    PutGets(s, r.key, b, r.key);
    assert put != [] by { PresentIsFound(put, r.key); }
    KeepDistinct(put, (e: Entry) => !Idle(e, r.now, o.IdleMs()));
    ExcessDropped(SweepIdle(put, r.now, o.IdleMs()), o.MaxClients());
    assert Evicted(o, put, r.now) == [];
    NothingIn(r.key);
  }

  lemma NothingIn(k: Key)
    ensures Get([], k) == None
  {
  }

  lemma ForgottenAtOnce(o: Options, a: Key, n: nat)
    requires o.MaxClients() <= 0 && n > 0
    ensures Get(After(o, [], Repeats(a, n)), a) == None
  {
    hide Check, Get;
    assert Repeats(a, n) == Repeats(a, n - 1) + [Request(a, 0)];
    DistinctNothing();
    StaysDistinct(o, [], Repeats(a, n - 1));
    AfterStep(o, Repeats(a, n - 1), Request(a, 0));
    NobodyStays(o, After(o, [], Repeats(a, n - 1)), Request(a, 0));
    NothingIn(a);
  }

  /** With a cap of zero or less every bucket is dropped as soon as it is used, so a spent client is let in again. */
  lemma EmptyCapForgives(o: Options, a: Key)
    requires o.MaxClients() <= 0 && o.TierFor(a).capacity >= 1.0
    ensures var run := Noticing(o, a, []) + [Request(a, 0)];
      && Monotone(run)
      && Answer(o, run, |run| - 1).allowed && !Alone(o, run, |run| - 1).allowed
  {
    var before := Noticing(o, a, []);
    var run := before + [Request(a, 0)];
    hide Get, Served, Verdict, After, Answer, Alone, Repeats, AllOf, Monotone;
    assert run[..|run| - 1] == before == Repeats(a, o.TierFor(a).capacity.Floor) by { NoOthers(); }
    hide Noticing;
    ForgottenAtOnce(o, a, o.TierFor(a).capacity.Floor);
    NewIsAllowed(o.TierFor(a));
    AnswerIs(o, run, |run| - 1);
    NoticingIs(o, a, []);
    RefusedAlone(o, a, []);
  }

  lemma NoOthers()
    ensures AllOf([]) == []
  {
  }

  // ----- the exact condition -----

  /** Some m members of a set, in some order. */
  lemma Choose(clients: set<Key>, m: nat) returns (keys: seq<Key>)
    requires m <= |clients|
    ensures |keys| == m && NoRepeats(keys) && forall k :: k in keys ==> k in clients
  {
    if m == 0 {
      keys := [];
    } else {
      var k :| k in clients;
      var rest := Choose(clients - {k}, m - 1);
      keys := [k] + rest;
      JoinFirst(k, rest);
    }
  }

  lemma JoinFirst(k: Key, rest: seq<Key>)
    requires NoRepeats(rest) && k !in rest
    ensures NoRepeats([k] + rest)
  {
    var keys := [k] + rest;
    assert forall i :: 0 < i < |keys| ==> keys[i] == rest[i - 1] && keys[i] in rest;
  }

  /** Where an idle bucket is a full one, the cap goes unnoticed by a client exactly when there are no more
      clients than it allows. */
  lemma CapUnseenIff(o: Options, clients: set<Key>, a: Key)
    requires a in clients && o.TierFor(a).capacity >= 1.0 && EvictsOnlyFull(o, o.TierFor(a))
    ensures EvictionUnseen(o, clients, a) <==> |clients| <= o.MaxClients()
  {
    if |clients| <= o.MaxClients() {
      FewClientsSeeNothing(o, clients, a);
    } else if o.MaxClients() < 1 {
      AnyoneNotices(o, clients, a);
    } else {
      MoreClientsNotice(o, clients, a);
    }
  }

  lemma FewClientsSeeNothing(o: Options, clients: set<Key>, a: Key)
    requires |clients| <= o.MaxClients() && EvictsOnlyFull(o, o.TierFor(a))
    ensures EvictionUnseen(o, clients, a)
  {
    hide EvictsOnlyFull, NeverCapped, Monotone, Answer, Served, Verdict, Lone;
    forall run: seq<Request>, n: nat | Monotone(run) && Clients(run) <= clients && n < |run| && run[n].key == a
      ensures Answer(o, run, n) == Alone(o, run, n)
    {
      Smaller(Clients(run), clients);
      FewClientsNeverCapped(o, run, a);
      IdleEvictionIsInvisible(o, run, a, n);
    }
  }

  lemma Smaller(a: set<Key>, b: set<Key>)
    requires a <= b
    ensures |a| <= |b|
  {
    assert b == a + (b - a);
  }

  lemma MoreClientsNotice(o: Options, clients: set<Key>, a: Key)
    requires a in clients && o.MaxClients() >= 1 && o.TierFor(a).capacity >= 1.0 && EvictsOnlyFull(o, o.TierFor(a))
    requires |clients| > o.MaxClients()
    ensures !EvictionUnseen(o, clients, a)
  {
    IdleIsPositive(o, o.TierFor(a));
    var others := Choose(clients - {a}, o.MaxClients());
    JoinFirst(a, others);
    hide Answer, Alone, EvictsOnlyFull, Monotone, NoRepeats, EvictionUnseen, Clients;
    CapEvictionForgives(o, a, others);
    assert others != [];
    NoticingIsTheirs(o, a, others, clients);
    OneRunIsEnough(o, clients, a, Noticing(o, a, others) + [Request(a, 0)]);
  }

  lemma AnyoneNotices(o: Options, clients: set<Key>, a: Key)
    requires a in clients && o.MaxClients() < 1 && o.TierFor(a).capacity >= 1.0
    ensures !EvictionUnseen(o, clients, a)
  {
    hide Answer, Alone, Monotone, EvictionUnseen, Clients;
    EmptyCapForgives(o, a);
    NoticingIsTheirs(o, a, [], clients);
    OneRunIsEnough(o, clients, a, Noticing(o, a, []) + [Request(a, 0)]);
  }

  lemma NoticingIsTheirs(o: Options, a: Key, others: seq<Key>, clients: set<Key>)
    requires a in clients && o.TierFor(a).capacity >= 1.0 && forall k :: k in others ==> k in clients
    ensures Clients(Noticing(o, a, others) + [Request(a, 0)]) <= clients
  {
    var spent, rest := Repeats(a, o.TierFor(a).capacity.Floor), AllOf(others);
    assert forall r :: r in spent ==> r.key == a;
    assert forall r :: r in rest ==> r.key in others;
    hide Repeats, AllOf;
    forall r | r in (spent + rest) + [Request(a, 0)] ensures r.key in clients {
      assert r in spent || r in rest || r == Request(a, 0);
    }
  }

  lemma OneRunIsEnough(o: Options, clients: set<Key>, a: Key, run: seq<Request>)
    requires Monotone(run) && Clients(run) <= clients && run != [] && run[|run| - 1].key == a
    requires Answer(o, run, |run| - 1) != Alone(o, run, |run| - 1)
    ensures !EvictionUnseen(o, clients, a)
  {
    hide Monotone, Clients, Answer, Alone;
  }

  lemma IdleIsPositive(o: Options, tier: Tier)
    requires EvictsOnlyFull(o, tier) && tier.capacity >= 1.0
    ensures o.IdleMs() >= 0
  {
    if o.IdleMs() < 0 {
      NegativeIdleIsEmpty(o, tier);
    }
  }
}
