/** What the numbers in the rate limiter's answers promise. */
module LimiterAnswers {
  import opened Prelude
  import opened RateLimiting
  import opened ClientCap
  import opened IdleSweep

  /** n requests of one client at one moment. */
  function Burst(k: Key, now: int, n: nat): seq<Request> {
    seq(n, i => Request(k, now))
  }

  lemma BurstNext(run: seq<Request>, k: Key, now: int, n: nat)
    ensures run + Burst(k, now, n + 1) == (run + Burst(k, now, n)) + [Request(k, now)]
    ensures run + Burst(k, now, 0) == run
  {
  }

  /** What the client's own bucket holds at this moment. */
  function Holding(o: Options, run: seq<Request>, k: Key, now: int): real {
    Served(o.TierFor(k), Lone(o, run, k), now).tokens
  }

  lemma ServedAtOnce(tier: Tier, tokens: real, now: int)
    requires tokens <= tier.capacity
    ensures Served(tier, Some(Bucket(tokens, now, now)), now) == Bucket(tokens, now, now)
  {
    assert Gain(now - now, tier.refillPerSec) == 0.0;
  }

  lemma HoldsAtMostCapacity(tier: Tier, b: Option<Bucket>, now: int)
    ensures Served(tier, b, now).tokens <= tier.capacity
    ensures Served(tier, b, now) == Bucket(Served(tier, b, now).tokens, now, now)
  {
    hide Gain;
  }

  /** A burst takes one token per request, as long as there is one. */
  lemma {:induction false} LoneBurst(o: Options, run: seq<Request>, k: Key, now: int, n: nat)
    requires n > 0 && n as real <= Holding(o, run, k, now)
    ensures Lone(o, run + Burst(k, now, n), k) == Some(Bucket(Holding(o, run, k, now) - n as real, now, now))
  {
    var tier := o.TierFor(k);
    BurstNext(run, k, now, n - 1);
    LoneStep(o, run + Burst(k, now, n - 1), Request(k, now), k);
    HoldsAtMostCapacity(tier, Lone(o, run, k), now);
    hide Served, Lone, Burst;
    if n == 1 {
      BurstNext(run, k, now, 0);
    } else {
      LoneBurst(o, run, k, now, n - 1);
      ServedAtOnce(tier, Holding(o, run, k, now) - (n - 1) as real, now);
    }
  }

  lemma HoldsAfterBurst(o: Options, run: seq<Request>, k: Key, now: int, n: nat)
    requires n as real <= Holding(o, run, k, now)
    ensures Holding(o, run + Burst(k, now, n), k, now) == Holding(o, run, k, now) - n as real
  {
    HoldsAtMostCapacity(o.TierFor(k), Lone(o, run, k), now);
    if n == 0 {
      BurstNext(run, k, now, 0);
    } else {
      LoneBurst(o, run, k, now, n);
      ServedAtOnce(o.TierFor(k), Holding(o, run, k, now) - n as real, now);
    }
  }

  lemma AnswerInBurst(o: Options, run: seq<Request>, k: Key, now: int, n: nat)
    ensures Alone(o, run + Burst(k, now, n + 1), |run| + n)
         == Verdict(o.TierFor(k), Served(o.TierFor(k), Lone(o, run + Burst(k, now, n), k), now))
  {
    BurstNext(run, k, now, n);
    var all := run + Burst(k, now, n + 1);
    assert all[..|run| + n] == run + Burst(k, now, n) && all[|run| + n] == Request(k, now);
  }

  /** The remaining count is exact: an allowed request that is told m more remain is followed by exactly m that are allowed
      at the same moment, and a refused one. */
  lemma RemainingIsExact(o: Options, run: seq<Request>, k: Key, now: int, n: nat)
    requires var first := Alone(o, run + Burst(k, now, 1), |run|); first.allowed && n <= first.remaining + 1
    ensures Alone(o, run + Burst(k, now, 1), |run|).remaining >= 0
    ensures Alone(o, run + Burst(k, now, n + 1), |run| + n).allowed <==> n <= Alone(o, run + Burst(k, now, 1), |run|).remaining
  {
    hide Served, Lone, Alone;
    AnswerInBurst(o, run, k, now, 0);
    BurstNext(run, k, now, 0);
    AnswerInBurst(o, run, k, now, n);
    HoldsAfterBurst(o, run, k, now, n);
  }

  /** The wait told: none when allowed, for ever where nothing is refilled, else at least a second; and nothing remains. */
  lemma WaitIsTold(tier: Tier, b: Bucket)
    ensures var d := Verdict(tier, b);
      && (d.allowed <==> b.tokens >= 1.0) && (d.allowed <==> d.retryAfterSec == NoWait) && (!d.allowed ==> d.remaining == 0)
      && (!d.allowed && tier.refillPerSec == 0.0 ==> d.retryAfterSec == Forever)
      && (!d.allowed && tier.refillPerSec != 0.0 ==> d.retryAfterSec.Seconds? && d.retryAfterSec.n >= 1)
  {
    hide Ceil;
  }

  /** A client not tracked yet has the whole capacity of its own scope's tier: control requests that of the control tier,
      whatever the reads may do. */
  lemma FirstAnswer(o: Options, s: seq<Entry>, k: Key, now: int)
    requires Get(s, k) == None
    ensures var d, capacity := Check(o, s, Request(k, now)).decision,
        match k.scope case Read => o.read.capacity case Control => o.control.capacity;
      && (d.allowed <==> capacity >= 1.0)
      && (d.allowed ==> d.remaining == (capacity - 1.0).Floor)
  {
    hide Evicted, Put, Get;
    assert Gain(now - now, o.TierFor(k).refillPerSec) == 0.0;
  }

  // ----- the default limits -----

  const DEFAULTS := Options(Tier(120.0, 10.0), Tier(20.0, 1.0), Some(10 * 60 * 1000), Some(10000))

  /** Options that say nothing about eviction have the defaults' idle limit and cap. */
  lemma UnsaidIsDefault(read: Tier, control: Tier)
    ensures var o := Options(read, control, None, None); o.IdleMs() == DEFAULTS.IdleMs() && o.MaxClients() == DEFAULTS.MaxClients()
  {
  }

  /** With the default limits a client can tell that buckets are forgotten exactly when there are more than 10000 clients. */
  lemma DefaultsUnseenIff(clients: set<Key>, a: Key)
    requires a in clients
    ensures EvictionUnseen(DEFAULTS, clients, a) <==> |clients| <= 10000
  {
    hide EvictionUnseen;
    assert Gain(600001, 10.0) >= 120.0 && Gain(600001, 1.0) >= 20.0;
    assert WholeCapacity(DEFAULTS.TierFor(a)) && EvictsOnlyFull(DEFAULTS, DEFAULTS.TierFor(a));
    EvictionUnseenIff(DEFAULTS, clients, a);
  }
}
