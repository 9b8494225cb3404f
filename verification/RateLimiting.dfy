/** The API rate limiter: token buckets per client, swept when idle and capped in number. */
module RateLimiting {
  import opened Prelude
  import opened Sorting

  datatype Scope = Read | Control

  /** The map key `${scope}:${client}`; the scope never holds a colon, so the pair is what it encodes. */
  datatype Key = Key(scope: Scope, client: string)

  datatype Tier = Tier(capacity: real, refillPerSec: real)

  datatype Options = Options(read: Tier, control: Tier, idleEvictionMs: Option<int>, maxTrackedClients: Option<int>) {
    function TierFor(k: Key): Tier {
      if k.scope == Control then control else read
    }

    function IdleMs(): int {
      if idleEvictionMs.Some? then idleEvictionMs.value else 600000
    }

    function MaxClients(): int {
      if maxTrackedClients.Some? then maxTrackedClients.value else 10000
    }
  }

  datatype Bucket = Bucket(tokens: real, lastRefillMs: int, lastSeenMs: int)

  datatype Entry = Entry(key: Key, bucket: Bucket)

  /** How long a blocked caller is told to wait; JavaScript's Infinity when nothing is ever refilled. */
  datatype Wait = NoWait | Seconds(n: int) | Forever

  datatype Decision = Decision(allowed: bool, retryAfterSec: Wait, remaining: int)

  datatype Request = Request(key: Key, now: int)

  // ----- one bucket -----

  /** Tokens gained in ms milliseconds; a clock that stepped back gains none. */
  function Gain(ms: int, refillPerSec: real): real {
    Max(0.0, ms as real / 1000.0) * refillPerSec
  }

  lemma GainAdds(a: int, b: int, refillPerSec: real)
    requires a >= 0 && b >= 0
    ensures Gain(a + b, refillPerSec) == Gain(a, refillPerSec) + Gain(b, refillPerSec)
  {
  }

  lemma GainIsPositive(ms: int, refillPerSec: real)
    requires refillPerSec >= 0.0
    ensures Gain(ms, refillPerSec) >= 0.0
  {
  }

  lemma GainMonotone(a: int, b: int, refillPerSec: real)
    requires refillPerSec >= 0.0 && a <= b
    ensures Gain(a, refillPerSec) <= Gain(b, refillPerSec)
  {
    if a >= 0 {
      GainAdds(a, b - a, refillPerSec);
    }
    GainIsPositive(b - a, refillPerSec);
    GainIsPositive(b, refillPerSec);
  }

  function Ceil(x: real): int {
    -((-x).Floor)
  }

  /** The bucket a request at `now` is judged by: a missing one starts full. */
  function Served(tier: Tier, b: Option<Bucket>, now: int): Bucket {
    var was := if b.Some? then b.value else Bucket(tier.capacity, now, now);
    Bucket(Min(tier.capacity, was.tokens + Gain(now - was.lastRefillMs, tier.refillPerSec)), now, now)
  }

  function Verdict(tier: Tier, b: Bucket): Decision {
    if b.tokens >= 1.0 then Decision(true, NoWait, (b.tokens - 1.0).Floor)
    else if tier.refillPerSec == 0.0 then Decision(false, Forever, 0)
    else
      var n := Ceil((1.0 - b.tokens) / tier.refillPerSec);
      Decision(false, Seconds(if n < 1 then 1 else n), 0)
  }

  function Spent(b: Bucket): Bucket {
    if b.tokens >= 1.0 then b.(tokens := b.tokens - 1.0) else b
  }

  // ----- the map, in insertion order -----

  ghost predicate Distinct(s: seq<Entry>) {
    forall i, j :: 0 <= i < j < |s| ==> s[i].key != s[j].key
  }

  function FindKey(s: seq<Entry>, k: Key): (i: nat)
    ensures i <= |s|
    ensures i < |s| ==> s[i].key == k
    ensures forall j :: 0 <= j < i ==> s[j].key != k
  {
    if s == [] then 0
    else
      var i := FindKey(s[..|s| - 1], k);
      if i < |s| - 1 || s[|s| - 1].key == k then i else |s|
  }

  function Get(s: seq<Entry>, k: Key): Option<Bucket> {
    var i := FindKey(s, k);
    if i < |s| then Some(s[i].bucket) else None
  }

  /** Map.set: overwrite in place, or add at the end. */
  function Put(s: seq<Entry>, k: Key, b: Bucket): seq<Entry> {
    var i := FindKey(s, k);
    if i < |s| then s[i := Entry(k, b)] else s + [Entry(k, b)]
  }

  lemma GetIs(s: seq<Entry>, i: nat)
    requires Distinct(s) && i < |s|
    ensures Get(s, s[i].key) == Some(s[i].bucket)
  {
    var j := FindKey(s, s[i].key);
    assert j <= i;
  }

  lemma PutGets(s: seq<Entry>, k: Key, b: Bucket, j: Key)
    requires Distinct(s)
    ensures Distinct(Put(s, k, b))
    ensures Get(Put(s, k, b), j) == if j == k then Some(b) else Get(s, j)
  {
    var r := Put(s, k, b);
    GetIs(r, FindKey(s, k));
    if j != k && FindKey(s, j) < |s| {
      GetIs(r, FindKey(s, j));
    }
  }

  function Keep(s: seq<Entry>, p: Entry -> bool): seq<Entry> {
    if s == [] then []
    else
      var rest := Keep(s[..|s| - 1], p);
      if p(s[|s| - 1]) then rest + [s[|s| - 1]] else rest
  }

  lemma {:induction false} KeepMembers(s: seq<Entry>, p: Entry -> bool)
    ensures |Keep(s, p)| <= |s|
    ensures forall e :: e in Keep(s, p) <==> e in s && p(e)
  {
    if s != [] {
      KeepMembers(s[..|s| - 1], p);
    }
  }

  lemma {:induction false} KeepDistinct(s: seq<Entry>, p: Entry -> bool)
    requires Distinct(s)
    ensures Distinct(Keep(s, p))
  {
    if s != [] {
      var n := |s| - 1;
      KeepDistinct(s[..n], p);
      KeepMembers(s[..n], p);
      assert forall e :: e in Keep(s[..n], p) ==> e in s[..n];
      assert forall e :: e in s[..n] ==> e.key != s[n].key;
    }
  }

  lemma KeepGets(s: seq<Entry>, p: Entry -> bool, k: Key)
    requires Distinct(s)
    ensures Get(Keep(s, p), k)
         == match Get(s, k) case None => None case Some(b) => if p(Entry(k, b)) then Some(b) else None
  {
    var r := Keep(s, p);
    KeepMembers(s, p);
    KeepDistinct(s, p);
    var i := FindKey(s, k);
    if i < |s| && p(s[i]) {
      var at :| 0 <= at < |r| && r[at] == s[i];
      GetIs(r, at);
    } else {
      forall e | e in r ensures e.key != k {
        var at :| 0 <= at < |s| && s[at] == e;
        GetIs(s, at);
      }
    }
  }

  // ----- the sweep -----

  predicate Idle(e: Entry, now: int, idleMs: int) {
    now - e.bucket.lastSeenMs > idleMs
  }

  function SweepIdle(s: seq<Entry>, now: int, idleMs: int): seq<Entry> {
    Keep(s, (e: Entry) => !Idle(e, now, idleMs))
  }

  predicate SeenNotLater(a: Entry, b: Entry) {
    a.bucket.lastSeenMs <= b.bucket.lastSeenMs
  }

  /** The least recently seen entries beyond the cap. */
  function Excess(s: seq<Entry>, max: int): seq<Entry>
    requires |s| > max
  {
    var byAge := SortBy(SeenNotLater, s);
    var excess := |s| - max;
    if excess <= |byAge| then byAge[..excess] else byAge
  }

  function WithoutAll(s: seq<Entry>, victims: seq<Entry>): seq<Entry> {
    Keep(s, (e: Entry) => !exists v :: v in victims && v.key == e.key)
  }

  function DropExcess(s: seq<Entry>, max: int): seq<Entry> {
    if |s| > max then WithoutAll(s, Excess(s, max)) else s
  }

  function Evicted(o: Options, s: seq<Entry>, now: int): seq<Entry> {
    if |s| <= o.MaxClients() && |s| < 128 then s
    else DropExcess(SweepIdle(s, now, o.IdleMs()), o.MaxClients())
  }

  // ----- one check -----

  datatype Checked = Checked(state: seq<Entry>, decision: Decision)

  function Check(o: Options, s: seq<Entry>, r: Request): Checked {
    var tier := o.TierFor(r.key);
    var b := Served(tier, Get(s, r.key), r.now);
    var swept := Evicted(o, Put(s, r.key, b), r.now);
    // The object is spent even when the sweep has just dropped it from the map.
    Checked(if Get(swept, r.key).Some? then Put(swept, r.key, Spent(b)) else swept, Verdict(tier, b))
  }

  function After(o: Options, s: seq<Entry>, run: seq<Request>): seq<Entry> {
    if run == [] then s else Check(o, After(o, s, run[..|run| - 1]), run[|run| - 1]).state
  }

  /** What the limiter answers to request n of a run from an empty map. */
  function Answer(o: Options, run: seq<Request>, n: nat): Decision
    requires n < |run|
  {
    Check(o, After(o, [], run[..n]), run[n]).decision
  }

  lemma EvictedGets(o: Options, s: seq<Entry>, now: int, k: Key)
    requires Distinct(s)
    ensures Distinct(Evicted(o, s, now))
    ensures Get(Evicted(o, s, now), k).Some? ==> Get(Evicted(o, s, now), k) == Get(s, k)
    ensures |Evicted(o, s, now)| <= |s|
  {
    var idle := (e: Entry) => !Idle(e, now, o.IdleMs());
    var swept := Keep(s, idle);
    KeepGets(s, idle, k);
    KeepDistinct(s, idle);
    KeepMembers(s, idle);
    if |swept| > o.MaxClients() {
      var victims := Excess(swept, o.MaxClients());
      var p := (e: Entry) => !exists v :: v in victims && v.key == e.key;
      KeepGets(swept, p, k);
      KeepDistinct(swept, p);
      KeepMembers(swept, p);
    }
  }

  lemma {:induction false} StaysDistinct(o: Options, s: seq<Entry>, run: seq<Request>)
    requires Distinct(s)
    ensures Distinct(After(o, s, run))
  {
    if run != [] {
      StaysDistinct(o, s, run[..|run| - 1]);
      CheckGets(o, After(o, s, run[..|run| - 1]), run[|run| - 1], run[|run| - 1].key);
    }
  }

  /** A check changes a bucket only by serving it, or by dropping it from the map. */
  lemma CheckGets(o: Options, s: seq<Entry>, r: Request, k: Key)
    requires Distinct(s)
    ensures Distinct(Check(o, s, r).state)
    ensures Get(Check(o, s, r).state, k) != None ==>
      Get(Check(o, s, r).state, k) == if k == r.key then Some(Spent(Served(o.TierFor(k), Get(s, k), r.now))) else Get(s, k)
    ensures Get(Check(o, s, r).state, k) == None <==> Get(Evicted(o, Put(s, r.key, Served(o.TierFor(r.key), Get(s, r.key), r.now)), r.now), k) == None
  {
    hide Served, Spent, Verdict, Evicted, Put, Get, Distinct;
    var b := Served(o.TierFor(r.key), Get(s, r.key), r.now);
    PutGets(s, r.key, b, k);
    PutGets(s, r.key, b, r.key);
    var put := Put(s, r.key, b);
    EvictedGets(o, put, r.now, k);
    EvictedGets(o, put, r.now, r.key);
    var swept := Evicted(o, put, r.now);
    PutGets(swept, r.key, Spent(b), k);
  }

  // ----- waiting as told -----

  lemma CeilReaches(x: real, d: real)
    requires d > 0.0
    ensures Ceil(x / d) as real * d >= x
  {
    assert Ceil(x / d) as real >= x / d;
    TimesKeepsOrder(x / d, Ceil(x / d) as real, d);
  }

  lemma TimesKeepsOrder(a: real, b: real, d: real)
    requires d >= 0.0 && a <= b
    ensures a * d <= b * d
  {
  }

  /** The wait a blocked bucket is told refills it to at least one whole token. */
  lemma WaitRefills(tier: Tier, b: Bucket, n: int, t: int)
    requires tier.capacity >= 1.0 && tier.refillPerSec > 0.0
    requires Verdict(tier, b).retryAfterSec == Seconds(n) && t >= b.lastRefillMs + 1000 * n
    ensures Verdict(tier, Served(tier, Some(b), t)).allowed
  {
    var need := Ceil((1.0 - b.tokens) / tier.refillPerSec);
    CeilReaches(1.0 - b.tokens, tier.refillPerSec);
    TimesKeepsOrder(need as real, n as real, tier.refillPerSec);
    assert Gain(1000 * n, tier.refillPerSec) == n as real * tier.refillPerSec;
    GainMonotone(1000 * n, t - b.lastRefillMs, tier.refillPerSec);
  }

  /** Waiting at least the returned retryAfterSec admits the next request of that bucket, whatever other
      buckets do meanwhile and whether or not the bucket is evicted. */
  lemma WaitingAdmits(o: Options, s: seq<Entry>, r: Request, others: seq<Request>, t: int)
    requires Distinct(s)
    requires o.TierFor(r.key).capacity >= 1.0 && o.TierFor(r.key).refillPerSec > 0.0
    requires forall x :: x in others ==> x.key != r.key
    ensures var first := Check(o, s, r);
      !first.decision.allowed && t >= r.now + 1000 * first.decision.retryAfterSec.n ==>
        Check(o, After(o, first.state, others), Request(r.key, t)).decision.allowed
  {
    var tier, first := o.TierFor(r.key), Check(o, s, r);
    CheckGets(o, s, r, r.key);
    OthersLeaveAlone(o, first.state, others, r.key);
    if !first.decision.allowed && t >= r.now + 1000 * first.decision.retryAfterSec.n {
      WaitRefills(tier, Served(tier, Get(s, r.key), r.now), first.decision.retryAfterSec.n, t);
    }
  }

  lemma {:induction false} OthersLeaveAlone(o: Options, s: seq<Entry>, others: seq<Request>, k: Key)
    requires Distinct(s) && forall x :: x in others ==> x.key != k
    ensures Get(After(o, s, others), k) == Get(s, k) || Get(After(o, s, others), k) == None
  {
    if others != [] {
      var n := |others| - 1;
      OthersLeaveAlone(o, s, others[..n], k);
      StaysDistinct(o, s, others[..n]);
      CheckGets(o, After(o, s, others[..n]), others[n], k);
    }
  }

  /** The wait is not padded: a second less leaves a bucket that was kept still short of a token. */
  lemma WaitIsTight(tier: Tier, b: Bucket, n: int)
    requires tier.refillPerSec > 0.0 && Verdict(tier, b).retryAfterSec == Seconds(n) && n > 1
    ensures !Verdict(tier, Served(tier, Some(b), b.lastRefillMs + 1000 * (n - 1))).allowed
  {
    var x := (1.0 - b.tokens) / tier.refillPerSec;
    var d := tier.refillPerSec;
    assert (n - 1) as real < x;
    assert x * d == 1.0 - b.tokens;
    assert (x - (n - 1) as real) * d > 0.0;
    assert Gain(1000 * (n - 1), d) == (n - 1) as real * d;
  }

  // ----- idle eviction is invisible -----

  /** The same bucket as a limiter that never evicts would hold it: it sees only its own requests. */
  function Lone(o: Options, run: seq<Request>, k: Key): Option<Bucket> {
    if run == [] then None
    else
      var before, r := Lone(o, run[..|run| - 1], k), run[|run| - 1];
      if r.key == k then Some(Spent(Served(o.TierFor(k), before, r.now))) else before
  }

  ghost predicate Monotone(run: seq<Request>) {
    forall i, j :: 0 <= i < j < |run| ==> run[i].now <= run[j].now
  }

  /** Request r's sweep drops bucket k for the sake of the client cap, not because it was idle. */
  ghost predicate CapDrops(o: Options, s: seq<Entry>, r: Request, k: Key) {
    var put := Put(s, r.key, Served(o.TierFor(r.key), Get(s, r.key), r.now));
    match Get(put, k)
    case None => false
    case Some(b) => !Idle(Entry(k, b), r.now, o.IdleMs()) && Get(Evicted(o, put, r.now), k) == None
  }

  ghost predicate NeverCapped(o: Options, run: seq<Request>, k: Key) {
    forall n :: 0 <= n < |run| ==> !CapDrops(o, After(o, [], run[..n]), run[n], k)
  }

  /** The shortest idle period that is swept, one millisecond more than the limit, refills the bucket. */
  predicate EvictsOnlyFull(o: Options, tier: Tier) {
    tier.refillPerSec >= 0.0 && Gain(o.IdleMs() + 1, tier.refillPerSec) >= tier.capacity
  }

  predicate Full(tier: Tier, b: Bucket, now: int) {
    b.tokens + Gain(now - b.lastRefillMs, tier.refillPerSec) >= tier.capacity
  }

  /** The evicting and the lone bucket will judge every later request alike. */
  predicate Agree(tier: Tier, kept: Option<Bucket>, lone: Option<Bucket>, now: int) {
    && (kept == lone || (kept == None && lone.Some? && Full(tier, lone.value, now)))
    && (lone.Some? ==>
          && lone.value.tokens >= Min(0.0, tier.capacity)
          && lone.value.lastRefillMs == lone.value.lastSeenMs <= now)
  }

  lemma AgreeLater(tier: Tier, kept: Option<Bucket>, lone: Option<Bucket>, now: int, t: int)
    requires tier.refillPerSec >= 0.0 && now <= t && Agree(tier, kept, lone, now)
    ensures Agree(tier, kept, lone, t) && Served(tier, kept, t) == Served(tier, lone, t)
  {
    if lone.Some? {
      hide Gain;
      GainMonotone(now - lone.value.lastRefillMs, t - lone.value.lastRefillMs, tier.refillPerSec);
    }
    if kept == None {
      assert Gain(t - t, tier.refillPerSec) == 0.0;
    }
  }

  lemma ServedAgrees(tier: Tier, kept: Option<Bucket>, lone: Option<Bucket>, now: int)
    requires tier.refillPerSec >= 0.0 && Agree(tier, kept, lone, now)
    ensures Served(tier, kept, now) == Served(tier, lone, now)
    ensures var b := Spent(Served(tier, lone, now)); Agree(tier, Some(b), Some(b), now)
  {
    AgreeLater(tier, kept, lone, now, now);
    var gained := if lone.Some? then now - lone.value.lastRefillMs else 0;
    GainIsPositive(gained, tier.refillPerSec);
    assert Gain(now - now, tier.refillPerSec) == 0.0;
  }

  lemma IdleIsFull(o: Options, k: Key, b: Bucket, now: int)
    requires EvictsOnlyFull(o, o.TierFor(k)) && b.tokens >= Min(0.0, o.TierFor(k).capacity)
    requires b.lastRefillMs == b.lastSeenMs <= now && Idle(Entry(k, b), now, o.IdleMs())
    ensures Full(o.TierFor(k), b, now)
  {
    var tier, ms := o.TierFor(k), now - b.lastRefillMs;
    GainIsPositive(ms, tier.refillPerSec);
    GainMonotone(o.IdleMs() + 1, ms, tier.refillPerSec);
  }

  lemma NegativeIdleIsEmpty(o: Options, tier: Tier)
    requires EvictsOnlyFull(o, tier) && o.IdleMs() < 0
    ensures tier.capacity <= 0.0
  {
    GainMonotone(o.IdleMs() + 1, 0, tier.refillPerSec);
  }

  lemma CheckKeepsAgreement(o: Options, s: seq<Entry>, r: Request, k: Key, lone: Option<Bucket>)
    requires Distinct(s) && EvictsOnlyFull(o, o.TierFor(k)) && !CapDrops(o, s, r, k)
    requires Agree(o.TierFor(k), Get(s, k), lone, r.now)
    ensures Agree(o.TierFor(k), Get(Check(o, s, r).state, k),
              if r.key == k then Some(Spent(Served(o.TierFor(k), lone, r.now))) else lone, r.now)
  {
    var tier := o.TierFor(k);
    ServedAgrees(tier, Get(s, k), lone, r.now);
    CheckGets(o, s, r, k);
    var put := Put(s, r.key, Served(o.TierFor(r.key), Get(s, r.key), r.now));
    PutGets(s, r.key, Served(o.TierFor(r.key), Get(s, r.key), r.now), k);
    if Get(Check(o, s, r).state, k) == None && Get(put, k).Some? {
      hide Check, Evicted, Put, Get, Full;
      IdleIsFull(o, k, Get(put, k).value, r.now);
      if r.key == k {
        NegativeIdleIsEmpty(o, tier);
      }
    }
  }

  lemma {:induction false} RunsAgree(o: Options, run: seq<Request>, k: Key, now: int)
    requires Monotone(run) && EvictsOnlyFull(o, o.TierFor(k)) && NeverCapped(o, run, k)
    requires run != [] ==> run[|run| - 1].now <= now
    ensures Agree(o.TierFor(k), Get(After(o, [], run), k), Lone(o, run, k), now)
  {
    if run != [] {
      var n := |run| - 1;
      assert !CapDrops(o, After(o, [], run[..n]), run[n], k);
      hide Check, Served, Spent, Get, CapDrops, Agree, Gain, NeverCapped;
      PrefixNeverCapped(o, run, k, n);
      RunsAgree(o, run[..n], k, run[n].now);
      StaysDistinct(o, [], run[..n]);
      CheckKeepsAgreement(o, After(o, [], run[..n]), run[n], k, Lone(o, run[..n], k));
      AgreeLater(o.TierFor(k), Get(After(o, [], run), k), Lone(o, run, k), run[n].now, now);
    }
  }

  /** Evicting idle buckets is invisible: a client never dropped by the cap gets the answers it would get
      from a limiter that keeps its bucket for ever and serves nobody else. */
  lemma IdleEvictionIsInvisible(o: Options, run: seq<Request>, k: Key, n: nat)
    requires Monotone(run) && EvictsOnlyFull(o, o.TierFor(k)) && NeverCapped(o, run, k)
    requires n < |run|
    ensures run[n].key == k ==>
      Answer(o, run, n) == Verdict(o.TierFor(k), Served(o.TierFor(k), Lone(o, run[..n], k), run[n].now))
  {
    PrefixNeverCapped(o, run, k, n);
    RunsAgree(o, run[..n], k, run[n].now);
    AgreeLater(o.TierFor(k), Get(After(o, [], run[..n]), k), Lone(o, run[..n], k), run[n].now, run[n].now);
  }

  lemma PrefixNeverCapped(o: Options, run: seq<Request>, k: Key, n: nat)
    requires NeverCapped(o, run, k) && n <= |run|
    ensures NeverCapped(o, run[..n], k)
  {
    forall m | 0 <= m < n ensures !CapDrops(o, After(o, [], run[..n][..m]), run[..n][m], k) {
      assert run[..n][..m] == run[..m];
    }
  }

  // ----- how much a window can admit -----

  /** Requests i..j of the run that were for bucket k and were allowed. */
  function Admitted(o: Options, run: seq<Request>, k: Key, i: nat, j: nat): nat
    requires i <= j <= |run|
  {
    if i == j then 0
    else Admitted(o, run, k, i, j - 1) + if run[j - 1].key == k && Answer(o, run, j - 1).allowed then 1 else 0
  }

  /** What the bucket could spend at time t. */
  function Level(tier: Tier, b: Option<Bucket>, t: int): real {
    Served(tier, b, t).tokens
  }

  lemma LevelGrows(tier: Tier, b: Option<Bucket>, s: int, t: int)
    requires tier.refillPerSec >= 0.0 && s <= t && (b.Some? ==> b.value.lastRefillMs <= s)
    ensures Level(tier, b, t) <= Level(tier, b, s) + Gain(t - s, tier.refillPerSec)
  {
    if b.Some? {
      GainAdds(s - b.value.lastRefillMs, t - s, tier.refillPerSec);
    }
    GainIsPositive(t - s, tier.refillPerSec);
  }

  /** A served bucket has spent what it admitted, and never owes more than an empty tier. */
  lemma ServingSpends(tier: Tier, b: Option<Bucket>, now: int, t: int)
    requires tier.refillPerSec >= 0.0 && now <= t && Agree(tier, b, b, now)
    ensures var served := Served(tier, b, now);
      Level(tier, Some(Spent(served)), t) + (if Verdict(tier, served).allowed then 1.0 else 0.0)
        <= Level(tier, b, now) + Gain(t - now, tier.refillPerSec)
  {
    hide Agree, Full;
    LevelGrows(tier, Some(Spent(Served(tier, b, now))), now, t);
    assert Gain(now - now, tier.refillPerSec) == 0.0;
  }

  lemma StartsFull(tier: Tier, b: Option<Bucket>, now: int)
    ensures Level(tier, b, now) <= tier.capacity && Gain(now - now, tier.refillPerSec) == 0.0
  {
  }

  lemma LevelFloor(tier: Tier, b: Option<Bucket>, now: int)
    requires tier.refillPerSec >= 0.0 && Agree(tier, b, b, now)
    ensures Level(tier, b, now) >= Min(0.0, tier.capacity)
  {
    if b.Some? {
      GainIsPositive(now - b.value.lastRefillMs, tier.refillPerSec);
    }
    assert Gain(now - now, tier.refillPerSec) == 0.0;
  }

  lemma {:induction false} LoneAgrees(o: Options, run: seq<Request>, k: Key, now: int)
    requires Monotone(run) && o.TierFor(k).refillPerSec >= 0.0
    requires run != [] ==> run[|run| - 1].now <= now
    ensures Agree(o.TierFor(k), Lone(o, run, k), Lone(o, run, k), now)
  {
    if run != [] {
      var n := |run| - 1;
      LoneAgrees(o, run[..n], k, run[n].now);
      ServedAgrees(o.TierFor(k), Lone(o, run[..n], k), Lone(o, run[..n], k), run[n].now);
    }
  }

  /** Potential: what the window has admitted plus what the bucket still holds was paid for by the capacity
      and the refill. */
  lemma {:induction false} WindowPotential(o: Options, run: seq<Request>, k: Key, i: nat, j: nat, t: int)
    requires Monotone(run) && EvictsOnlyFull(o, o.TierFor(k)) && NeverCapped(o, run, k)
    requires i < j <= |run| && run[j - 1].now <= t
    ensures Admitted(o, run, k, i, j) as real + Level(o.TierFor(k), Lone(o, run[..j], k), t)
         <= o.TierFor(k).capacity + Gain(t - run[i].now, o.TierFor(k).refillPerSec)
  {
    hide Served, Spent, Check, After, Get, Gain, Agree, NeverCapped, Verdict, Level;
    var tier, r := o.TierFor(k), run[j - 1];
    LoneAgrees(o, run[..j - 1], k, r.now);
    assert run[..j][..j - 1] == run[..j - 1];
    if j - 1 == i {
      assert Admitted(o, run, k, i, i) == 0;
      StartsFull(tier, Lone(o, run[..i], k), r.now);
    } else {
      WindowPotential(o, run, k, i, j - 1, r.now);
      GainAdds(r.now - run[i].now, t - r.now, tier.refillPerSec);
    }
    if r.key == k {
      IdleEvictionIsInvisible(o, run, k, j - 1);
      ServingSpends(tier, Lone(o, run[..j - 1], k), r.now, t);
    } else {
      LoneIsServed(tier, Lone(o, run[..j - 1], k), r.now);
      LevelGrows(tier, Lone(o, run[..j - 1], k), r.now, t);
    }
  }

  lemma LoneIsServed(tier: Tier, b: Option<Bucket>, now: int)
    requires Agree(tier, b, b, now)
    ensures b.Some? ==> b.value.lastRefillMs <= now
  {
  }

  /** In any window the limiter admits at most the capacity plus what the window refills. */
  lemma WindowBound(o: Options, run: seq<Request>, k: Key, i: nat, j: nat)
    requires Monotone(run) && EvictsOnlyFull(o, o.TierFor(k)) && NeverCapped(o, run, k)
    requires i < j <= |run|
    ensures Admitted(o, run, k, i, j) as real
         <= Max(0.0, o.TierFor(k).capacity) + Gain(run[j - 1].now - run[i].now, o.TierFor(k).refillPerSec)
  {
    hide Level, Lone, Check, After, Gain, Agree, NeverCapped;
    var t := run[j - 1].now;
    WindowPotential(o, run, k, i, j, t);
    LoneAgrees(o, run[..j], k, t);
    LevelFloor(o.TierFor(k), Lone(o, run[..j], k), t);
  }

  // ----- the size of the map -----

  lemma {:induction false} SizeIsKeys(s: seq<Entry>, keys: set<Key>)
    requires Distinct(s) && Tracks(s, keys)
    ensures |s| <= |keys|
  {
    if s != [] {
      var n := |s| - 1;
      forall e | e in s[..n] ensures e.key in keys - {s[n].key} {
        var i :| 0 <= i < n && s[i] == e;
      }
      SizeIsKeys(s[..n], keys - {s[n].key});
    }
  }

  lemma EvictedMembers(o: Options, s: seq<Entry>, now: int)
    ensures forall e :: e in Evicted(o, s, now) ==> e in s
  {
    var idle := (e: Entry) => !Idle(e, now, o.IdleMs());
    var swept := Keep(s, idle);
    KeepMembers(s, idle);
    if |swept| > o.MaxClients() {
      var victims := Excess(swept, o.MaxClients());
      KeepMembers(swept, (e: Entry) => !exists v :: v in victims && v.key == e.key);
    }
  }

  function Clients(run: seq<Request>): set<Key> {
    set r | r in run :: r.key
  }

  ghost predicate Tracks(s: seq<Entry>, keys: set<Key>) {
    forall e :: e in s ==> e.key in keys
  }

  lemma PutTracks(s: seq<Entry>, k: Key, b: Bucket, keys: set<Key>)
    requires Tracks(s, keys) && k in keys
    ensures Tracks(Put(s, k, b), keys)
  {
  }

  lemma CheckTracks(o: Options, s: seq<Entry>, r: Request, keys: set<Key>)
    requires Tracks(s, keys) && r.key in keys
    ensures Tracks(Check(o, s, r).state, keys)
  {
    hide Served, Spent, Verdict, Evicted, Get, Put;
    var b := Served(o.TierFor(r.key), Get(s, r.key), r.now);
    PutTracks(s, r.key, b, keys);
    EvictedMembers(o, Put(s, r.key, b), r.now);
    PutTracks(Evicted(o, Put(s, r.key, b), r.now), r.key, Spent(b), keys);
  }

  lemma {:induction false} OnlyClientsTracked(o: Options, run: seq<Request>, keys: set<Key>)
    requires Clients(run) <= keys
    ensures Tracks(After(o, [], run), keys)
  {
    if run != [] {
      var n := |run| - 1;
      hide Tracks, Check;
      assert Tracks([], keys) by { TracksNothing(keys); }
      assert run[n].key in Clients(run) && Clients(run[..n]) <= Clients(run);
      OnlyClientsTracked(o, run[..n], keys);
      CheckTracks(o, After(o, [], run[..n]), run[n], keys);
    } else {
      TracksNothing(keys);
    }
  }

  lemma TracksNothing(keys: set<Key>)
    ensures Tracks([], keys)
  {
  }

  lemma FewNotCapped(o: Options, s: seq<Entry>, r: Request, k: Key)
    requires Distinct(s) && |Put(s, r.key, Served(o.TierFor(r.key), Get(s, r.key), r.now))| <= o.MaxClients()
    ensures !CapDrops(o, s, r, k)
  {
    hide Served, Put, Distinct, Get, Keep;
    var b := Served(o.TierFor(r.key), Get(s, r.key), r.now);
    var idle := (e: Entry) => !Idle(e, r.now, o.IdleMs());
    PutGets(s, r.key, b, k);
    KeepMembers(Put(s, r.key, b), idle);
    KeepGets(Put(s, r.key, b), idle, k);
  }

  /** The cap drops nobody while there are no more clients than it allows. */
  lemma FewClientsNeverCapped(o: Options, run: seq<Request>, k: Key)
    requires |Clients(run)| <= o.MaxClients()
    ensures NeverCapped(o, run, k)
  {
    forall n | 0 <= n < |run| ensures !CapDrops(o, After(o, [], run[..n]), run[n], k) {
      hide CapDrops, After, Get, Put, Served, Distinct, Tracks;
      var s, r := After(o, [], run[..n]), run[n];
      assert run[n].key in Clients(run) && Clients(run[..n]) <= Clients(run);
      DistinctNothing();
      StaysDistinct(o, [], run[..n]);
      OnlyClientsTracked(o, run[..n], Clients(run));
      var b := Served(o.TierFor(r.key), Get(s, r.key), r.now);
      PutGets(s, r.key, b, k);
      PutTracks(s, r.key, b, Clients(run));
      SizeIsKeys(Put(s, r.key, b), Clients(run));
      FewNotCapped(o, s, r, k);
    }
  }

  lemma DistinctNothing()
    ensures Distinct([])
  {
  }

  // ----- the cap -----

  function KeysOf(s: seq<Entry>): set<Key> {
    set e | e in s :: e.key
  }

  lemma {:induction false} KeysNoMore(s: seq<Entry>)
    ensures |KeysOf(s)| <= |s|
  {
    if s != [] {
      var n := |s| - 1;
      KeysNoMore(s[..n]);
      assert s == s[..n] + [s[n]];
      assert KeysOf(s) == KeysOf(s[..n]) + {s[n].key};
    }
  }

  lemma KeptIsYoung(s: seq<Entry>, max: int, e: Entry)
    requires |s| > max && e in DropExcess(s, max)
    ensures e in SortBy(SeenNotLater, s)[|Excess(s, max)|..]
  {
    var byAge, victims := SortBy(SeenNotLater, s), Excess(s, max);
    KeepMembers(s, (x: Entry) => !exists v :: v in victims && v.key == x.key);
    SortMembers(SeenNotLater, s);
    hide SortBy, Keep;
    assert byAge == victims + byAge[|victims|..];
    assert e !in victims;
  }

  /** Dropping the excess brings the map down to the cap. */
  lemma ExcessDropped(s: seq<Entry>, max: int)
    requires Distinct(s)
    ensures |DropExcess(s, max)| <= if max < 0 then 0 else max
  {
    if |s| > max {
      var young := SortBy(SeenNotLater, s)[|Excess(s, max)|..];
      SortMembers(SeenNotLater, s);
      var victims := Excess(s, max);
      KeepDistinct(s, (x: Entry) => !exists v :: v in victims && v.key == x.key);
      hide SortBy, Distinct;
      assert |young| <= if max < 0 then 0 else max;
      hide Excess, Keep;
      forall e | e in DropExcess(s, max) ensures e.key in KeysOf(young) {
        KeptIsYoung(s, max, e);
      }
      SizeIsKeys(DropExcess(s, max), KeysOf(young));
      KeysNoMore(young);
    }
  }

  lemma EvictedSize(o: Options, s: seq<Entry>, now: int)
    requires Distinct(s) && o.MaxClients() >= 0
    ensures |Evicted(o, s, now)| <= o.MaxClients()
  {
    hide DropExcess, Distinct;
    KeepDistinct(s, (e: Entry) => !Idle(e, now, o.IdleMs()));
    ExcessDropped(SweepIdle(s, now, o.IdleMs()), o.MaxClients());
  }

  ghost predicate SeenBy(s: seq<Entry>, now: int) {
    forall e :: e in s ==> e.bucket.lastSeenMs <= now
  }

  lemma NewestSortsLast(s: seq<Entry>, e: Entry)
    requires SeenBy(s, e.bucket.lastSeenMs)
    ensures SortBy(SeenNotLater, s + [e]) == SortBy(SeenNotLater, s) + [e]
  {
    assert (s + [e])[..|s|] == s;
    SortMembers(SeenNotLater, s);
  }

  /** The entry just added is the youngest, so it is not among the excess. */
  lemma NewestIsNoExcess(s: seq<Entry>, e: Entry, max: int)
    requires Distinct(s + [e]) && |s| == max >= 1 && SeenBy(s, e.bucket.lastSeenMs)
    ensures Get(DropExcess(s + [e], max), e.key) == Some(e.bucket)
  {
    var all, oldest := s + [e], SortBy(SeenNotLater, s);
    SortMembers(SeenNotLater, s);
    NewestSortsLast(s, e);
    GetIs(all, |s|);
    hide SortBy, Keep, Get, SeenBy;
    var victims := Excess(all, max);
    assert victims == [oldest[0]];
    assert oldest[0] in s;
    var i :| 0 <= i < |s| && s[i] == oldest[0];
    assert all[i].key != all[|s|].key;
    KeepGets(all, (x: Entry) => !exists v :: v in victims && v.key == x.key, e.key);
  }

  lemma KeepAppend(s: seq<Entry>, e: Entry, p: Entry -> bool)
    requires p(e)
    ensures Keep(s + [e], p) == Keep(s, p) + [e]
  {
    assert (s + [e])[..|s|] == s;
  }

  /** The sweep a request triggers never drops that request's own bucket. */
  lemma OwnSweepSpares(o: Options, s: seq<Entry>, k: Key, b: Bucket)
    requires Distinct(s) && |s| <= o.MaxClients() && o.MaxClients() >= 1 && o.IdleMs() >= 0
    requires SeenBy(s, b.lastSeenMs)
    ensures Get(Evicted(o, Put(s, k, b), b.lastSeenMs), k) == Some(b)
  {
    hide Distinct, Get, Keep;
    PutGets(s, k, b, k);
    var now, put := b.lastSeenMs, Put(s, k, b);
    var live := (e: Entry) => !Idle(e, now, o.IdleMs());
    KeepGets(put, live, k);
    KeepMembers(put, live);
    if |Keep(put, live)| > o.MaxClients() {
      KeepAppend(s, Entry(k, b), live);
      KeepDistinct(put, live);
      KeepMembers(s, live);
      NewestIsNoExcess(Keep(s, live), Entry(k, b), o.MaxClients());
    }
  }

  /** After every check of a monotone run the map respects the cap and still holds the bucket just used. */
  lemma {:induction false} CapRespected(o: Options, run: seq<Request>)
    requires Monotone(run) && o.MaxClients() >= 1 && o.IdleMs() >= 0
    ensures |After(o, [], run)| <= o.MaxClients()
    ensures run != [] ==> Get(After(o, [], run), run[|run| - 1].key).Some? && SeenBy(After(o, [], run), run[|run| - 1].now)
  {
    if run != [] {
      var n := |run| - 1;
      CapRespected(o, run[..n]);
      StaysDistinct(o, [], run[..n]);
      CheckRespectsCap(o, After(o, [], run[..n]), run[n]);
    }
  }

  lemma CheckRespectsCap(o: Options, s: seq<Entry>, r: Request)
    requires Distinct(s) && o.MaxClients() >= 1 && o.IdleMs() >= 0 && |s| <= o.MaxClients() && SeenBy(s, r.now)
    ensures |Check(o, s, r).state| <= o.MaxClients()
    ensures Get(Check(o, s, r).state, r.key).Some? && SeenBy(Check(o, s, r).state, r.now)
  {
    hide Evicted, Distinct, Get;
    var b := Served(o.TierFor(r.key), Get(s, r.key), r.now);
    OwnSweepSpares(o, s, r.key, b);
    PutGets(s, r.key, b, r.key);
    EvictedSize(o, Put(s, r.key, b), r.now);
    EvictedMembers(o, Put(s, r.key, b), r.now);
    var swept := Evicted(o, Put(s, r.key, b), r.now);
    EvictedGets(o, Put(s, r.key, b), r.now, r.key);
    PutGets(swept, r.key, Spent(b), r.key);
    PresentIsFound(swept, r.key);
    PutSeen(s, r.key, b, r.now);
    PutSeen(swept, r.key, Spent(b), r.now);
  }

  lemma PutSeen(s: seq<Entry>, k: Key, b: Bucket, now: int)
    requires SeenBy(s, now) && b.lastSeenMs <= now
    ensures SeenBy(Put(s, k, b), now)
  {
  }

  lemma PresentIsFound(s: seq<Entry>, k: Key)
    requires Get(s, k).Some?
    ensures FindKey(s, k) < |s|
  {
  }

  lemma LoneStep(o: Options, run: seq<Request>, r: Request, k: Key)
    ensures Lone(o, run + [r], k)
         == if r.key == k then Some(Spent(Served(o.TierFor(k), Lone(o, run, k), r.now))) else Lone(o, run, k)
  {
    assert (run + [r])[..|run|] == run;
  }
}
