/** The live candle store: bounded series, fed by upserts and by ticks. */
module Klines {
  import opened Prelude
  import opened Candles
  import opened CandleSeries

  type Key = (string, string)

  predicate Acceptable(c: Candle) {
    c.high >= c.low && c.volume >= 0.0 && c.openTime > 0
  }

  /** JavaScript's s.slice(-n). */
  function SliceLast(s: seq<Candle>, n: int): seq<Candle> {
    if n > 0 then LastN(s, n) else if -n <= |s| then s[-n..] else []
  }

  function Capped(s: seq<Candle>, max: int): seq<Candle> {
    if |s| > max then SliceLast(s, max) else s
  }

  /** upsertCandle on one series. */
  function Upserted(s: seq<Candle>, c: Candle, max: int): seq<Candle> {
    if Acceptable(c) then Capped(Upsert(s, c), max) else s
  }

  function UpsertAll(cs: seq<Candle>, max: int): seq<Candle> {
    if cs == [] then [] else Upserted(UpsertAll(cs[..|cs| - 1], max), cs[|cs| - 1], max)
  }

  /** The unbounded store: the last acceptable candle written for each open time. */
  function LastWriter(cs: seq<Candle>): map<int, Candle> {
    if cs == [] then map[]
    else
      var c, m := cs[|cs| - 1], LastWriter(cs[..|cs| - 1]);
      if Acceptable(c) then m[c.openTime := c] else m
  }

  /** s has a candle for time t, or is full of newer ones. */
  predicate HeldOrOlder(s: seq<Candle>, max: int, t: int) {
    FindTime(s, t) < |s| || (|s| == max && max >= 1 && t < s[0].openTime)
  }

  /** s holds exactly the candles of the newest `max` open times of m, in order. */
  ghost predicate HoldsNewest(s: seq<Candle>, m: map<int, Candle>, max: int) {
    && StrictlySorted(s) && |s| <= max
    && (forall i :: 0 <= i < |s| ==> s[i].openTime in m && m[s[i].openTime] == s[i])
    && (forall t :: t in m ==> HeldOrOlder(s, max, t))
  }

  lemma OverwriteKeepsNewest(s: seq<Candle>, m: map<int, Candle>, c: Candle, k: nat, max: int)
    requires max >= 1 && HoldsNewest(s, m, max) && k < |s| && s[k].openTime == c.openTime
    ensures HoldsNewest(s[k := c], m[c.openTime := c], max)
  {
    hide FindTime;
    var r, m' := s[k := c], m[c.openTime := c];
    assert forall i :: 0 <= i < |s| ==> r[i].openTime == s[i].openTime;
    forall t | t in m' ensures HeldOrOlder(r, max, t) {
      assert HeldOrOlder(s, max, t);
      if FindTime(s, t) < |s| {
        Found(r, t, FindTime(s, t));
      }
    }
  }

  lemma CappedIs(r: seq<Candle>, max: int)
    requires max >= 1 && |r| <= max + 1
    ensures Capped(r, max) == if |r| > max then r[1..] else r
  {
  }

  /** Where the old elements and the new one are after an insertion and the cut that follows it. */
  lemma InsertedAt(s: seq<Candle>, c: Candle, k: nat, max: int)
    requires max >= 1 && |s| <= max && k <= |s|
    ensures var q, d := Capped(s[..k] + [c] + s[k..], max), if |s| == max then 1 else 0;
      && |q| == |s| + 1 - d
      && forall i :: 0 <= i < |q| ==> q[i] == if i + d < k then s[i + d] else if i + d == k then c else s[i + d - 1]
  {
    hide Capped;
    var r := s[..k] + [c] + s[k..];
    assert forall i :: 0 <= i < |r| ==> r[i] == if i < k then s[i] else if i == k then c else s[i - 1];
    CappedIs(r, max);
  }

  lemma InsertHolds(s: seq<Candle>, m: map<int, Candle>, c: Candle, k: nat, max: int, t: int)
    requires max >= 1 && HoldsNewest(s, m, max) && k <= |s| && t in m[c.openTime := c]
    requires forall i :: 0 <= i < |s| ==> s[i].openTime != c.openTime && (s[i].openTime < c.openTime <==> i < k)
    ensures HeldOrOlder(Capped(s[..k] + [c] + s[k..], max), max, t)
  {
    hide FindTime, Capped;
    var q, d := Capped(s[..k] + [c] + s[k..], max), if |s| == max then 1 else 0;
    InsertedAt(s, c, k, max);
    assert t == c.openTime || HeldOrOlder(s, max, t);
    var j := FindTime(s, t);
    var at := if t == c.openTime then k else if j < k then j else j + 1;
    if t == c.openTime || j < |s| {
      if at >= d {
        Found(q, t, at - d);
      }
    }
  }

  lemma InsertKeepsOrder(s: seq<Candle>, c: Candle, k: nat, max: int)
    requires max >= 1 && |s| <= max && k <= |s| && StrictlySorted(s)
    requires forall i :: 0 <= i < |s| ==> s[i].openTime != c.openTime && (s[i].openTime < c.openTime <==> i < k)
    ensures StrictlySorted(Capped(s[..k] + [c] + s[k..], max))
  {
    hide Capped;
    InsertStaysStrict(s, c, k);
    CappedIs(s[..k] + [c] + s[k..], max);
  }

  lemma InsertKeepsNewest(s: seq<Candle>, m: map<int, Candle>, c: Candle, k: nat, max: int)
    requires max >= 1 && HoldsNewest(s, m, max) && k <= |s|
    requires forall i :: 0 <= i < |s| ==> s[i].openTime != c.openTime && (s[i].openTime < c.openTime <==> i < k)
    ensures HoldsNewest(Capped(s[..k] + [c] + s[k..], max), m[c.openTime := c], max)
  {
    InsertedAt(s, c, k, max);
    InsertKeepsOrder(s, c, k, max);
    hide FindTime, Capped, HeldOrOlder, StrictlySorted;
    forall t | t in m[c.openTime := c] ensures HeldOrOlder(Capped(s[..k] + [c] + s[k..], max), max, t) {
      InsertHolds(s, m, c, k, max, t);
    }
  }

  /** The bounded series is the newest `max` candles of the unbounded store, whatever was upserted: late
      inserts, rewrites and re-upserts of evicted times included. */
  lemma {:induction false} CacheHoldsNewest(cs: seq<Candle>, max: int)
    requires max >= 1
    ensures HoldsNewest(UpsertAll(cs, max), LastWriter(cs), max)
  {
    if cs != [] {
      var n := |cs| - 1;
      var s, m, c := UpsertAll(cs[..n], max), LastWriter(cs[..n]), cs[n];
      CacheHoldsNewest(cs[..n], max);
      if Acceptable(c) {
        var k, added := UpsertSplits(s, c);
        if added {
          InsertKeepsNewest(s, m, c, k, max);
        } else {
          OverwriteKeepsNewest(s, m, c, k, max);
        }
      }
    }
  }

  lemma {:induction false} SubseriesIsShorter(r: seq<Candle>, s: seq<Candle>)
    requires StrictlySorted(r) && StrictlySorted(s) && forall x :: x in r ==> x in s
    ensures |r| <= |s|
  {
    if r != [] {
      var n := |r| - 1;
      assert r[n] in s;
      var k :| 0 <= k < |s| && s[k] == r[n];
      forall x | x in r[..n] ensures x in s[..k] {
        var j :| 0 <= j < n && r[j] == x;
        assert r[j] in s;
        var i :| 0 <= i < |s| && s[i] == x;
        assert r[j].openTime < r[n].openTime;
      }
      SubseriesIsShorter(r[..n], s[..k]);
    }
  }

  lemma HeldByBoth(s: seq<Candle>, r: seq<Candle>, m: map<int, Candle>, max: int, i: nat)
    requires max >= 1 && HoldsNewest(s, m, max) && HoldsNewest(r, m, max) && i < |s|
    ensures s[i] in r
  {
    hide FindTime;
    var t := s[i].openTime;
    assert HeldOrOlder(r, max, t);
    if FindTime(r, t) == |r| {
      forall y | y in r ensures y in s[i + 1..] {
        var j :| 0 <= j < |r| && r[j] == y;
        assert HeldOrOlder(s, max, y.openTime);
        var k := FindTime(s, y.openTime);
        assert s[i + 1..][k - i - 1] == y;
      }
      SubseriesIsShorter(r, s[i + 1..]);
    }
  }

  lemma {:induction false} SameMembersSameSeries(s: seq<Candle>, r: seq<Candle>)
    requires StrictlySorted(s) && StrictlySorted(r)
    requires forall x :: x in s <==> x in r
    ensures s == r
  {
    SubseriesIsShorter(s, r);
    SubseriesIsShorter(r, s);
    if s != [] {
      var n := |s| - 1;
      assert s[n] in r && r[n] in s;
      assert s[n] == r[n];
      assert forall x :: x in s[..n] <==> x in s && x != s[n];
      assert forall x :: x in r[..n] <==> x in r && x != r[n];
      SameMembersSameSeries(s[..n], r[..n]);
    }
  }

  /** HoldsNewest leaves no choice: an unbounded store has exactly one bounded series. */
  lemma NewestIsUnique(s: seq<Candle>, r: seq<Candle>, m: map<int, Candle>, max: int)
    requires max >= 1 && HoldsNewest(s, m, max) && HoldsNewest(r, m, max)
    ensures s == r
  {
    forall x ensures x in s <==> x in r {
      if x in s {
        var i :| 0 <= i < |s| && s[i] == x;
        HeldByBoth(s, r, m, max, i);
      }
      if x in r {
        var i :| 0 <= i < |r| && r[i] == x;
        HeldByBoth(r, s, m, max, i);
      }
    }
    SameMembersSameSeries(s, r);
  }

  /** s holds exactly the candles of all open times of m, in order. */
  ghost predicate HoldsAll(s: seq<Candle>, m: map<int, Candle>) {
    && StrictlySorted(s)
    && (forall i :: 0 <= i < |s| ==> s[i].openTime in m && m[s[i].openTime] == s[i])
    && (forall t :: t in m ==> FindTime(s, t) < |s|)
  }

  lemma UpsertLength(s: seq<Candle>, c: Candle)
    requires StrictlySorted(s)
    ensures |s| <= |Upsert(s, c)| <= |s| + 1
  {
    var k, added := UpsertSplits(s, c);
  }

  /** A cap larger than the number of upserts never bites, and neither does a cap of zero. */
  lemma {:induction false} ZeroCapNeverBites(cs: seq<Candle>, max: int)
    requires max > |cs|
    ensures UpsertAll(cs, max) == UpsertAll(cs, 0) && |UpsertAll(cs, 0)| <= |cs|
  {
    if cs != [] {
      var n := |cs| - 1;
      ZeroCapNeverBites(cs[..n], max);
      CacheHoldsNewest(cs[..n], max);
      hide HeldOrOlder, Upsert, LastWriter;
      UpsertLength(UpsertAll(cs[..n], 0), cs[n]);
    }
  }

  /** With a cap of zero, slice(-0) keeps everything: the series is the whole unbounded store. */
  lemma ZeroCapIsNoCap(cs: seq<Candle>)
    ensures HoldsAll(UpsertAll(cs, 0), LastWriter(cs))
  {
    ZeroCapNeverBites(cs, |cs| + 1);
    CacheHoldsNewest(cs, |cs| + 1);
    forall t | t in LastWriter(cs) ensures FindTime(UpsertAll(cs, 0), t) < |UpsertAll(cs, 0)| {
      assert HeldOrOlder(UpsertAll(cs, 0), |cs| + 1, t);
    }
  }

  /** With a negative cap, slice(-max) drops from the front after every upsert: nothing is ever kept. */
  lemma {:induction false} NegativeCapKeepsNothing(cs: seq<Candle>, max: int)
    requires max < 0
    ensures UpsertAll(cs, max) == []
  {
    if cs != [] {
      NegativeCapKeepsNothing(cs[..|cs| - 1], max);
      UpsertLength([], cs[|cs| - 1]);
      hide Upsert;
    }
  }

  const A_CANDLE := Candle(1, 1.0, 1.0, 1.0, 1.0, 0.0)

  /** The cache is the newest-N view of everything upserted exactly for caps of at least one. */
  lemma CacheHoldsNewestIff(max: int)
    ensures (forall cs: seq<Candle> :: HoldsNewest(UpsertAll(cs, max), LastWriter(cs), max)) <==> max >= 1
  {
    if max >= 1 {
      forall cs: seq<Candle> ensures HoldsNewest(UpsertAll(cs, max), LastWriter(cs), max) {
        CacheHoldsNewest(cs, max);
      }
    } else {
      var one := [A_CANDLE];
      assert one[..0] == [];
      assert LastWriter(one) == map[1 := A_CANDLE];
      ZeroCapIsNoCap(one);
      if max < 0 {
        NegativeCapKeepsNothing(one, max);
      }
      assert 1 in LastWriter(one);
      assert !HoldsNewest(UpsertAll(one, max), LastWriter(one), max);
    }
  }

  // ----- ticks -----

  datatype Tick = Tick(price: real, qty: real, ts: int)

  function TickCandle(t: Tick): Candle {
    Candle(t.ts, t.price, t.price, t.price, t.price, t.qty)
  }

  /** The candle applyTick upserts: the newest one extended, or a new one. */
  function TickedCandle(s: seq<Candle>, t: Tick, ms: int): Candle
    requires ms > 0
  {
    if s != [] && s[|s| - 1].openTime == BucketOf(t.ts, ms) then Extend(s[|s| - 1], TickCandle(t))
    else StartBar(TickCandle(t), ms)
  }

  function Ticked(s: seq<Candle>, t: Tick, ms: int, max: int): seq<Candle>
    requires ms > 0
  {
    Upserted(s, TickedCandle(s, t, ms), max)
  }

  function ApplyTicks(ts: seq<Tick>, ms: int, max: int): seq<Candle>
    requires ms > 0
  {
    if ts == [] then [] else Ticked(ApplyTicks(ts[..|ts| - 1], ms, max), ts[|ts| - 1], ms, max)
  }

  function TickCandles(ts: seq<Tick>): (r: seq<Candle>)
    ensures |r| == |ts| && forall i :: 0 <= i < |ts| ==> r[i] == TickCandle(ts[i])
  {
    if ts == [] then [] else TickCandles(ts[..|ts| - 1]) + [TickCandle(ts[|ts| - 1])]
  }

  /** Ticks in time order, none before the first full interval, none with a negative quantity. */
  ghost predicate ProperTicks(ts: seq<Tick>, ms: int) {
    && (forall i :: 0 <= i < |ts| ==> ts[i].ts >= ms && ts[i].qty >= 0.0)
    && (forall i, j :: 0 <= i < j < |ts| ==> ts[i].ts <= ts[j].ts)
  }

  lemma BucketPastFirst(t: int, ms: int)
    requires ms > 0 && t >= ms
    ensures BucketOf(t, ms) >= ms
  {
    BucketMonotone(ms, t, ms);
    DivIs(ms, ms, 1);
  }

  lemma AbsorbedAcceptable(bars: seq<Candle>, t: Tick, ms: int)
    requires ms > 0 && t.qty >= 0.0 && BucketOf(t.ts, ms) > 0
    requires forall i :: 0 <= i < |bars| ==> Acceptable(bars[i])
    ensures var r := Absorb(bars, TickCandle(t), ms); forall i :: 0 <= i < |r| ==> Acceptable(r[i])
  {
    hide BucketOf;
  }

  lemma {:induction false} BuiltBarsAcceptable(ts: seq<Tick>, ms: int)
    requires ms > 0 && ProperTicks(ts, ms)
    ensures forall i :: 0 <= i < |Build(TickCandles(ts), ms)| ==> Acceptable(Build(TickCandles(ts), ms)[i])
  {
    if ts != [] {
      var n := |ts| - 1;
      BuiltBarsAcceptable(ts[..n], ms);
      BucketPastFirst(ts[n].ts, ms);
      BuildAppend(TickCandles(ts[..n]), TickCandle(ts[n]), ms);
      hide BucketOf, Build, Absorb, Acceptable;
      AbsorbedAcceptable(Build(TickCandles(ts[..n]), ms), ts[n], ms);
    }
  }

  lemma LastNAppend(s: seq<Candle>, x: Candle, max: int)
    requires max >= 1
    ensures Capped(LastN(s, max) + [x], max) == LastN(s + [x], max)
  {
    var q := LastN(s, max) + [x];
    CappedIs(q, max);
    if |s| >= max {
      assert s + [x] == s[..|s| - max] + q;
    }
  }

  lemma LastNReplace(s: seq<Candle>, x: Candle, max: int)
    requires max >= 1 && s != []
    ensures |LastN(s, max)| > 0
    ensures LastN(s, max)[|LastN(s, max)| - 1 := x] == LastN(s[..|s| - 1] + [x], max)
    ensures |LastN(s, max)| <= max
  {
  }

  lemma LastNStrict(s: seq<Candle>, max: int)
    requires StrictlySorted(s)
    ensures StrictlySorted(LastN(s, max))
    ensures forall x :: x in LastN(s, max) ==> x in s
    ensures max >= 1 && s != [] ==> LastN(s, max) != [] && LastN(s, max)[|LastN(s, max)| - 1] == s[|s| - 1]
    ensures max >= 1 && s == [] ==> LastN(s, max) == []
  {
    var r := LastN(s, max);
    assert forall i :: 0 <= i < |r| ==> r[i] == s[|s| - |r| + i];
  }

  /** A tick that opens a bar appends it to the bounded series and drops the oldest if full. */
  lemma TickOpens(bars: seq<Candle>, t: Tick, ms: int, max: int)
    requires ms > 0 && max >= 1 && StrictlySorted(bars)
    requires bars == [] || bars[|bars| - 1].openTime != BucketOf(t.ts, ms)
    requires var c := StartBar(TickCandle(t), ms);
      Acceptable(c) && forall x :: x in bars ==> x.openTime < c.openTime
    ensures Ticked(LastN(bars, max), t, ms, max) == LastN(bars + [StartBar(TickCandle(t), ms)], max)
  {
    LastNStrict(bars, max);
    LastNAppend(bars, StartBar(TickCandle(t), ms), max);
    hide BucketOf, LastN, Capped;
    UpsertAppends(LastN(bars, max), StartBar(TickCandle(t), ms));
  }

  /** A tick in the newest bar's bucket rewrites that bar in place. */
  lemma TickExtends(bars: seq<Candle>, t: Tick, ms: int, max: int)
    requires ms > 0 && max >= 1 && StrictlySorted(bars)
    requires bars != [] && bars[|bars| - 1].openTime == BucketOf(t.ts, ms)
    requires Acceptable(Extend(bars[|bars| - 1], TickCandle(t)))
    ensures Ticked(LastN(bars, max), t, ms, max)
         == LastN(bars[..|bars| - 1] + [Extend(bars[|bars| - 1], TickCandle(t))], max)
  {
    var s, c := LastN(bars, max), Extend(bars[|bars| - 1], TickCandle(t));
    LastNStrict(bars, max);
    LastNReplace(bars, c, max);
    hide BucketOf, LastN, Upsert;
    var k, added := UpsertSplits(s, c);
    assert s[|s| - 1].openTime == c.openTime;
  }

  /** One tick: the bounded series stays the newest bars of the full build. */
  lemma TickKeepsNewest(bars: seq<Candle>, t: Tick, ms: int, max: int)
    requires ms > 0 && max >= 1 && StrictlySorted(bars)
    requires var next := Absorb(bars, TickCandle(t), ms); StrictlySorted(next) && Acceptable(next[|next| - 1])
    ensures Ticked(LastN(bars, max), t, ms, max) == LastN(Absorb(bars, TickCandle(t), ms), max)
  {
    hide BucketOf, Ticked;
    var next := Absorb(bars, TickCandle(t), ms);
    if bars == [] || bars[|bars| - 1].openTime != BucketOf(t.ts, ms) {
      forall x | x in bars ensures x.openTime < next[|bars|].openTime {
        var i :| 0 <= i < |bars| && bars[i] == x;
        assert next[i] == x;
      }
      TickOpens(bars, t, ms, max);
    } else {
      TickExtends(bars, t, ms, max);
    }
  }

  /** Ticks folded one by one give, for every bar still held, the batch summary of its ticks. */
  lemma {:induction false} TicksBuildBars(ts: seq<Tick>, ms: int, max: int)
    requires ms > 0 && max >= 1 && ProperTicks(ts, ms)
    ensures ApplyTicks(ts, ms, max) == LastN(Build(TickCandles(ts), ms), max)
    ensures BatchFold(TickCandles(ts), Build(TickCandles(ts), ms), ms)
  {
    BuildIsBatchFold(TickCandles(ts), ms);
    if ts != [] {
      var n := |ts| - 1;
      TicksBuildBars(ts[..n], ms, max);
      BuiltBarsAcceptable(ts, ms);
      BuildAppend(TickCandles(ts[..n]), TickCandle(ts[n]), ms);
      hide BucketOf, Build, AllSummaries, NoneNewer, Absorb, Ticked;
      TickKeepsNewest(Build(TickCandles(ts[..n]), ms), ts[n], ms, max);
    }
  }

  // ----- the store -----

  class KlineStore {
    const maxPerSeries: int
    var candles: map<Key, seq<Candle>>

    constructor (maxPerSeries: int)
      ensures this.maxPerSeries == maxPerSeries && candles == map[]
    {
      this.maxPerSeries := maxPerSeries;
      candles := map[];
    }

    function Series(key: Key): seq<Candle>
      reads this
    {
      if key in candles then candles[key] else []
    }

    /** upsertCandle: rejected candles change nothing; others touch their own series only. */
    method UpsertCandle(key: Key, c: Candle)
      modifies this
      ensures Acceptable(c) ==> candles == old(candles)[key := Upserted(old(Series(key)), c, maxPerSeries)]
      ensures !Acceptable(c) ==> candles == old(candles)
    {
      if c.high < c.low || c.volume < 0.0 || c.openTime <= 0 {
        return;
      }
      var series := if key in candles then candles[key] else [];
      series := UpsertInto(series, c);
      if |series| > maxPerSeries {
        series := SliceLast(series, maxPerSeries);
      }
      candles := candles[key := series];
    }

    method ApplyTick(key: Key, t: Tick, ms: int) returns (candle: Candle)
      requires ms > 0
      modifies this
      ensures candle == TickedCandle(old(Series(key)), t, ms)
      ensures Series(key) == Ticked(old(Series(key)), t, ms, maxPerSeries)
      ensures candles == old(candles) || candles == old(candles)[key := Series(key)]
    {
      var openTime := BucketOf(t.ts, ms);
      var series := Series(key);
      if |series| > 0 && series[|series| - 1].openTime == openTime {
        var last := series[|series| - 1];
        candle := last.(high := Max(last.high, t.price), low := Min(last.low, t.price), close := t.price,
                        volume := last.volume + t.qty);
      } else {
        candle := Candle(openTime, t.price, t.price, t.price, t.price, t.qty);
      }
      UpsertCandle(key, candle);
    }

    /** The newest `limit` candles; slice(-0) returns them all. */
    method GetCandles(key: Key, limit: int) returns (r: seq<Candle>)
      ensures r == SliceLast(Series(key), limit)
    {
      r := SliceLast(Series(key), limit);
    }

    /** getCandlesAsOf: filter, then the last `limit`. */
    method GetCandlesAsOf(key: Key, asOf: int, limit: int) returns (r: seq<Candle>)
      ensures r == SliceLast(Visible(Series(key), 0, asOf), limit)
    {
      var series := Series(key);
      r := [];
      for i := 0 to |series|
        invariant r == Visible(series[..i], 0, asOf)
      {
        VisibleAppend(series[..i], series[i], 0, asOf);
        assert series[..i + 1] == series[..i] + [series[i]];
        if series[i].openTime <= asOf {
          r := r + [series[i]];
        }
      }
      assert series[..|series|] == series;
      r := SliceLast(r, limit);
    }
  }
}
