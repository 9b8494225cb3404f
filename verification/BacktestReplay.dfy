/** The backtest's candle cache: what a strategy may see at the replay time. */
module BacktestReplay {
  import opened Prelude
  import opened Candles
  import opened CandleSeries
  import opened Sorting

  datatype Interval = M1 | M5 | M15

  function IntervalMs(i: Interval): (ms: int)
    ensures ms > 0 && ms % MINUTE == 0
  {
    match i
    case M1 => 60000
    case M5 => 300000
    case M15 => 900000
  }

  /** Rows of the klines table upserted in order onto a series, last writer wins. */
  function LoadedOnto(s: seq<Candle>, rows: seq<Candle>): seq<Candle> {
    if rows == [] then s else Upsert(LoadedOnto(s, rows[..|rows| - 1]), rows[|rows| - 1])
  }

  lemma {:induction false} LoadedIsSorted(s: seq<Candle>, rows: seq<Candle>)
    requires StrictlySorted(s)
    ensures StrictlySorted(LoadedOnto(s, rows))
  {
    if rows != [] {
      LoadedIsSorted(s, rows[..|rows| - 1]);
      var k, added := UpsertSplits(LoadedOnto(s, rows[..|rows| - 1]), rows[|rows| - 1]);
    }
  }

  /** The three series loadKlines leaves in the cache: 15-minute bars are built from the 5-minute ones. */
  function SeriesOf(minutes: seq<Candle>, i: Interval): seq<Candle> {
    match i
    case M1 => minutes
    case M5 => Build(minutes, 300000)
    case M15 => Build(Build(minutes, 300000), 900000)
  }

  /** What getCandles shows at replayTs: the last `limit` bars that have closed. */
  function Shown(minutes: seq<Candle>, i: Interval, replayTs: int, limit: int): seq<Candle> {
    LastN(Visible(SeriesOf(minutes, i), IntervalMs(i), replayTs), limit)
  }

  lemma FifteenIsDirect(minutes: seq<Candle>)
    ensures Build(Build(minutes, 300000), 900000) == Build(minutes, 900000)
  {
    MultiplesNest(300000, 3);
    BuildFuses(minutes, 300000, 900000);
  }

  lemma {:induction false} VisibleTwice(minutes: seq<Candle>, ms: int, ts: int)
    ensures Visible(Visible(minutes, ms, ts), ms, ts) == Visible(minutes, ms, ts)
  {
    if minutes != [] {
      var n := |minutes| - 1;
      VisibleTwice(minutes[..n], ms, ts);
      VisibleAppend(Visible(minutes[..n], ms, ts), minutes[n], ms, ts);
    }
  }

  /** A bar inside its 5-minute bucket is inside the 15-minute bucket around it. */
  lemma InsideFiveInsideFifteen(t: int)
    requires InsideBucket(t, 300000)
    ensures InsideBucket(t, 900000)
  {
    var q := t / 300000;
    BlockBounds(q, q / 3, 3, 300000);
    DivIs(t, 900000, q / 3);
  }

  /** What is visible at any interval is determined by the minute bars closed by ts. */
  lemma PastDeterminesSeries(minutes: seq<Candle>, i: Interval, ts: int)
    requires Sorted(minutes) && NoStraddle(minutes, 300000)
    ensures Visible(SeriesOf(minutes, i), IntervalMs(i), ts)
         == Visible(SeriesOf(Visible(minutes, MINUTE, ts), i), IntervalMs(i), ts)
  {
    FifteenIsDirect(minutes);
    FifteenIsDirect(Visible(minutes, MINUTE, ts));
    match i
    case M1 => VisibleTwice(minutes, MINUTE, ts);
    case M5 => OnlyThePastShows(minutes, 300000, ts);
    case M15 =>
      forall k | 0 <= k < |minutes| ensures InsideBucket(minutes[k].openTime, 900000) {
        InsideFiveInsideFifteen(minutes[k].openTime);
      }
      OnlyThePastShows(minutes, 900000, ts);
  }

  /** No look-ahead: two datasets without straddling bars that agree on every bar closed by the replay time
      show a strategy the same candles, at every interval and limit, through both aggregation stages. */
  lemma NoLookAhead(a: seq<Candle>, b: seq<Candle>, i: Interval, ts: int, limit: int)
    requires Sorted(a) && Sorted(b) && NoStraddle(a, 300000) && NoStraddle(b, 300000)
    requires Visible(a, IntervalMs(M1), ts) == Visible(b, IntervalMs(M1), ts)
    ensures Shown(a, i, ts, limit) == Shown(b, i, ts, limit)
  {
    PastDeterminesSeries(a, i, ts);
    PastDeterminesSeries(b, i, ts);
  }

  /** In particular for bars that open on the minute. */
  lemma AlignedBarsShowNoFuture(a: seq<Candle>, b: seq<Candle>, i: Interval, ts: int, limit: int)
    requires Sorted(a) && Sorted(b) && Aligned(a) && Aligned(b)
    requires Visible(a, IntervalMs(M1), ts) == Visible(b, IntervalMs(M1), ts)
    ensures Shown(a, i, ts, limit) == Shown(b, i, ts, limit)
  {
    AlignedNeverStraddles(a, 300000);
    AlignedNeverStraddles(b, 300000);
    NoLookAhead(a, b, i, ts, limit);
  }

  lemma BuildOfSome(src: seq<Candle>, ms: int)
    requires ms > 0
    ensures Build(src, ms) == [] <==> src == []
  {
    hide BucketOf;
  }

  lemma UpsertIsSome(s: seq<Candle>, c: Candle)
    requires s != []
    ensures Upsert(s, c) != []
  {
    var i := FindTime(s, c.openTime);
    if i == |s| {
      hide FindTime;
      SortedLength(s + [c]);
    }
  }

  lemma SortedLength(s: seq<Candle>)
    ensures |SortBy(NotLater, s)| == |s|
  {
    SortIsSort(NotLater, s);
  }

  /** Longer series that were built from the minutes before are built from the minutes now. */
  lemma LoadedSeriesAgree(m1: seq<Candle>, n1: seq<Candle>, m5: seq<Candle>, n5: seq<Candle>, m15: seq<Candle>, n15: seq<Candle>)
    requires n5 == if n1 == [] then m5 else Build(n1, 300000)
    requires n15 == if n5 == [] then m15 else Build(n5, 900000)
    requires n1 == [] ==> m1 == []
    ensures m5 == SeriesOf(m1, M5) && m15 == SeriesOf(m1, M15) ==> n5 == SeriesOf(n1, M5) && n15 == SeriesOf(n1, M15)
  {
    BuildOfSome(n1, 300000);
    BuildOfSome(n5, 900000);
    BuildOfSome(m1, 300000);
    BuildOfSome(Build(m1, 300000), 900000);
  }

  lemma {:induction false} LoadingKeeps(s: seq<Candle>, rows: seq<Candle>)
    ensures LoadedOnto(s, rows) == [] ==> s == []
  {
    if rows != [] {
      hide Upsert;
      LoadingKeeps(s, rows[..|rows| - 1]);
      if LoadedOnto(s, rows[..|rows| - 1]) != [] {
        UpsertIsSome(LoadedOnto(s, rows[..|rows| - 1]), rows[|rows| - 1]);
      }
    }
  }

  // ----- when aggregation leaks -----

  function TimesOf(src: seq<Candle>): (ts: seq<int>)
    ensures |ts| == |src| && forall i :: 0 <= i < |src| ==> ts[i] == src[i].openTime
  {
    seq(|src|, i requires 0 <= i < |src| => src[i].openTime)
  }

  /** At every replay time, the closed longer bars show nothing but minute bars closed by then. */
  ghost predicate LeaksNothing(src: seq<Candle>, ms: int)
    requires ms > 0
  {
    forall ts: int :: Visible(Build(src, ms), ms, ts) == Visible(Build(Visible(src, MINUTE, ts), ms), ms, ts)
  }

  /** Minute bars at these times, each closing at its own number. */
  function Numbered(times: seq<int>): (src: seq<Candle>)
    ensures |src| == |times|
    ensures forall i :: 0 <= i < |src| ==> src[i].openTime == times[i] && src[i].close == i as real
  {
    seq(|times|, i requires 0 <= i < |times| => Candle(times[i], 0.0, 0.0, 0.0, i as real, 0.0))
  }

  lemma {:induction false} BuiltCloses(src: seq<Candle>, ms: int, x: real)
    requires ms > 0 && forall c :: c in src ==> c.close < x
    ensures forall b :: b in Build(src, ms) ==> b.close < x
  {
    hide BucketOf;
    if src != [] {
      BuiltCloses(src[..|src| - 1], ms, x);
    }
  }

  lemma {:induction false} LastInBucket(src: seq<Candle>, i: nat, ms: int)
    requires ms > 0 && i < |src| && forall j, k :: 0 <= j < k < |src| ==> src[j].close <= src[k].close
    ensures var g := InBucket(src, BucketOf(src[i].openTime, ms), ms); g != [] && g[|g| - 1].close >= src[i].close
  {
    hide BucketOf;
    if i < |src| - 1 {
      LastInBucket(src[..|src| - 1], i, ms);
    }
  }

  lemma {:induction false} VisibleMembers(bars: seq<Candle>, ms: int, ts: int)
    ensures forall c :: c in Visible(bars, ms, ts) <==> c in bars && c.openTime + ms <= ts
  {
    if bars != [] {
      VisibleMembers(bars[..|bars| - 1], ms, ts);
    }
  }

  /** The bar of a bucket that already holds bar i closes at number i or later. */
  lemma BarClosesLate(times: seq<int>, ms: int, i: nat) returns (bar: Candle)
    requires ms > 0 && i < |times| && (forall j, k :: 0 <= j < k < |times| ==> times[j] <= times[k])
    ensures bar in Build(Numbered(times), ms) && bar.openTime == BucketOf(times[i], ms) && bar.close >= i as real
  {
    hide BucketOf;
    var src := Numbered(times);
    var j := BuildCovers(src, ms, i);
    BuildIsBatchFold(src, ms);
    LastInBucket(src, i, ms);
    hide Build, InBucket;
    bar := Build(src, ms)[j];
    assert Summarises(bar, InBucket(src, bar.openTime, ms));
  }

  /** Bars built from what has closed before bar i close at an earlier number. */
  lemma EarlyBarsCloseEarly(times: seq<int>, ms: int, i: nat, ts: int)
    requires ms > 0 && i < |times| && (forall j, k :: 0 <= j < k < |times| ==> times[j] <= times[k])
    requires ts < times[i] + MINUTE
    ensures forall b :: b in Build(Visible(Numbered(times), MINUTE, ts), ms) ==> b.close < i as real
  {
    hide Build, Visible;
    var src := Numbered(times);
    var early := Visible(src, MINUTE, ts);
    VisibleMembers(src, MINUTE, ts);
    forall c | c in early ensures c.close < i as real {
      var k :| 0 <= k < |src| && src[k] == c;
    }
    BuiltCloses(early, ms, i as real);
  }

  /** A minute bar that straddles the end of its bucket gives a dataset on which its close is shown, in the
      closed longer bar, before the minute has closed. */
  lemma StraddlerLeaks(times: seq<int>, ms: int, i: nat)
    requires ms > 0 && i < |times| && (forall j, k :: 0 <= j < k < |times| ==> times[j] <= times[k])
    requires !InsideBucket(times[i], ms)
    ensures !LeaksNothing(Numbered(times), ms)
  {
    hide BucketOf, Build, Visible;
    var src, ts := Numbered(times), BucketOf(times[i], ms) + ms;
    var bar := BarClosesLate(times, ms, i);
    var early := Build(Visible(src, MINUTE, ts), ms);
    EarlyBarsCloseEarly(times, ms, i, ts);
    VisibleMembers(Build(src, ms), ms, ts);
    VisibleMembers(early, ms, ts);
    assert bar in Visible(Build(src, ms), ms, ts) && bar !in Visible(early, ms, ts);
  }

  /** Aggregation never shows the future, whatever the bars hold, exactly when none of their open times
      straddles the end of its bucket. */
  lemma AggregationLeaksIff(times: seq<int>, ms: int)
    requires ms > 0 && forall j, k :: 0 <= j < k < |times| ==> times[j] <= times[k]
    ensures (forall src: seq<Candle> :: TimesOf(src) == times ==> LeaksNothing(src, ms))
       <==> (forall i :: 0 <= i < |times| ==> InsideBucket(times[i], ms))
  {
    if forall i :: 0 <= i < |times| ==> InsideBucket(times[i], ms) {
      hide InsideBucket, LeaksNothing;
      forall src: seq<Candle> | TimesOf(src) == times ensures LeaksNothing(src, ms) {
        InsideNeverLeaks(src, ms);
      }
    } else {
      var i :| 0 <= i < |times| && !InsideBucket(times[i], ms);
      StraddlerLeaks(times, ms, i);
      assert TimesOf(Numbered(times)) == times;
    }
  }

  lemma InsideNeverLeaks(src: seq<Candle>, ms: int)
    requires ms > 0 && Sorted(src) && NoStraddle(src, ms)
    ensures LeaksNothing(src, ms)
  {
    hide NoStraddle, Sorted;
    forall ts: int ensures Visible(Build(src, ms), ms, ts) == Visible(Build(Visible(src, MINUTE, ts), ms), ms, ts) {
      OnlyThePastShows(src, ms, ts);
    }
  }

  // ----- the cache -----

  type Cache = map<(string, Interval), seq<Candle>>

  function SeriesIn(cache: Cache, symbol: string, i: Interval): seq<Candle> {
    if (symbol, i) in cache then cache[(symbol, i)] else []
  }

  function Merged(cache: Cache, symbol: string, rows: seq<Candle>): Cache {
    if rows == [] then cache
    else
      var rest := Merged(cache, symbol, rows[..|rows| - 1]);
      rest[(symbol, M1) := Upsert(SeriesIn(rest, symbol, M1), rows[|rows| - 1])]
  }

  function WithLonger(cache: Cache, symbol: string, src: Interval, dst: Interval): Cache {
    if SeriesIn(cache, symbol, src) == [] then cache
    else cache[(symbol, dst) := Build(SeriesIn(cache, symbol, src), IntervalMs(dst))]
  }

  function AfterLoad(cache: Cache, symbol: string, rows: seq<Candle>): Cache {
    WithLonger(WithLonger(Merged(cache, symbol, rows), symbol, M1, M5), symbol, M5, M15)
  }

  /** Rows touch the minute series of their own symbol, and nothing else. */
  lemma {:induction false} MergedSeries(cache: Cache, symbol: string, rows: seq<Candle>, s: string, i: Interval)
    ensures SeriesIn(Merged(cache, symbol, rows), s, i)
         == if (s, i) == (symbol, M1) then LoadedOnto(SeriesIn(cache, symbol, M1), rows) else SeriesIn(cache, s, i)
  {
    if rows != [] {
      hide Upsert;
      MergedSeries(cache, symbol, rows[..|rows| - 1], s, i);
    }
  }

  ghost predicate InStep(cache: Cache, symbol: string) {
    forall i: Interval :: SeriesIn(cache, symbol, i) == SeriesOf(SeriesIn(cache, symbol, M1), i)
  }

  /** Loading a symbol, cached already or not, merges the rows into its minute series and touches no other
      symbol. */
  lemma LoadMerges(cache: Cache, symbol: string, rows: seq<Candle>)
    ensures SeriesIn(AfterLoad(cache, symbol, rows), symbol, M1) == LoadedOnto(SeriesIn(cache, symbol, M1), rows)
    ensures forall s: string, i: Interval :: s != symbol ==>
      SeriesIn(AfterLoad(cache, symbol, rows), s, i) == SeriesIn(cache, s, i)
  {
    hide Build;
    MergedSeries(cache, symbol, rows, symbol, M1);
    forall s: string, i: Interval | s != symbol
      ensures SeriesIn(AfterLoad(cache, symbol, rows), s, i) == SeriesIn(cache, s, i)
    {
      MergedSeries(cache, symbol, rows, s, i);
    }
  }

  /** Repeated loads keep the longer series in step with the minute series. */
  lemma LoadKeepsStep(cache: Cache, symbol: string, rows: seq<Candle>)
    requires InStep(cache, symbol)
    ensures InStep(AfterLoad(cache, symbol, rows), symbol)
  {
    hide Build;
    var c1 := Merged(cache, symbol, rows);
    var c2 := WithLonger(c1, symbol, M1, M5);
    var c3 := WithLonger(c2, symbol, M5, M15);
    MergedSeries(cache, symbol, rows, symbol, M1);
    MergedSeries(cache, symbol, rows, symbol, M5);
    MergedSeries(cache, symbol, rows, symbol, M15);
    var m1, n1 := SeriesIn(cache, symbol, M1), SeriesIn(c1, symbol, M1);
    LoadingKeeps(m1, rows);
    LoadedSeriesAgree(m1, n1, SeriesIn(cache, symbol, M5), SeriesIn(c2, symbol, M5),
                      SeriesIn(cache, symbol, M15), SeriesIn(c3, symbol, M15));
    assert SeriesIn(cache, symbol, M5) == SeriesOf(m1, M5) && SeriesIn(cache, symbol, M15) == SeriesOf(m1, M15);
    forall i: Interval ensures SeriesIn(c3, symbol, i) == SeriesOf(SeriesIn(c3, symbol, M1), i) {
      match i
      case M1 =>
      case M5 =>
      case M15 =>
    }
  }

  /** The newest bar is held aside while the loop runs. */
  ghost predicate HeldAside(bars: seq<Candle>, dst: seq<Candle>, current: Option<Candle>) {
    && bars == dst + (if current.Some? then [current.value] else [])
    && (current.None? ==> dst == [])
  }

  lemma HeldStep(bars: seq<Candle>, dst: seq<Candle>, current: Option<Candle>, c: Candle, ms: int)
    requires ms > 0 && HeldAside(bars, dst, current)
    ensures HeldAside(
      Absorb(bars, c, ms),
      if current.Some? && current.value.openTime != BucketOf(c.openTime, ms) then dst + [current.value] else dst,
      Some(if current.None? || current.value.openTime != BucketOf(c.openTime, ms) then StartBar(c, ms)
           else Extend(current.value, c)))
  {
    hide BucketOf, Extend;
    if current.Some? {
      assert bars[..|bars| - 1] == dst;
    }
  }

  class BacktestRunner {
    var candleCache: Cache
    var replayTs: int

    constructor ()
      ensures candleCache == map[] && replayTs == 0
    {
      candleCache, replayTs := map[], 0;
    }

    method UpsertCandle(symbol: string, c: Candle)
      modifies this`candleCache
      ensures candleCache == old(candleCache)[(symbol, M1) := Upsert(SeriesIn(old(candleCache), symbol, M1), c)]
    {
      var series := UpsertInto(SeriesIn(candleCache, symbol, M1), c);
      candleCache := candleCache[(symbol, M1) := series];
    }

    /** The loop that folds a source series into longer bars, newest bar held aside. */
    static method FoldBars(src: seq<Candle>, dstMs: int) returns (dst: seq<Candle>)
      requires dstMs > 0
      ensures dst == Build(src, dstMs)
    {
      dst := [];
      var current: Option<Candle> := None;
      for i := 0 to |src|
        invariant HeldAside(Build(src[..i], dstMs), dst, current)
      {
        var c := src[i];
        BuildAppend(src[..i], c, dstMs);
        assert src[..i + 1] == src[..i] + [c];
        HeldStep(Build(src[..i], dstMs), dst, current, c, dstMs);
        hide BucketOf, Build, HeldAside, Absorb, Max, Min;
        var bucketStart := BucketOf(c.openTime, dstMs);
        if current.None? || current.value.openTime != bucketStart {
          if current.Some? {
            dst := dst + [current.value];
          }
          current := Some(c.(openTime := bucketStart));
        } else {
          var bar := current.value;
          current := Some(bar.(high := Max(bar.high, c.high), low := Min(bar.low, c.low), close := c.close,
                               volume := bar.volume + c.volume));
        }
      }
      assert src[..|src|] == src;
      if current.Some? {
        dst := dst + [current.value];
      }
    }

    method BuildHigherIntervals(symbol: string, src: Interval, dst: Interval)
      modifies this`candleCache
      ensures candleCache == WithLonger(old(candleCache), symbol, src, dst)
    {
      var series := SeriesIn(candleCache, symbol, src);
      if |series| == 0 {
        return;
      }
      var bars := FoldBars(series, IntervalMs(dst));
      candleCache := candleCache[(symbol, dst) := bars];
    }

    /** loadKlines, whether or not the symbol is in the cache already. */
    method LoadKlines(symbol: string, rows: seq<Candle>)
      modifies this`candleCache
      ensures candleCache == AfterLoad(old(candleCache), symbol, rows)
    {
      hide WithLonger, SeriesIn, Upsert;
      for n := 0 to |rows|
        invariant candleCache == Merged(old(candleCache), symbol, rows[..n])
      {
        assert rows[..n + 1][..n] == rows[..n];
        UpsertCandle(symbol, rows[n]);
      }
      assert rows[..|rows|] == rows;
      BuildHigherIntervals(symbol, M1, M5);
      BuildHigherIntervals(symbol, M5, M15);
    }

    /** getCandles: binary search for the cut, then the last `limit` before it. */
    method GetCandles(symbol: string, i: Interval, limit: int) returns (r: seq<Candle>)
      requires StrictlySorted(SeriesIn(candleCache, symbol, i))
      ensures r == LastN(Visible(SeriesIn(candleCache, symbol, i), IntervalMs(i), replayTs), limit)
    {
      var series, ms := SeriesIn(candleCache, symbol, i), IntervalMs(i);
      if |series| == 0 {
        return [];
      }
      var lo, hi := 0, |series|;
      while lo < hi
        invariant 0 <= lo <= hi <= |series|
        invariant forall k :: 0 <= k < lo ==> series[k].openTime + ms <= replayTs
        invariant forall k :: hi <= k < |series| ==> series[k].openTime + ms > replayTs
      {
        var mid := (lo + hi) / 2;
        if series[mid].openTime + ms <= replayTs {
          lo := mid + 1;
        } else {
          hi := mid;
        }
      }
      VisibleIsPrefix(series, ms, replayTs, lo);
      var from := if lo - limit > 0 then lo - limit else 0;
      r := if from <= lo then series[from..lo] else [];
    }
  }

  /** Every cached series is strictly sorted, so getCandles' search is always on sorted data. */
  lemma SeriesAreSorted(s: seq<Candle>, rows: seq<Candle>, i: Interval)
    requires StrictlySorted(s)
    ensures StrictlySorted(SeriesOf(LoadedOnto(s, rows), i))
  {
    var minutes := LoadedOnto(s, rows);
    LoadedIsSorted(s, rows);
    BuildIsBatchFold(minutes, 300000);
    FifteenIsDirect(minutes);
    BuildIsBatchFold(minutes, 900000);
  }

  // ----- the bars pushed to strategies -----

  /** A bar handed to strategies while replaying: the replay time and the bar's bucket. */
  datatype Push = Push(at: int, bucket: int)

  /** times[i] is the first replay time outside the bucket of the time before it. */
  ghost predicate Entered(times: seq<int>, i: nat, ms: int)
    requires ms > 0 && 0 < i < |times|
  {
    0 <= BucketOf(times[i - 1], ms) != BucketOf(times[i], ms)
  }

  /** Every bucket left, with the time it was left at, in order. */
  function PushesOf(times: seq<int>, ms: int): seq<Push>
    requires ms > 0
  {
    if |times| <= 1 then []
    else
      var n := |times| - 1;
      var prev := BucketOf(times[n - 1], ms);
      PushesOf(times[..n], ms) + if 0 <= prev != BucketOf(times[n], ms) then [Push(times[n], prev)] else []
  }

  /** The bucket logic of run(): on entering a new bucket, the previous bucket's bar is handed out. */
  method PushClosedBars(times: seq<int>, ms: int) returns (pushed: seq<Push>)
    requires ms > 0
    ensures pushed == PushesOf(times, ms)
  {
    pushed := [];
    var last := -1;
    for i := 0 to |times|
      invariant i > 0 ==> last == BucketOf(times[i - 1], ms)
      invariant i == 0 ==> last == -1
      invariant pushed == PushesOf(times[..i], ms)
    {
      hide BucketOf;
      assert times[..i + 1][..i] == times[..i];
      var bucket := BucketOf(times[i], ms);
      if bucket != last {
        var prev := last;
        last := bucket;
        if prev >= 0 {
          pushed := pushed + [Push(times[i], prev)];
        }
      }
    }
    assert times[..|times|] == times;
  }

  /** A push hands over the bucket just left, at the first time outside it, when its bar has closed. */
  ghost predicate Leaves(p: Push, times: seq<int>, ms: int)
    requires ms > 0
  {
    exists i :: 0 < i < |times| && Entered(times, i, ms) && p == Push(times[i], BucketOf(times[i - 1], ms))
  }

  /** Exactly the buckets left are handed over. */
  lemma {:induction false} OnlyLeftBucketsHanded(times: seq<int>, ms: int)
    requires ms > 0
    ensures forall p :: p in PushesOf(times, ms) <==> Leaves(p, times, ms)
  {
    hide BucketOf, Leaves;
    if |times| > 1 {
      OnlyLeftBucketsHanded(times[..|times| - 1], ms);
      LeavesNext(times, ms);
    } else {
      forall p ensures !Leaves(p, times, ms) {
        NothingLeft(p, times, ms);
      }
    }
  }

  lemma NothingLeft(p: Push, times: seq<int>, ms: int)
    requires ms > 0 && |times| <= 1
    ensures !Leaves(p, times, ms)
  {
  }

  /** Buckets strictly increase, below `upto`, and each bar has closed when it is handed over. */
  ghost predicate HandedInOrder(ps: seq<Push>, ms: int, upto: int) {
    && (forall i, j :: 0 <= i < j < |ps| ==> ps[i].bucket < ps[j].bucket)
    && (forall i :: 0 <= i < |ps| ==> ps[i].bucket < upto && ps[i].bucket + ms <= ps[i].at)
  }

  lemma PushKeepsOrder(ps: seq<Push>, ms: int, upto: int, p: Push, next: int)
    requires HandedInOrder(ps, ms, upto) && p.bucket == upto < next && p.bucket + ms <= p.at
    ensures HandedInOrder(ps + [p], ms, next)
  {
  }

  lemma OrderLater(ps: seq<Push>, ms: int, upto: int, next: int)
    requires HandedInOrder(ps, ms, upto) && upto <= next
    ensures HandedInOrder(ps, ms, next)
  {
  }

  /** Over replay times in order each bucket is handed over once, oldest first, and only after its bar has
      closed. */
  lemma {:induction false} EachBucketHandedOnce(times: seq<int>, ms: int)
    requires ms > 0 && times != [] && forall i, j :: 0 <= i < j < |times| ==> times[i] < times[j]
    ensures HandedInOrder(PushesOf(times, ms), ms, BucketOf(times[|times| - 1], ms))
  {
    hide BucketOf;
    if |times| > 1 {
      var n := |times| - 1;
      var prev, next := BucketOf(times[n - 1], ms), BucketOf(times[n], ms);
      EachBucketHandedOnce(times[..n], ms);
      NextBucketIsLater(times[n - 1], times[n], ms);
      BucketMonotone(times[n - 1], times[n], ms);
      hide HandedInOrder;
      if 0 <= prev != next {
        PushKeepsOrder(PushesOf(times[..n], ms), ms, prev, Push(times[n], prev), next);
      } else {
        OrderLater(PushesOf(times[..n], ms), ms, prev, next);
      }
    }
  }

  lemma LeavesNext(times: seq<int>, ms: int)
    requires ms > 0 && |times| > 1
    ensures var n := |times| - 1;
      forall p :: Leaves(p, times, ms) <==>
        Leaves(p, times[..n], ms) || (Entered(times, n, ms) && p == Push(times[n], BucketOf(times[n - 1], ms)))
  {
    hide BucketOf;
    var n := |times| - 1;
    forall i | 0 < i < n ensures Entered(times[..n], i, ms) <==> Entered(times, i, ms) {
    }
    forall p | Leaves(p, times[..n], ms) ensures Leaves(p, times, ms) {
      var i :| 0 < i < n && Entered(times[..n], i, ms) && p == Push(times[..n][i], BucketOf(times[..n][i - 1], ms));
      assert Entered(times, i, ms);
    }
    forall p | Leaves(p, times, ms) && !(Entered(times, n, ms) && p == Push(times[n], BucketOf(times[n - 1], ms)))
      ensures Leaves(p, times[..n], ms)
    {
      var i :| 0 < i < |times| && Entered(times, i, ms) && p == Push(times[i], BucketOf(times[i - 1], ms));
      assert Entered(times[..n], i, ms);
    }
  }

  lemma DivMonotone(s: int, t: int, ms: int)
    requires ms > 0 && s <= t
    ensures s / ms <= t / ms
  {
    var d := s / ms - t / ms;
    assert d * ms == s / ms * ms - t / ms * ms;
    AtLeastOnce(d, ms);
  }

  lemma NextBucketIsLater(s: int, t: int, ms: int)
    requires ms > 0 && s <= t
    ensures BucketOf(s, ms) != BucketOf(t, ms) ==> BucketOf(s, ms) + ms <= BucketOf(t, ms) <= t
  {
    BucketBounds(t, ms);
    DivMonotone(s, t, ms);
    if s / ms != t / ms {
      MulKeepsOrder(s / ms + 1, t / ms, ms);
      assert (s / ms + 1) * ms == s / ms * ms + ms;
    }
  }
}
