/** Candles and the aggregation of short bars into longer ones. */
module Candles {
  import opened Prelude

  datatype Candle = Candle(openTime: int, open: real, high: real, low: real, close: real, volume: real)

  // ----- buckets -----

  /** Math.floor(ts / ms) * ms; Dafny's division rounds toward minus infinity for positive ms. */
  function BucketOf(ts: int, ms: int): int
    requires ms > 0
  {
    ts / ms * ms
  }

  lemma AtLeastOnce(a: int, d: int)
    requires d > 0
    ensures a >= 1 ==> a * d >= d
  {
  }

  lemma DivIs(x: int, d: int, q: int)
    requires d > 0 && q * d <= x < q * d + d
    ensures x / d == q
  {
    var p := x / d;
    assert p * d <= x < p * d + d;
    assert (p - q) * d == p * d - q * d && (q - p) * d == q * d - p * d;
    AtLeastOnce(p - q, d);
    AtLeastOnce(q - p, d);
  }

  lemma BucketBounds(ts: int, ms: int)
    requires ms > 0
    ensures BucketOf(ts, ms) <= ts < BucketOf(ts, ms) + ms
  {
  }

  lemma BucketMonotone(s: int, t: int, ms: int)
    requires ms > 0 && s <= t
    ensures BucketOf(s, ms) <= BucketOf(t, ms)
  {
    if s / ms > t / ms {
      assert (t / ms + 1) * ms <= s / ms * ms;
    }
  }

  lemma MulKeepsOrder(a: int, b: int, d: int)
    requires d > 0 && a <= b
    ensures a * d <= b * d
  {
  }

  /** q fine steps lie inside the b-th block of k: so do the times they cover. */
  lemma BlockBounds(q: int, b: int, k: int, ms: int)
    requires ms > 0 && k > 0 && b * k <= q < b * k + k
    ensures k * ms > 0 && b * (k * ms) <= q * ms && q * ms + ms <= b * (k * ms) + k * ms
  {
    MulKeepsOrder(b * k, q, ms);
    MulKeepsOrder(q + 1, b * k + k, ms);
    assert (q + 1) * ms == q * ms + ms && (b * k + k) * ms == b * k * ms + k * ms;
    assert b * k * ms == b * (k * ms);
    MulKeepsOrder(1, k, ms);
  }

  /** The coarse bucket of a fine bucket is the coarse bucket of the time itself. */
  lemma BucketOfBucket(t: int, ms: int, k: int)
    requires ms > 0 && k > 0
    ensures k * ms > 0 && BucketOf(BucketOf(t, ms), k * ms) == BucketOf(t, k * ms)
  {
    var q := t / ms;
    BlockBounds(q, q / k, k, ms);
    BucketBounds(t, ms);
    DivIs(q * ms, k * ms, q / k);
    DivIs(t, k * ms, q / k);
  }

  // ----- building longer bars -----

  function StartBar(c: Candle, ms: int): Candle
    requires ms > 0
  {
    c.(openTime := BucketOf(c.openTime, ms))
  }

  function Extend(bar: Candle, c: Candle): Candle {
    bar.(high := Max(bar.high, c.high), low := Min(bar.low, c.low), close := c.close, volume := bar.volume + c.volume)
  }

  /** One more source bar: it either extends the newest bar or starts the next one. */
  function Absorb(bars: seq<Candle>, c: Candle, ms: int): (r: seq<Candle>)
    requires ms > 0
    ensures r != []
  {
    if bars == [] || bars[|bars| - 1].openTime != BucketOf(c.openTime, ms)
    then bars + [StartBar(c, ms)]
    else bars[..|bars| - 1] + [Extend(bars[|bars| - 1], c)]
  }

  function Build(src: seq<Candle>, ms: int): seq<Candle>
    requires ms > 0
  {
    if src == [] then [] else Absorb(Build(src[..|src| - 1], ms), src[|src| - 1], ms)
  }

  lemma BuildAppend(src: seq<Candle>, c: Candle, ms: int)
    requires ms > 0
    ensures Build(src + [c], ms) == Absorb(Build(src, ms), c, ms)
  {
    assert (src + [c])[..|src|] == src;
  }

  /** Absorbing an extended bar is absorbing its two parts one after the other. */
  lemma AbsorbExtended(bars: seq<Candle>, bar: Candle, c: Candle, ms: int)
    requires ms > 0 && BucketOf(bar.openTime, ms) == BucketOf(c.openTime, ms)
    ensures Absorb(bars, Extend(bar, c), ms) == Absorb(Absorb(bars, bar, ms), c, ms)
  {
    var one := Absorb(bars, bar, ms);
    assert one[|one| - 1].openTime == BucketOf(c.openTime, ms);
  }

  /** Buckets of `wide` are unions of buckets of `ms`. */
  ghost predicate Nests(ms: int, wide: int) {
    ms > 0 && wide > 0 && forall t :: BucketOf(BucketOf(t, ms), wide) == BucketOf(t, wide)
  }

  lemma MultiplesNest(ms: int, k: int)
    requires ms > 0 && k > 0
    ensures k * ms > 0 && Nests(ms, k * ms)
  {
    BucketOfBucket(0, ms, k);
    forall t: int ensures BucketOf(BucketOf(t, ms), k * ms) == BucketOf(t, k * ms) {
      BucketOfBucket(t, ms, k);
    }
  }

  lemma FuseStep(fine: seq<Candle>, c: Candle, ms: int, wide: int)
    requires Nests(ms, wide)
    ensures Build(Absorb(fine, c, ms), wide) == Absorb(Build(fine, wide), c, wide)
  {
    hide BucketOf, Build;
    if fine == [] || fine[|fine| - 1].openTime != BucketOf(c.openTime, ms) {
      BuildAppend(fine, StartBar(c, ms), wide);
    } else {
      var m := |fine| - 1;
      assert fine == fine[..m] + [fine[m]];
      assert BucketOf(fine[m].openTime, wide) == BucketOf(c.openTime, wide);
      AbsorbExtended(Build(fine[..m], wide), fine[m], c, wide);
      hide Absorb;
      BuildAppend(fine[..m], fine[m], wide);
      BuildAppend(fine[..m], Extend(fine[m], c), wide);
    }
  }

  /** Fold fusion: building in two stages is building directly. */
  lemma {:induction false} BuildFuses(src: seq<Candle>, ms: int, wide: int)
    requires Nests(ms, wide)
    ensures Build(Build(src, ms), wide) == Build(src, wide)
  {
    if src != [] {
      hide Absorb;
      var n := |src| - 1;
      BuildFuses(src[..n], ms, wide);
      FuseStep(Build(src[..n], ms), src[n], ms, wide);
    }
  }

  // ----- what a built bar is -----

  ghost predicate Sorted(s: seq<Candle>) {
    forall i, j :: 0 <= i < j < |s| ==> s[i].openTime <= s[j].openTime
  }

  ghost predicate StrictlySorted(s: seq<Candle>) {
    forall i, j :: 0 <= i < j < |s| ==> s[i].openTime < s[j].openTime
  }

  /** The source bars of one bucket, oldest first. */
  function InBucket(src: seq<Candle>, bucket: int, ms: int): seq<Candle>
    requires ms > 0
  {
    if src == [] then []
    else
      var rest := InBucket(src[..|src| - 1], bucket, ms);
      if BucketOf(src[|src| - 1].openTime, ms) == bucket then rest + [src[|src| - 1]] else rest
  }

  function VolumeOf(c: Candle): real { c.volume }

  /** bar summarises the bars of g: first open, last close, highest high, lowest low, total volume. */
  ghost predicate Summarises(bar: Candle, g: seq<Candle>) {
    && g != []
    && bar.open == g[0].open && bar.close == g[|g| - 1].close
    && (forall c :: c in g ==> bar.low <= c.low && c.high <= bar.high)
    && (exists c :: c in g && c.high == bar.high) && (exists c :: c in g && c.low == bar.low)
    && bar.volume == SumOf(VolumeOf, g)
  }

  lemma SummaryStarts(c: Candle, ms: int)
    requires ms > 0
    ensures Summarises(StartBar(c, ms), [c])
  {
    SumAppend(VolumeOf, [], c);
    assert [] + [c] == [c];
    assert c in [c];
  }

  lemma SummaryExtends(bar: Candle, g: seq<Candle>, c: Candle)
    requires Summarises(bar, g)
    ensures Summarises(Extend(bar, c), g + [c])
  {
    SumAppend(VolumeOf, g, c);
    assert forall x :: x in g + [c] <==> x in g || x == c;
    assert c in g + [c];
    var h :| h in g && h.high == bar.high;
    var l :| l in g && l.low == bar.low;
    assert h in g + [c] && l in g + [c];
  }

  ghost predicate AllSummaries(src: seq<Candle>, bars: seq<Candle>, ms: int)
    requires ms > 0
  {
    forall j :: 0 <= j < |bars| ==> Summarises(bars[j], InBucket(src, bars[j].openTime, ms))
  }

  ghost predicate NoneNewer(src: seq<Candle>, bucket: int, ms: int)
    requires ms > 0
  {
    forall i :: 0 <= i < |src| ==> BucketOf(src[i].openTime, ms) <= bucket
  }

  /** The bars built so far: strictly in order, none older than a bucket seen, each the summary of its bucket. */
  ghost predicate BatchFold(src: seq<Candle>, bars: seq<Candle>, ms: int)
    requires ms > 0
  {
    && StrictlySorted(bars)
    && AllSummaries(src, bars, ms)
    && (if bars == [] then src == [] else NoneNewer(src, bars[|bars| - 1].openTime, ms))
  }

  lemma InBucketAppend(src: seq<Candle>, c: Candle, bucket: int, ms: int)
    requires ms > 0
    ensures InBucket(src + [c], bucket, ms)
         == if BucketOf(c.openTime, ms) == bucket then InBucket(src, bucket, ms) + [c] else InBucket(src, bucket, ms)
  {
    assert (src + [c])[..|src|] == src;
  }

  lemma {:induction false} InBucketNone(src: seq<Candle>, bucket: int, ms: int)
    requires ms > 0 && forall i :: 0 <= i < |src| ==> BucketOf(src[i].openTime, ms) != bucket
    ensures InBucket(src, bucket, ms) == []
  {
    hide BucketOf;
    if src != [] {
      InBucketNone(src[..|src| - 1], bucket, ms);
    }
  }

  lemma StartKeepsSummaries(src: seq<Candle>, bars: seq<Candle>, c: Candle, ms: int)
    requires ms > 0 && AllSummaries(src, bars, ms) && StrictlySorted(bars)
    requires if bars == [] then src == []
             else NoneNewer(src, bars[|bars| - 1].openTime, ms) && bars[|bars| - 1].openTime < BucketOf(c.openTime, ms)
    ensures AllSummaries(src + [c], bars + [StartBar(c, ms)], ms)
  {
    var n, next := |bars|, bars + [StartBar(c, ms)];
    InBucketNone(src, BucketOf(c.openTime, ms), ms);
    SummaryStarts(c, ms);
    hide BucketOf, Summarises, InBucket, NoneNewer;
    assert [] + [c] == [c];
    forall j | 0 <= j < |next| ensures Summarises(next[j], InBucket(src + [c], next[j].openTime, ms)) {
      InBucketAppend(src, c, next[j].openTime, ms);
      assert j < n ==> next[j] == bars[j];
    }
  }

  lemma ExtendKeepsSummaries(src: seq<Candle>, bars: seq<Candle>, c: Candle, ms: int)
    requires ms > 0 && AllSummaries(src, bars, ms) && StrictlySorted(bars)
    requires bars != [] && bars[|bars| - 1].openTime == BucketOf(c.openTime, ms)
    ensures AllSummaries(src + [c], bars[..|bars| - 1] + [Extend(bars[|bars| - 1], c)], ms)
  {
    var n := |bars| - 1;
    var next := bars[..n] + [Extend(bars[n], c)];
    hide BucketOf, Summarises, InBucket;
    SummaryExtends(bars[n], InBucket(src, bars[n].openTime, ms), c);
    forall j | 0 <= j < |next| ensures Summarises(next[j], InBucket(src + [c], next[j].openTime, ms)) {
      InBucketAppend(src, c, next[j].openTime, ms);
      assert j < n ==> next[j] == bars[j];
    }
  }

  lemma AbsorbKeepsFold(src: seq<Candle>, bars: seq<Candle>, c: Candle, ms: int)
    requires ms > 0 && BatchFold(src, bars, ms)
    requires bars == [] || bars[|bars| - 1].openTime <= BucketOf(c.openTime, ms)
    ensures BatchFold(src + [c], Absorb(bars, c, ms), ms)
  {
    hide BucketOf, AllSummaries;
    if bars == [] || bars[|bars| - 1].openTime != BucketOf(c.openTime, ms) {
      StartKeepsSummaries(src, bars, c, ms);
    } else {
      ExtendKeepsSummaries(src, bars, c, ms);
    }
  }

  /** The newest bar is the bucket of the newest source bar. */
  lemma NewestBar(src: seq<Candle>, ms: int)
    requires ms > 0 && src != []
    ensures var bars := Build(src, ms);
      bars != [] && bars[|bars| - 1].openTime == BucketOf(src[|src| - 1].openTime, ms)
  {
  }

  lemma NewestBarNotNewer(src: seq<Candle>, c: Candle, ms: int)
    requires ms > 0 && src != [] && src[|src| - 1].openTime <= c.openTime
    ensures var bars := Build(src, ms);
      bars != [] && bars[|bars| - 1].openTime <= BucketOf(c.openTime, ms)
  {
    hide BucketOf, Build;
    NewestBar(src, ms);
    BucketMonotone(src[|src| - 1].openTime, c.openTime, ms);
  }

  /** On a sorted series, Build gives bars in strict order, each the summary of its bucket. */
  lemma {:induction false} BuildIsBatchFold(src: seq<Candle>, ms: int)
    requires ms > 0 && Sorted(src)
    ensures BatchFold(src, Build(src, ms), ms)
  {
    if src != [] {
      var n := |src| - 1;
      BuildIsBatchFold(src[..n], ms);
      if n > 0 {
        NewestBarNotNewer(src[..n], src[n], ms);
      }
      hide BatchFold, Absorb, BucketOf;
      AbsorbKeepsFold(src[..n], Build(src[..n], ms), src[n], ms);
      assert src[..n] + [src[n]] == src;
    }
  }

  /** Every source bar's bucket has a bar, sorted or not. */
  lemma {:induction false} BuildCovers(src: seq<Candle>, ms: int, i: nat) returns (j: nat)
    requires ms > 0 && i < |src|
    ensures j < |Build(src, ms)| && Build(src, ms)[j].openTime == BucketOf(src[i].openTime, ms)
  {
    hide BucketOf;
    var n := |src| - 1;
    if i == n {
      j := |Build(src, ms)| - 1;
    } else {
      j := BuildCovers(src[..n], ms, i);
    }
  }

  // ----- visibility -----

  /** The bars that have closed by ts. */
  function Visible(bars: seq<Candle>, ms: int, ts: int): seq<Candle> {
    if bars == [] then []
    else
      var rest := Visible(bars[..|bars| - 1], ms, ts);
      if bars[|bars| - 1].openTime + ms <= ts then rest + [bars[|bars| - 1]] else rest
  }

  lemma VisibleAppend(bars: seq<Candle>, c: Candle, ms: int, ts: int)
    ensures Visible(bars + [c], ms, ts)
         == if c.openTime + ms <= ts then Visible(bars, ms, ts) + [c] else Visible(bars, ms, ts)
  {
    assert (bars + [c])[..|bars|] == bars;
  }

  /** On a sorted series the closed bars are a prefix. */
  lemma {:induction false} VisibleIsPrefix(bars: seq<Candle>, ms: int, ts: int, n: nat)
    requires n <= |bars|
    requires forall i :: 0 <= i < |bars| ==> (bars[i].openTime + ms <= ts <==> i < n)
    ensures Visible(bars, ms, ts) == bars[..n]
  {
    if bars != [] {
      var m := |bars| - 1;
      VisibleIsPrefix(bars[..m], ms, ts, if n == |bars| then m else n);
      if n == |bars| {
        assert bars == bars[..m] + [bars[m]];
      } else {
        assert bars[..m][..n] == bars[..n];
      }
    }
  }

  const MINUTE := 60000

  ghost predicate Aligned(src: seq<Candle>) {
    forall c :: c in src ==> c.openTime % MINUTE == 0
  }

  /** A minute bar opening at t closes no later than its bucket. */
  predicate InsideBucket(t: int, ms: int)
    requires ms > 0
  {
    t + MINUTE <= BucketOf(t, ms) + ms
  }

  /** No minute bar straddles the end of its bucket. */
  ghost predicate NoStraddle(src: seq<Candle>, ms: int)
    requires ms > 0
  {
    forall i :: 0 <= i < |src| ==> InsideBucket(src[i].openTime, ms)
  }

  lemma AlignedIsInside(t: int, ms: int)
    requires ms > 0 && ms % MINUTE == 0 && t % MINUTE == 0
    ensures InsideBucket(t, ms)
  {
    var b, k := BucketOf(t, ms), ms / MINUTE;
    BucketBounds(t, ms);
    assert t / ms * ms == (t / ms * k) * MINUTE;
    assert b % MINUTE == 0;
  }

  /** Minute-aligned bars never straddle. */
  lemma AlignedNeverStraddles(src: seq<Candle>, ms: int)
    requires ms > 0 && ms % MINUTE == 0 && Aligned(src)
    ensures NoStraddle(src, ms)
  {
    hide InsideBucket;
    forall i | 0 <= i < |src| ensures InsideBucket(src[i].openTime, ms) {
      assert src[i] in src;
      AlignedIsInside(src[i].openTime, ms);
    }
  }

  /** Bars that have not closed leave no trace in what is visible of the longer bars. */
  lemma OpenBarInvisible(src: seq<Candle>, c: Candle, ms: int, ts: int)
    requires ms > 0 && InsideBucket(c.openTime, ms) && c.openTime + MINUTE > ts
    ensures Visible(Build(src + [c], ms), ms, ts) == Visible(Build(src, ms), ms, ts)
  {
    var bars, n := Build(src, ms), |Build(src, ms)| - 1;
    BuildAppend(src, c, ms);
    hide BucketOf, Build;
    if bars == [] || bars[n].openTime != BucketOf(c.openTime, ms) {
      VisibleAppend(bars, StartBar(c, ms), ms, ts);
    } else {
      assert bars == bars[..n] + [bars[n]];
      VisibleAppend(bars[..n], bars[n], ms, ts);
      VisibleAppend(bars[..n], Extend(bars[n], c), ms, ts);
    }
  }

  /** What is visible of the longer bars is determined by the minute bars closed by ts. */
  lemma {:induction false} OnlyThePastShows(src: seq<Candle>, ms: int, ts: int)
    requires ms > 0 && Sorted(src) && NoStraddle(src, ms)
    ensures Visible(Build(src, ms), ms, ts) == Visible(Build(Visible(src, MINUTE, ts), ms), ms, ts)
  {
    hide BucketOf, Build, InsideBucket;
    if src != [] {
      var n := |src| - 1;
      assert src == src[..n] + [src[n]];
      if src[n].openTime + MINUTE <= ts {
        VisibleIsPrefix(src, MINUTE, ts, |src|);
        assert src[..|src|] == src;
      } else {
        VisibleAppend(src[..n], src[n], MINUTE, ts);
        OpenBarInvisible(src[..n], src[n], ms, ts);
        OnlyThePastShows(src[..n], ms, ts);
      }
    }
  }

  /** The last n elements; none for n <= 0. */
  function LastN<T>(s: seq<T>, n: int): seq<T> {
    if n <= 0 then [] else if |s| <= n then s else s[|s| - n..]
  }
}
