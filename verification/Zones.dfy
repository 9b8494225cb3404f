/** Price zones and the greedy merging of overlapping ones. */
module Zones {
  import opened Prelude
  import opened Sorting

  datatype Direction = Bullish | Bearish | Neutral

  datatype Timeframe = H4 | H2 | H1 | M15 | M5

  datatype ZoneType = FairValueGap | OrderBlock

  datatype Status = Active | Mitigated | Broken

  datatype Zone = Zone(id: string, kind: ZoneType, direction: Direction, low: real, high: real, timeframe: Timeframe,
                       strength: int, status: Status, touches: int, createdAt: int, confirmedAt: int)

  datatype Config = Config(minZoneHeightPct: real, maxMergeMembers: int, mergeSpanPctCap: real)

  // ----- one zone from a detection -----

  function Weight(t: Timeframe): real {
    match t
    case H4 => 1.0
    case H2 => 0.85
    case H1 => 0.7
    case M15 => 0.5
    case M5 => 0.3
  }

  /** Math.round: half goes up. */
  function Round(x: real): int {
    (x + 0.5).Floor
  }

  function ClampStrength(s: int): int {
    if s < 1 then 1 else if s > 100 then 100 else s
  }

  /** 0/0 is NaN and x/0 infinite, so a zero midpoint passes a minimum exactly when the height is positive. */
  predicate AtLeastPct(height: real, mid: real, min: real) {
    if mid == 0.0 then height > 0.0 else height / mid >= min
  }

  predicate AtMostPct(height: real, mid: real, cap: real) {
    if mid == 0.0 then height < 0.0 else height / mid <= cap
  }

  function BaseStrength(kind: ZoneType, t: Timeframe, low: real, high: real): real {
    var height, mid := high - low, (high + low) / 2.0;
    Weight(t) * 55.0
      + (if AtLeastPct(height, mid, 0.001) && AtMostPct(height, mid, 0.015) then 10.0 else 0.0)
      + (if kind == OrderBlock then 8.0 else 0.0)
  }

  function Freshness(ageMs: int): real {
    Max(0.0, 1.0 - Max(0.0, ageMs as real) / 259200000.0)
  }

  function MakeZone(id: string, kind: ZoneType, bullish: bool, low: real, high: real, t: Timeframe, status: Status,
                    createdAt: int, confirmedAt: int, asOf: int): (z: Zone)
    ensures 1 <= z.strength <= 100 && z.touches == 1
    ensures z.direction != Neutral && (z.direction == Bullish <==> bullish)
    ensures z.id == id && z.kind == kind && z.low == low && z.high == high && z.timeframe == t && z.status == status
    ensures z.createdAt == createdAt && z.confirmedAt == confirmedAt
  {
    var full := BaseStrength(kind, t, low, high) + Freshness(asOf - confirmedAt) * 15.0;
    var strength := if status == Active then full else full * 0.6;
    Zone(id, kind, if bullish then Bullish else Bearish, low, high, t, ClampStrength(Round(strength)), status, 1,
         createdAt, confirmedAt)
  }

  /** A zone grows no stronger as it ages, whatever its size and kind. */
  lemma StrengthOnlyFades(id: string, kind: ZoneType, bullish: bool, low: real, high: real, t: Timeframe, status: Status,
                          createdAt: int, confirmedAt: int, asOf: int, later: int)
    requires asOf <= later
    ensures MakeZone(id, kind, bullish, low, high, t, status, createdAt, confirmedAt, later).strength
         <= MakeZone(id, kind, bullish, low, high, t, status, createdAt, confirmedAt, asOf).strength
  {
    hide BaseStrength;
    assert Freshness(later - confirmedAt) <= Freshness(asOf - confirmedAt);
  }

  // ----- spans -----

  type Cluster = c: seq<Zone> | c != [] witness [Zone("", OrderBlock, Neutral, 0.0, 0.0, H4, 1, Active, 1, 0, 0)]

  function Low(c: seq<Zone>): real
    requires c != []
  {
    if |c| == 1 then c[0].low else Min(Low(c[..|c| - 1]), c[|c| - 1].low)
  }

  function High(c: seq<Zone>): real
    requires c != []
  {
    if |c| == 1 then c[0].high else Max(High(c[..|c| - 1]), c[|c| - 1].high)
  }

  predicate SpanWithin(c: seq<Zone>, cap: real)
    requires c != []
  {
    AtMostPct(High(c) - Low(c), (Low(c) + High(c)) / 2.0, cap)
  }

  predicate Overlaps(c: seq<Zone>, z: Zone)
    requires c != []
  {
    z.low <= High(c) && z.high >= Low(c)
  }

  lemma SpanAppend(c: seq<Zone>, z: Zone)
    requires c != []
    ensures Low(c + [z]) == Min(Low(c), z.low) && High(c + [z]) == Max(High(c), z.high)
  {
    assert (c + [z])[..|c|] == c;
  }

  lemma SpanNext(c: seq<Zone>, i: nat)
    requires 0 < i < |c|
    ensures Low(c[..i + 1]) == Min(Low(c[..i]), c[i].low) && High(c[..i + 1]) == Max(High(c[..i]), c[i].high)
  {
    assert c[..i + 1] == c[..i] + [c[i]];
    SpanAppend(c[..i], c[i]);
  }

  /** clusterSpan of a cluster alone. */
  method ClusterSpan(c: seq<Zone>) returns (low: real, high: real)
    requires c != []
    ensures low == Low(c) && high == High(c)
  {
    low, high := c[0].low, c[0].high;
    for i := 1 to |c|
      invariant low == Low(c[..i]) && high == High(c[..i])
    {
      hide Low, High;
      SpanNext(c, i);
      low, high := Min(low, c[i].low), Max(high, c[i].high);
    }
    assert c[..|c|] == c;
  }

  /** clusterSpan with a zone that might join. */
  method ClusterSpanWith(c: seq<Zone>, z: Zone) returns (low: real, high: real)
    requires c != []
    ensures low == Low(c + [z]) && high == High(c + [z])
  {
    low, high := Min(z.low, c[0].low), Max(z.high, c[0].high);
    for i := 1 to |c|
      invariant low == Min(Low(c[..i]), z.low) && high == Max(High(c[..i]), z.high)
    {
      hide Low, High;
      SpanNext(c, i);
      low, high := Min(low, c[i].low), Max(high, c[i].high);
    }
    assert c[..|c|] == c;
    SpanAppend(c, z);
  }

  // ----- greedy clustering -----

  predicate Fits(cfg: Config, c: seq<Zone>, z: Zone)
    requires c != []
  {
    Overlaps(c, z) && SpanWithin(c + [z], cfg.mergeSpanPctCap) && |c| < cfg.maxMergeMembers
  }

  /** The zone joins the first cluster it fits, or starts its own. */
  function Place(cfg: Config, clusters: seq<Cluster>, z: Zone): seq<Cluster> {
    if clusters == [] then [[z]]
    else if Fits(cfg, clusters[0], z) then [clusters[0] + [z]] + clusters[1..]
    else [clusters[0]] + Place(cfg, clusters[1..], z)
  }

  function Grouped(cfg: Config, zones: seq<Zone>): seq<Cluster> {
    if zones == [] then [] else Place(cfg, Grouped(cfg, zones[..|zones| - 1]), zones[|zones| - 1])
  }

  predicate Usable(cfg: Config, z: Zone) {
    AtLeastPct(z.high - z.low, (z.high + z.low) / 2.0, cfg.minZoneHeightPct)
  }

  function UsableOf(cfg: Config, zones: seq<Zone>): seq<Zone> {
    if zones == [] then []
    else
      var rest := UsableOf(cfg, zones[..|zones| - 1]);
      if Usable(cfg, zones[|zones| - 1]) then rest + [zones[|zones| - 1]] else rest
  }

  predicate Stronger(a: Zone, b: Zone) {
    a.strength >= b.strength
  }

  function Clusters(cfg: Config, zones: seq<Zone>): seq<Cluster> {
    Grouped(cfg, SortBy(Stronger, UsableOf(cfg, zones)))
  }

  function Members(clusters: seq<Cluster>): multiset<Zone> {
    if clusters == [] then multiset{} else multiset(clusters[0]) + Members(clusters[1..])
  }

  predicate Contains(z: Zone, x: real) {
    z.low <= x <= z.high
  }

  predicate Spans(c: seq<Zone>, x: real)
    requires c != []
  {
    Low(c) <= x <= High(c)
  }

  predicate SomeMemberContains(c: seq<Zone>, x: real) {
    exists z :: z in c && Contains(z, x)
  }

  /** Every price of the span lies in some member. */
  ghost predicate Covered(c: seq<Zone>)
    requires c != []
  {
    forall x: real :: Spans(c, x) ==> SomeMemberContains(c, x)
  }

  ghost predicate Proper(z: Zone) {
    z.low <= z.high
  }

  /** What every cluster keeps: bounded, narrow once merged, gapless, and filled strongest first. */
  ghost predicate SoundCluster(cfg: Config, c: seq<Zone>)
    requires c != []
  {
    && (|c| == 1 || |c| <= cfg.maxMergeMembers)
    && (|c| == 1 || SpanWithin(c, cfg.mergeSpanPctCap))
    && Covered(c)
    && Low(c) <= High(c)
  }

  lemma PlacePartitions(cfg: Config, clusters: seq<Cluster>, z: Zone)
    ensures Members(Place(cfg, clusters, z)) == Members(clusters) + multiset{z}
  {
    if clusters != [] {
      if Fits(cfg, clusters[0], z) {
        var joined: Cluster := clusters[0] + [z];
        assert ([joined] + clusters[1..])[1..] == clusters[1..];
      } else {
        PlacePartitions(cfg, clusters[1..], z);
        assert ([clusters[0]] + Place(cfg, clusters[1..], z))[1..] == Place(cfg, clusters[1..], z);
      }
    }
  }

  lemma {:induction false} GroupedPartitions(cfg: Config, zones: seq<Zone>)
    ensures Members(Grouped(cfg, zones)) == multiset(zones)
  {
    if zones != [] {
      var n := |zones| - 1;
      hide Place, Members;
      GroupedPartitions(cfg, zones[..n]);
      PlacePartitions(cfg, Grouped(cfg, zones[..n]), zones[n]);
      MultisetLast(zones);
    }
  }

  /** Every usable zone lands in exactly one cluster, and nothing else does. */
  lemma ClustersPartition(cfg: Config, zones: seq<Zone>)
    ensures Members(Clusters(cfg, zones)) == multiset(UsableOf(cfg, zones))
  {
    GroupedPartitions(cfg, SortBy(Stronger, UsableOf(cfg, zones)));
    SortIsSort(Stronger, UsableOf(cfg, zones));
  }

  lemma SingletonSound(cfg: Config, z: Zone)
    requires Proper(z)
    ensures SoundCluster(cfg, [z])
  {
    assert z in [z];
    assert forall x: real :: Spans([z], x) ==> Contains(z, x);
  }

  lemma JoinCovers(c: seq<Zone>, z: Zone)
    requires c != [] && Covered(c) && Low(c) <= High(c) && Proper(z) && Overlaps(c, z)
    ensures Covered(c + [z]) && Low(c + [z]) <= High(c + [z])
  {
    SpanAppend(c, z);
    forall x: real | Spans(c + [z], x) ensures SomeMemberContains(c + [z], x) {
      if Contains(z, x) {
        assert z in c + [z];
      } else {
        assert Spans(c, x);
        var y :| y in c && Contains(y, x);
        assert y in c + [z];
      }
    }
  }

  lemma JoinSound(cfg: Config, c: seq<Zone>, z: Zone)
    requires c != [] && SoundCluster(cfg, c) && Proper(z) && Fits(cfg, c, z)
    ensures SoundCluster(cfg, c + [z])
  {
    hide Covered, SpanWithin;
    JoinCovers(c, z);
  }

  lemma PlaceSound(cfg: Config, clusters: seq<Cluster>, z: Zone)
    requires Proper(z) && forall c :: c in clusters ==> SoundCluster(cfg, c)
    ensures forall c :: c in Place(cfg, clusters, z) ==> SoundCluster(cfg, c)
  {
    hide SoundCluster;
    if clusters == [] {
      SingletonSound(cfg, z);
    } else if Fits(cfg, clusters[0], z) {
      JoinSound(cfg, clusters[0], z);
    } else {
      PlaceSound(cfg, clusters[1..], z);
    }
  }

  lemma {:induction false} GroupedSound(cfg: Config, zones: seq<Zone>)
    requires forall z :: z in zones ==> Proper(z)
    ensures forall c :: c in Grouped(cfg, zones) ==> SoundCluster(cfg, c)
  {
    if zones != [] {
      hide SoundCluster;
      GroupedSound(cfg, zones[..|zones| - 1]);
      PlaceSound(cfg, Grouped(cfg, zones[..|zones| - 1]), zones[|zones| - 1]);
    }
  }

  lemma {:induction false} UsableMembers(cfg: Config, zones: seq<Zone>)
    ensures forall z :: z in UsableOf(cfg, zones) <==> z in zones && Usable(cfg, z)
  {
    if zones != [] {
      UsableMembers(cfg, zones[..|zones| - 1]);
    }
  }

  /** No cluster outgrows the member limit, no merged cluster is wider than the cap, and none has a gap. */
  lemma ClustersAreSound(cfg: Config, zones: seq<Zone>)
    requires forall z :: z in zones ==> Proper(z)
    ensures forall c :: c in Clusters(cfg, zones) ==>
      && |c| <= (if cfg.maxMergeMembers < 1 then 1 else cfg.maxMergeMembers)
      && (|c| > 1 ==> SpanWithin(c, cfg.mergeSpanPctCap))
      && Covered(c)
  {
    hide Covered, SpanWithin, Usable, SortBy, UsableOf, Grouped, Low, High;
    var sorted := SortBy(Stronger, UsableOf(cfg, zones));
    UsableMembers(cfg, zones);
    SortMembers(Stronger, UsableOf(cfg, zones));
    GroupedSound(cfg, sorted);
  }

  // ----- the merged zone -----

  datatype Merged = Merged(sourceIds: seq<string>, direction: Direction, low: real, high: real, midpoint: real,
                           dominantTimeframe: Timeframe, timeframes: seq<Timeframe>, types: seq<ZoneType>,
                           strength: int, status: Status, touches: nat, createdAt: int, lastConfirmedAt: int)

  function MaxStrength(c: seq<Zone>): (m: int)
    requires c != []
    ensures forall z :: z in c ==> z.strength <= m
    ensures exists z :: z in c && z.strength == m
  {
    var last := c[|c| - 1];
    if |c| == 1 then last.strength
    else
      var rest := MaxStrength(c[..|c| - 1]);
      assert forall z :: z in c ==> z in c[..|c| - 1] || z == last;
      if rest < last.strength then last.strength else rest
  }

  function TotalTouches(c: seq<Zone>): int {
    if c == [] then 0 else TotalTouches(c[..|c| - 1]) + c[|c| - 1].touches
  }

  function Earliest(c: seq<Zone>): int
    requires c != []
  {
    var last := c[|c| - 1].createdAt;
    if |c| == 1 || last < Earliest(c[..|c| - 1]) then last else Earliest(c[..|c| - 1])
  }

  function Latest(c: seq<Zone>): int
    requires c != []
  {
    var last := c[|c| - 1].confirmedAt;
    if |c| == 1 || last > Latest(c[..|c| - 1]) then last else Latest(c[..|c| - 1])
  }

  function AtMost(x: int, cap: int): int {
    if x < cap then x else cap
  }

  /** The strongest member, plus a bonus for each further member and for touches. */
  function MergedStrength(c: seq<Zone>): int
    requires c != []
  {
    ClampStrength(MaxStrength(c) + AtMost((|c| - 1) * 10, 25) + AtMost(TotalTouches(c) * 3, 15))
  }

  /** [...new Set(s)]: first occurrences, in order. */
  function Uniques<T(==)>(s: seq<T>): seq<T> {
    if s == [] then []
    else
      var rest := Uniques(s[..|s| - 1]);
      if s[|s| - 1] in rest then rest else rest + [s[|s| - 1]]
  }

  function Ids(c: seq<Zone>): seq<string> {
    seq(|c|, i requires 0 <= i < |c| => c[i].id)
  }

  function TimeframesOf(c: seq<Zone>): seq<Timeframe> {
    seq(|c|, i requires 0 <= i < |c| => c[i].timeframe)
  }

  function TypesOf(c: seq<Zone>): seq<ZoneType> {
    seq(|c|, i requires 0 <= i < |c| => c[i].kind)
  }

  predicate Heavier(a: Timeframe, b: Timeframe) {
    Weight(a) >= Weight(b)
  }

  function DirectionOf(c: seq<Zone>): Direction
    requires c != []
  {
    if forall z :: z in c ==> z.direction == c[0].direction then c[0].direction else Neutral
  }

  function StatusOf(c: seq<Zone>): Status {
    if exists z :: z in c && z.status == Active then Active
    else if exists z :: z in c && z.status == Mitigated then Mitigated
    else Broken
  }

  function BuildMerged(c: seq<Zone>): Merged
    requires c != []
  {
    var timeframes := SortBy(Heavier, Uniques(TimeframesOf(c)));
    Merged(Ids(c), DirectionOf(c), Low(c), High(c), (Low(c) + High(c)) / 2.0,
           if timeframes != [] then timeframes[0] else c[0].timeframe, timeframes, Uniques(TypesOf(c)),
           MergedStrength(c), StatusOf(c), |c|, Earliest(c), Latest(c))
  }

  function BuildAll(clusters: seq<Cluster>): (r: seq<Merged>)
    ensures |r| == |clusters| && forall i :: 0 <= i < |r| ==> r[i] == BuildMerged(clusters[i])
  {
    seq(|clusters|, i requires 0 <= i < |clusters| => BuildMerged(clusters[i]))
  }

  /** Strongest first, then the lower edge. */
  predicate Ahead(a: Merged, b: Merged) {
    a.strength > b.strength || (a.strength == b.strength && a.low <= b.low)
  }

  function MergedZones(cfg: Config, zones: seq<Zone>): seq<Merged> {
    SortBy(Ahead, BuildAll(Clusters(cfg, zones)))
  }

  lemma {:induction false} TouchesArePositive(c: seq<Zone>)
    requires forall z :: z in c ==> z.touches >= 0
    ensures TotalTouches(c) >= 0
  {
    if c != [] {
      TouchesArePositive(c[..|c| - 1]);
    }
  }

  /** Merging never weakens: the merged strength is at least every member's. */
  lemma MergedIsStrongest(c: seq<Zone>, z: Zone)
    requires z in c && forall y :: y in c ==> y.strength <= 100 && y.touches >= 0
    ensures z.strength <= MergedStrength(c) <= 100
  {
    TouchesArePositive(c);
  }

  lemma MergedFrom(cfg: Config, zones: seq<Zone>, m: Merged) returns (c: Cluster)
    requires m in MergedZones(cfg, zones)
    ensures c in Clusters(cfg, zones) && m == BuildMerged(c)
  {
    hide SortBy, Clusters, BuildMerged;
    var clusters := Clusters(cfg, zones);
    SortMembers(Ahead, BuildAll(clusters));
    var i :| 0 <= i < |clusters| && BuildAll(clusters)[i] == m;
    c := clusters[i];
  }

  lemma ClusterMembersUsable(cfg: Config, zones: seq<Zone>, c: Cluster)
    requires c in Clusters(cfg, zones)
    ensures forall z :: z in c ==> z in zones && Usable(cfg, z)
  {
    hide Clusters, UsableOf, Usable;
    var clusters := Clusters(cfg, zones);
    var i :| 0 <= i < |clusters| && clusters[i] == c;
    ClustersPartition(cfg, zones);
    UsableMembers(cfg, zones);
    forall z | z in c ensures z in UsableOf(cfg, zones) {
      InSomeCluster(clusters, i, z);
      assert z in multiset(UsableOf(cfg, zones));
    }
  }

  lemma BuiltIsGrounded(c: Cluster)
    requires Covered(c) && forall z :: z in c ==> z.strength <= 100 && z.touches >= 0
    ensures var m := BuildMerged(c);
      && (forall z :: z in c ==> z.strength <= m.strength && z.id in m.sourceIds)
      && (forall x: real :: m.low <= x <= m.high ==> SomeMemberContains(c, x))
      && m.touches == |c|
  {
    hide Low, High, MergedStrength, SomeMemberContains;
    var m := BuildMerged(c);
    forall z | z in c ensures z.strength <= m.strength && z.id in m.sourceIds {
      MergedIsStrongest(c, z);
      var k :| 0 <= k < |c| && c[k] == z;
      assert Ids(c)[k] == z.id;
    }
    forall x: real | m.low <= x <= m.high ensures SomeMemberContains(c, x) {
      assert Spans(c, x);
    }
  }

  /** Each merged zone came from one cluster of usable zones: it lists their ids, every price between its edges
      lies in one of them, and it is at least as strong as each. */
  lemma MergedZonesAreGrounded(cfg: Config, zones: seq<Zone>, m: Merged) returns (c: Cluster)
    requires forall z :: z in zones ==> Proper(z) && z.strength <= 100 && z.touches >= 0
    requires m in MergedZones(cfg, zones)
    ensures c in Clusters(cfg, zones) && m == BuildMerged(c)
    ensures forall z :: z in c ==> z in zones && Usable(cfg, z) && z.strength <= m.strength && z.id in m.sourceIds
    ensures forall x: real :: m.low <= x <= m.high ==> SomeMemberContains(c, x)
    ensures m.touches <= (if cfg.maxMergeMembers < 1 then 1 else cfg.maxMergeMembers)
  {
    c := MergedFrom(cfg, zones, m);
    ClusterMembersUsable(cfg, zones, c);
    ClustersAreSound(cfg, zones);
    hide Clusters, MergedZones, Covered, Usable, SpanWithin, BuildMerged, SomeMemberContains, Proper;
    BuiltIsGrounded(c);
  }

  lemma {:induction false} InSomeCluster(clusters: seq<Cluster>, i: nat, z: Zone)
    requires i < |clusters| && z in clusters[i]
    ensures z in Members(clusters)
  {
    if i > 0 {
      InSomeCluster(clusters[1..], i - 1, z);
    }
  }

  /** The result is in display order, one zone per cluster. */
  lemma MergedZonesAreRanked(cfg: Config, zones: seq<Zone>)
    ensures Ordered(Ahead, MergedZones(cfg, zones))
    ensures |MergedZones(cfg, zones)| == |Clusters(cfg, zones)|
  {
    SortIsSort(Ahead, BuildAll(Clusters(cfg, zones)));
  }

  lemma GroupOfTwo(cfg: Config, a: Zone, b: Zone)
    requires !Overlaps([a], b)
    ensures Grouped(cfg, [a, b]) == [[a], [b]]
  {
    assert [a, b][..1] == [a] && [a][..0] == [];
    var one: seq<Cluster> := [[a]];
    assert Grouped(cfg, [a]) == one;
    assert one[1..] == [] && Place(cfg, one[1..], b) == [[b]];
    assert Place(cfg, one, b) == [one[0]] + [[b]];
  }

  lemma TwoClusters(cfg: Config, a: Zone, b: Zone)
    requires Usable(cfg, a) && Usable(cfg, b) && !Overlaps([a], b) && !Overlaps([b], a)
    ensures Clusters(cfg, [a, b]) == if Stronger(a, b) then [[a], [b]] else [[b], [a]]
  {
    hide Usable, Overlaps, SortBy, Grouped, Stronger;
    assert [a, b][..1] == [a] && [a][..0] == [];
    assert UsableOf(cfg, [a]) == [a];
    assert UsableOf(cfg, [a, b]) == UsableOf(cfg, [a, b][..1]) + [b];
    assert UsableOf(cfg, [a, b]) == [a, b];
    SortOfTwo(Stronger, a, b);
    GroupOfTwo(cfg, a, b);
    GroupOfTwo(cfg, b, a);
  }

  lemma SeparateZones(a: Zone, b: Zone)
    requires a.low <= a.high < b.low <= b.high && MergedStrength([a]) == MergedStrength([b])
    ensures !Overlaps([a], b) && !Overlaps([b], a)
    ensures Ahead(BuildMerged([a]), BuildMerged([b])) && !Ahead(BuildMerged([b]), BuildMerged([a]))
  {
    hide MergedStrength, SortBy, Uniques;
  }

  lemma BuildOfTwo(c: Cluster, d: Cluster)
    ensures BuildAll([c, d]) == [BuildMerged(c), BuildMerged(d)]
  {
    hide BuildMerged;
  }

  /** Two separate zones that come out equally strong are listed by their lower edges, whatever their
      timeframes and whichever came in first. */
  lemma TimeframesAreNotCompared(cfg: Config, a: Zone, b: Zone)
    requires Usable(cfg, a) && Usable(cfg, b) && a.low <= a.high < b.low <= b.high
    requires MergedStrength([a]) == MergedStrength([b])
    ensures MergedZones(cfg, [a, b]) == MergedZones(cfg, [b, a]) == [BuildMerged([a]), BuildMerged([b])]
  {
    hide Usable, Overlaps, Stronger, Clusters, MergedStrength, SortBy, BuildMerged, Ahead, BuildAll;
    SeparateZones(a, b);
    TwoClusters(cfg, a, b);
    TwoClusters(cfg, b, a);
    BuildOfTwo([a], [b]);
    BuildOfTwo([b], [a]);
    SortOfTwo(Ahead, BuildMerged([a]), BuildMerged([b]));
    SortOfTwo(Ahead, BuildMerged([b]), BuildMerged([a]));
  }

  /** A 5-minute zone listed ahead of an otherwise equal 4-hour one. */
  lemma ShortTimeframeFirst() returns (cfg: Config, a: Zone, b: Zone)
    ensures a == b.(low := a.low, high := a.high, timeframe := M5) && b.timeframe == H4
    ensures MergedZones(cfg, [b, a]) == [BuildMerged([a]), BuildMerged([b])]
  {
    cfg := Config(0.0, 4, 1.0);
    b := Zone("", OrderBlock, Bullish, 3.0, 4.0, H4, 50, Active, 1, 0, 0);
    a := b.(low := 1.0, high := 2.0, timeframe := M5);
    TimeframesAreNotCompared(cfg, a, b);
  }

  function TouchCount(m: Merged): real {
    m.touches as real
  }

  /** No usable zone is counted twice or lost: the member counts add up to the number of usable zones. */
  lemma MemberCountsAddUp(cfg: Config, zones: seq<Zone>)
    ensures SumOf(TouchCount, MergedZones(cfg, zones)) == |UsableOf(cfg, zones)| as real
  {
    hide SortBy, Grouped, UsableOf, BuildMerged;
    var built := BuildAll(Clusters(cfg, zones));
    SortIsSort(Ahead, built);
    SumPermutation(TouchCount, MergedZones(cfg, zones), built);
    ClustersPartition(cfg, zones);
    CountsOf(Clusters(cfg, zones));
    assert |multiset(UsableOf(cfg, zones))| == |UsableOf(cfg, zones)|;
  }

  lemma {:induction false} MembersAppend(clusters: seq<Cluster>, c: Cluster)
    ensures Members(clusters + [c]) == Members(clusters) + multiset(c)
  {
    if clusters == [] {
      assert ([c])[1..] == [];
    } else {
      MembersAppend(clusters[1..], c);
      assert (clusters + [c])[1..] == clusters[1..] + [c];
    }
  }

  lemma CountOf(c: Cluster)
    ensures TouchCount(BuildMerged(c)) == |c| as real
  {
  }

  lemma BuildAllAppend(clusters: seq<Cluster>, c: Cluster)
    ensures BuildAll(clusters + [c]) == BuildAll(clusters) + [BuildMerged(c)]
  {
    hide BuildMerged;
  }

  lemma MembersCount(clusters: seq<Cluster>, c: Cluster)
    ensures |Members(clusters + [c])| == |Members(clusters)| + |c|
  {
    hide Members;
    MembersAppend(clusters, c);
    assert |multiset(c)| == |c|;
  }

  lemma CountsNext(clusters: seq<Cluster>, c: Cluster)
    ensures SumOf(TouchCount, BuildAll(clusters + [c])) == SumOf(TouchCount, BuildAll(clusters)) + |c| as real
  {
    hide BuildMerged, BuildAll, TouchCount, SumOf;
    BuildAllAppend(clusters, c);
    SumAppend(TouchCount, BuildAll(clusters), BuildMerged(c));
    CountOf(c);
  }

  lemma NoneCounted()
    ensures SumOf(TouchCount, BuildAll([])) == 0.0 && |Members([])| == 0
  {
    hide BuildMerged;
  }

  lemma {:induction false} CountsOf(clusters: seq<Cluster>)
    ensures SumOf(TouchCount, BuildAll(clusters)) == |Members(clusters)| as real
  {
    hide BuildAll, TouchCount, Members, SumOf;
    if clusters == [] {
      NoneCounted();
    } else {
      var before, last := clusters[..|clusters| - 1], clusters[|clusters| - 1];
      assert clusters == before + [last];
      CountsOf(before);
      MembersCount(before, last);
      CountsNext(before, last);
    }
  }

  // ----- members strongest first -----

  ghost predicate RankedDownTo(c: seq<Zone>, strength: int) {
    Ordered(Stronger, c) && forall z :: z in c ==> z.strength >= strength
  }

  ghost predicate WeakestIs(clusters: seq<Cluster>, strength: int) {
    forall c: Cluster :: c in clusters ==> RankedDownTo(c, strength)
  }

  lemma JoinKeepsRank(c: seq<Zone>, z: Zone)
    requires RankedDownTo(c, z.strength)
    ensures RankedDownTo(c + [z], z.strength)
  {
  }

  lemma PlaceKeepsRank(cfg: Config, clusters: seq<Cluster>, z: Zone)
    requires WeakestIs(clusters, z.strength)
    ensures WeakestIs(Place(cfg, clusters, z), z.strength)
  {
    if clusters == [] {
      assert RankedDownTo([z], z.strength);
    } else {
      assert clusters[0] in clusters;
      JoinKeepsRank(clusters[0], z);
      hide RankedDownTo, Fits;
      if !Fits(cfg, clusters[0], z) {
        PlaceKeepsRank(cfg, clusters[1..], z);
      }
    }
  }

  lemma {:induction false} GroupedRanks(cfg: Config, zones: seq<Zone>)
    requires Ordered(Stronger, zones)
    ensures zones != [] ==> WeakestIs(Grouped(cfg, zones), zones[|zones| - 1].strength)
  {
    if zones != [] {
      var n := |zones| - 1;
      GroupedRanks(cfg, zones[..n]);
      PlaceKeepsRank(cfg, Grouped(cfg, zones[..n]), zones[n]);
    }
  }

  lemma OrderedHead(c: seq<Zone>)
    requires c != [] && Ordered(Stronger, c)
    ensures c[0].strength == MaxStrength(c)
  {
    var m := MaxStrength(c);
    var z :| z in c && z.strength == m;
    var i :| 0 <= i < |c| && c[i] == z;
    assert i > 0 ==> Stronger(c[0], c[i]);
  }

  /** Members sit strongest first, so the first one, whose symbol names the merged zone, dominates. */
  lemma FirstMemberDominates(cfg: Config, zones: seq<Zone>, c: Cluster)
    requires c in Clusters(cfg, zones)
    ensures Ordered(Stronger, c) && c[0].strength == MaxStrength(c)
  {
    hide Grouped, SortBy, UsableOf, Ordered, MaxStrength;
    SortIsSort(Stronger, UsableOf(cfg, zones));
    var sorted := SortBy(Stronger, UsableOf(cfg, zones));
    GroupedRanks(cfg, sorted);
    if sorted == [] {
      GroupedNothing(cfg);
    }
    OrderedHead(c);
  }

  lemma GroupedNothing(cfg: Config)
    ensures Grouped(cfg, []) == []
  {
  }

  // ----- the engine's loop -----

  lemma GroupedNext(cfg: Config, zones: seq<Zone>, i: nat)
    requires i < |zones|
    ensures Grouped(cfg, zones[..i + 1]) == Place(cfg, Grouped(cfg, zones[..i]), zones[i])
  {
    hide Place;
    assert zones[..i + 1][..i] == zones[..i];
  }

  method MergeZones(cfg: Config, zones: seq<Zone>) returns (merged: seq<Merged>)
    ensures merged == MergedZones(cfg, zones)
  {
    var sorted := SortBy(Stronger, UsableOf(cfg, zones));
    var clusters: seq<Cluster> := [];
    for i := 0 to |sorted|
      invariant clusters == Grouped(cfg, sorted[..i])
    {
      hide Grouped, Place, SortBy, UsableOf;
      GroupedNext(cfg, sorted, i);
      clusters := PlaceInto(cfg, clusters, sorted[i]);
    }
    assert sorted[..|sorted|] == sorted;
    merged := SortBy(Ahead, BuildAll(clusters));
  }

  lemma PlaceSkips(cfg: Config, clusters: seq<Cluster>, z: Zone, j: nat)
    requires j <= |clusters| && forall k :: 0 <= k < j ==> !Fits(cfg, clusters[k], z)
    ensures Place(cfg, clusters, z) == clusters[..j] + Place(cfg, clusters[j..], z)
  {
    if j > 0 {
      PlaceSkips(cfg, clusters[1..], z, j - 1);
      assert clusters[1..][j - 1..] == clusters[j..];
      assert clusters[..j] == [clusters[0]] + clusters[1..][..j - 1];
    }
  }

  /** The inner loop: push onto the first cluster that fits, else start a new one. */
  method PlaceInto(cfg: Config, clusters: seq<Cluster>, z: Zone) returns (r: seq<Cluster>)
    ensures r == Place(cfg, clusters, z)
  {
    hide Low, High;
    for j := 0 to |clusters|
      invariant forall k :: 0 <= k < j ==> !Fits(cfg, clusters[k], z)
    {
      var c := clusters[j];
      var low, high := ClusterSpanWith(c, z);
      var edge, top := ClusterSpan(c);
      if z.low <= top && z.high >= edge && AtMostPct(high - low, (low + high) / 2.0, cfg.mergeSpanPctCap)
         && |c| < cfg.maxMergeMembers {
        PlaceSkips(cfg, clusters, z, j);
        assert clusters[j..][0] == c && clusters[j..][1..] == clusters[j + 1..];
        var joined: Cluster := c + [z];
        r := clusters[j := joined];
        assert r == clusters[..j] + ([joined] + clusters[j + 1..]);
        return;
      }
    }
    PlaceSkips(cfg, clusters, z, |clusters|);
    r := clusters + [[z]];
  }
}
