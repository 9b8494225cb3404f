/** When the merged zones come out in the documented display order. */
module ZoneRanking {
  import opened Prelude
  import opened Sorting
  import opened Zones

  /** Strength, then the weight of the dominant timeframe, then the lower edge. */
  predicate Documented(a: Merged, b: Merged) {
    || a.strength > b.strength
    || (a.strength == b.strength && Weight(a.dominantTimeframe) > Weight(b.dominantTimeframe))
    || (a.strength == b.strength && Weight(a.dominantTimeframe) == Weight(b.dominantTimeframe) && a.low <= b.low)
  }

  /** The weight of a cluster: that of its heaviest timeframe. */
  function Heaviest(c: seq<Zone>): real
    requires c != []
  {
    if |c| == 1 then Weight(c[0].timeframe) else Max(Heaviest(c[..|c| - 1]), Weight(c[|c| - 1].timeframe))
  }

  lemma {:induction false} HeaviestIs(c: seq<Zone>)
    requires c != []
    ensures forall z :: z in c ==> Weight(z.timeframe) <= Heaviest(c)
    ensures exists z :: z in c && Weight(z.timeframe) == Heaviest(c)
  {
    hide Weight;
    var n := |c| - 1;
    if n > 0 {
      HeaviestIs(c[..n]);
      assert forall z :: z in c <==> z in c[..n] || z == c[n];
    } else {
      assert c[0] in c;
    }
  }

  lemma {:induction false} UniquesKeep<T>(s: seq<T>)
    ensures forall x :: x in Uniques(s) <==> x in s
  {
    if s != [] {
      UniquesKeep(s[..|s| - 1]);
    }
  }

  /** The dominant timeframe of a merged zone is the heaviest among its members. */
  lemma DominantIsHeaviest(c: seq<Zone>)
    requires c != []
    ensures Weight(BuildMerged(c).dominantTimeframe) == Heaviest(c)
  {
    hide Weight, Heaviest, Low, High, MergedStrength, TotalTouches, SortBy, Uniques;
    var tfs := Uniques(TimeframesOf(c));
    var sorted := SortBy(Heavier, tfs);
    UniquesKeep(TimeframesOf(c));
    SortMembers(Heavier, tfs);
    HeaviestIs(c);
    var top :| top in c && Weight(top.timeframe) == Heaviest(c);
    InTimeframes(c, top);
    SortHead(Heavier, tfs, top.timeframe);
    assert sorted[0] in TimeframesOf(c);
    var k :| 0 <= k < |c| && TimeframesOf(c)[k] == sorted[0];
    assert c[k] in c;
  }

  lemma InTimeframes(c: seq<Zone>, z: Zone)
    requires z in c
    ensures z.timeframe in TimeframesOf(c)
  {
    var k :| 0 <= k < |c| && c[k] == z;
    assert TimeframesOf(c)[k] == z.timeframe;
  }

  // ----- what a merged zone says of its members -----

  ghost predicate Distinct<T>(s: seq<T>) {
    forall i, j :: 0 <= i < j < |s| ==> s[i] != s[j]
  }

  lemma {:induction false} UniquesDistinct<T>(s: seq<T>)
    ensures Distinct(Uniques(s))
  {
    if s != [] {
      UniquesDistinct(s[..|s| - 1]);
      UniquesKeep(s[..|s| - 1]);
    }
  }

  predicate Differ(a: Timeframe, b: Timeframe) {
    a != b
  }

  lemma SortKeepsDistinct(s: seq<Timeframe>)
    requires Distinct(s)
    ensures Distinct(SortBy(Heavier, s))
  {
    hide SortBy, Weight;
    SortRespectsIff(Heavier, Differ, s);
    forall i, j | 0 <= i < |s| && 0 <= j < |s| && Comes(Heavier, s, i, j) ensures Differ(s[i], s[j]) {
      if i == j {
        assert false;
      }
    }
    assert Ordered(Differ, SortBy(Heavier, s));
  }

  lemma {:induction false} EarliestIs(c: seq<Zone>)
    requires c != []
    ensures (forall z :: z in c ==> Earliest(c) <= z.createdAt) && exists z :: z in c && z.createdAt == Earliest(c)
  {
    var n := |c| - 1;
    assert c[n] in c;
    if n > 0 {
      EarliestIs(c[..n]);
      assert forall z :: z in c <==> z in c[..n] || z == c[n];
    }
  }

  lemma {:induction false} LatestIs(c: seq<Zone>)
    requires c != []
    ensures (forall z :: z in c ==> z.confirmedAt <= Latest(c)) && exists z :: z in c && z.confirmedAt == Latest(c)
  {
    var n := |c| - 1;
    assert c[n] in c;
    if n > 0 {
      LatestIs(c[..n]);
      assert forall z :: z in c <==> z in c[..n] || z == c[n];
    }
  }

  /** Each timeframe and each type of a member once. */
  lemma ListsEachOnce(c: seq<Zone>)
    requires c != []
    ensures var m := BuildMerged(c);
      && (forall t :: t in m.timeframes <==> exists z :: z in c && z.timeframe == t)
      && (forall k :: k in m.types <==> exists z :: z in c && z.kind == k)
      && Distinct(m.types) && Distinct(m.timeframes)
  {
    hide SortBy, Uniques, Low, High, MergedStrength, Distinct, DirectionOf, StatusOf;
    UniquesKeep(TimeframesOf(c));
    UniquesKeep(TypesOf(c));
    SortKeepsDistinct(Uniques(TimeframesOf(c))) by { UniquesDistinct(TimeframesOf(c)); }
    UniquesDistinct(TypesOf(c));
    SortMembers(Heavier, Uniques(TimeframesOf(c)));
    forall t ensures t in TimeframesOf(c) <==> exists z :: z in c && z.timeframe == t {
      if z :| z in c && z.timeframe == t {
        InTimeframes(c, z);
      }
      if t in TimeframesOf(c) {
        var k :| 0 <= k < |c| && TimeframesOf(c)[k] == t;
        assert c[k] in c;
      }
    }
    forall k ensures k in TypesOf(c) <==> exists z :: z in c && z.kind == k {
      if z :| z in c && z.kind == k {
        var i :| 0 <= i < |c| && c[i] == z;
        assert TypesOf(c)[i] == k;
      }
      if k in TypesOf(c) {
        var i :| 0 <= i < |c| && TypesOf(c)[i] == k;
        assert c[i] in c;
      }
    }
  }

  predicate AllPoint(c: seq<Zone>, d: Direction) {
    forall z :: z in c ==> z.direction == d
  }

  /** The direction all members share, or neutral; active if any member is, broken only if all are; created with the first
      and confirmed with the last of them; and centred on its own edges. */
  lemma MergedSpeaksForAll(c: seq<Zone>)
    requires c != []
    ensures var m := BuildMerged(c);
      && (forall d :: AllPoint(c, d) ==> m.direction == d)
      && ((exists y, z :: y in c && z in c && y.direction != z.direction) ==> m.direction == Neutral)
      && (m.status == Active <==> exists z :: z in c && z.status == Active)
      && (m.status == Broken <==> forall z :: z in c ==> z.status == Broken)
      && (forall z :: z in c ==> m.createdAt <= z.createdAt && z.confirmedAt <= m.lastConfirmedAt)
      && (exists z :: z in c && z.createdAt == m.createdAt) && (exists z :: z in c && z.confirmedAt == m.lastConfirmedAt)
      && m.midpoint - m.low == m.high - m.midpoint
  {
    hide SortBy, Uniques, Low, High, MergedStrength, Earliest, Latest;
    assert c[0] in c;
    EarliestIs(c);
    LatestIs(c);
  }

  // ----- any zones -----

  /** Of two clusters that come out equally strong, the one the engine lists first: by lower edge, and by age of the
      cluster where these are equal. */
  predicate ListedFirst(clusters: seq<Cluster>, i: nat, j: nat)
    requires i < |clusters| && j < |clusters|
  {
    && MergedStrength(clusters[i]) == MergedStrength(clusters[j])
    && (Low(clusters[i]) < Low(clusters[j]) || (Low(clusters[i]) == Low(clusters[j]) && i < j))
  }

  ghost predicate HeavierListedFirst(clusters: seq<Cluster>) {
    forall i, j :: 0 <= i < |clusters| && 0 <= j < |clusters| && ListedFirst(clusters, i, j) ==>
      Heaviest(clusters[i]) >= Heaviest(clusters[j])
  }

  lemma PairAgrees(clusters: seq<Cluster>, i: nat, j: nat)
    requires i < |clusters| && j < |clusters|
    ensures var built := BuildAll(clusters);
      (Comes(Ahead, built, i, j) ==> Documented(built[i], built[j])) <==>
        (ListedFirst(clusters, i, j) ==> Heaviest(clusters[i]) >= Heaviest(clusters[j]))
  {
    hide Weight, Heaviest, Low, High, MergedStrength, SortBy, Uniques;
    DominantIsHeaviest(clusters[i]);
    DominantIsHeaviest(clusters[j]);
  }

  /** Whatever the zones: the result is in the documented order exactly when, of any two equally strong clusters,
      the one listed first is at least as heavy. */
  lemma DocumentedOrderIff(cfg: Config, zones: seq<Zone>)
    ensures Ordered(Documented, MergedZones(cfg, zones)) <==> HeavierListedFirst(Clusters(cfg, zones))
  {
    hide Clusters, Documented, Comes, ListedFirst, Heaviest, BuildMerged, SortBy;
    var clusters := Clusters(cfg, zones);
    SortRespectsIff(Ahead, Documented, BuildAll(clusters));
    forall i, j | 0 <= i < |clusters| && 0 <= j < |clusters|
      ensures (Comes(Ahead, BuildAll(clusters), i, j) ==> Documented(BuildAll(clusters)[i], BuildAll(clusters)[j])) <==>
        (ListedFirst(clusters, i, j) ==> Heaviest(clusters[i]) >= Heaviest(clusters[j]))
    {
      PairAgrees(clusters, i, j);
    }
  }

  // ----- separate zones -----

  predicate Separate(a: Zone, b: Zone) {
    a.high < b.low || b.high < a.low
  }

  function Singles(zones: seq<Zone>): (r: seq<Cluster>)
    ensures |r| == |zones| && forall i :: 0 <= i < |r| ==> r[i] == [zones[i]]
  {
    seq(|zones|, i requires 0 <= i < |zones| => [zones[i]])
  }

  lemma {:induction false} PlaceApart(cfg: Config, clusters: seq<Cluster>, z: Zone)
    requires forall i :: 0 <= i < |clusters| ==> !Overlaps(clusters[i], z)
    ensures Place(cfg, clusters, z) == clusters + [[z]]
  {
    hide Overlaps;
    if clusters != [] {
      PlaceApart(cfg, clusters[1..], z);
      assert [clusters[0]] + clusters[1..] == clusters;
    }
  }

  /** Separate zones are never merged. */
  lemma {:induction false} SeparateStaySingle(cfg: Config, zones: seq<Zone>)
    requires Ordered(Separate, zones)
    ensures Grouped(cfg, zones) == Singles(zones)
  {
    if zones != [] {
      var n := |zones| - 1;
      SeparateStaySingle(cfg, zones[..n]);
      forall i | 0 <= i < n ensures !Overlaps(Singles(zones[..n])[i], zones[n]) {
        assert Separate(zones[i], zones[n]);
      }
      hide Overlaps, Place;
      PlaceApart(cfg, Singles(zones[..n]), zones[n]);
      assert Singles(zones) == Singles(zones[..n]) + [[zones[n]]];
    }
  }

  lemma SortKeepsSeparate(zones: seq<Zone>)
    requires Ordered(Separate, zones)
    ensures Ordered(Separate, SortBy(Stronger, zones))
  {
    hide SortBy;
    SortRespectsIff(Stronger, Separate, zones);
    forall i, j | 0 <= i < |zones| && 0 <= j < |zones| && Comes(Stronger, zones, i, j) ensures Separate(zones[i], zones[j]) {
      if i == j {
        assert false;
      }
    }
  }

  /** Equally strong, and the first lower: the engine lists a before b. */
  predicate ListsFirst(a: Zone, b: Zone) {
    MergedStrength([a]) == MergedStrength([b]) && a.low < b.low
  }

  /** For separate zones the condition is on the zones given: the documented order is met exactly when, of any two
      equally strong ones, the lower has at least as heavy a timeframe. */
  lemma SeparateOrderIff(cfg: Config, zones: seq<Zone>)
    requires Ordered(Separate, UsableOf(cfg, zones)) && forall z :: z in UsableOf(cfg, zones) ==> Proper(z)
    ensures Ordered(Documented, MergedZones(cfg, zones)) <==>
      forall a, b :: a in zones && b in zones && Usable(cfg, a) && Usable(cfg, b) && ListsFirst(a, b) ==>
        Weight(a.timeframe) >= Weight(b.timeframe)
  {
    hide Documented, Ordered, Usable, UsableOf, SortBy, Grouped, HeavierListedFirst, ListsFirst, Weight;
    var usable := UsableOf(cfg, zones);
    var sorted := SortBy(Stronger, usable);
    DocumentedOrderIff(cfg, zones);
    SortKeepsSeparate(usable);
    SeparateStaySingle(cfg, sorted);
    UsableMembers(cfg, zones);
    SortMembers(Stronger, usable);
    SinglesListed(sorted);
  }

  lemma SinglesListed(zones: seq<Zone>)
    requires Ordered(Separate, zones) && forall z :: z in zones ==> Proper(z)
    ensures HeavierListedFirst(Singles(zones)) <==>
      forall a, b :: a in zones && b in zones && ListsFirst(a, b) ==> Weight(a.timeframe) >= Weight(b.timeframe)
  {
    hide MergedStrength, Weight;
    var clusters := Singles(zones);
    forall i, j | 0 <= i < |zones| && 0 <= j < |zones|
      ensures ListedFirst(clusters, i, j) <==> ListsFirst(zones[i], zones[j])
    {
      assert zones[i] in zones && zones[j] in zones;
      assert i < j ==> Separate(zones[i], zones[j]);
    }
    assert forall i :: 0 <= i < |zones| ==> Heaviest(clusters[i]) == Weight(zones[i].timeframe);
    hide ListedFirst, ListsFirst, Heaviest, Separate;
    if HeavierListedFirst(clusters) {
      forall a, b | a in zones && b in zones && ListsFirst(a, b) ensures Weight(a.timeframe) >= Weight(b.timeframe) {
        var i :| 0 <= i < |zones| && zones[i] == a;
        var j :| 0 <= j < |zones| && zones[j] == b;
        assert ListedFirst(clusters, i, j);
      }
    }
  }
}
