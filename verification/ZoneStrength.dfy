/** What makes a zone strong, and how much merging adds. */
module ZoneStrength {
  import opened Prelude
  import opened Zones

  /** What a step from one timeframe to the next longer one is worth. */
  lemma TimeframeSteps(kind: ZoneType, low: real, high: real)
    ensures BaseStrength(kind, H4, low, high) == BaseStrength(kind, H2, low, high) + 8.25
    ensures BaseStrength(kind, H2, low, high) == BaseStrength(kind, H1, low, high) + 8.25
    ensures BaseStrength(kind, H1, low, high) == BaseStrength(kind, M15, low, high) + 11.0
    ensures BaseStrength(kind, M15, low, high) == BaseStrength(kind, M5, low, high) + 11.0
  {
  }

  /** The height is between 0.1% and 1.5% of the middle price. */
  predicate UsualHeight(low: real, high: real) {
    0.001 * (low + high) <= 2.0 * (high - low) <= 0.015 * (low + high)
  }

  /** An order block is worth 8 more than a gap, and a height between 0.1% and 1.5% of the middle price 10 more than any other. */
  lemma KindAndHeight(kind: ZoneType, t: Timeframe, low: real, high: real)
    ensures BaseStrength(OrderBlock, t, low, high) == BaseStrength(FairValueGap, t, low, high) + 8.0
    ensures low + high > 0.0 ==> BaseStrength(FairValueGap, M5, low, high) == if UsualHeight(low, high) then 26.5 else 16.5
  {
    if low + high > 0.0 {
      var height, mid := high - low, (high + low) / 2.0;
      ShareOf(height, mid, 0.001);
      ShareOf(height, mid, 0.015);
    }
  }

  lemma ShareOf(x: real, y: real, share: real)
    requires y > 0.0
    ensures x / y >= share <==> x >= share * y
    ensures x / y <= share <==> x <= share * y
  {
    var r := x / y;
    assert r * y == x;
    assert (r - share) * y == x - share * y;
  }

  predicate AtLeastAsHeavy(a: Timeframe, b: Timeframe) {
    a == H4 || b == M5 || a == b || (a == H2 && b != H4) || (a == H1 && b == M15)
  }

  /** The points of a detection before they are rounded and clamped. */
  function Points(kind: ZoneType, low: real, high: real, t: Timeframe, status: Status, ageMs: int): real {
    (BaseStrength(kind, t, low, high) + Freshness(ageMs) * 15.0) * if status == Active then 1.0 else 0.6
  }

  lemma StrengthIsPoints(id: string, kind: ZoneType, bullish: bool, low: real, high: real, t: Timeframe, status: Status,
                         createdAt: int, confirmedAt: int, asOf: int)
    ensures MakeZone(id, kind, bullish, low, high, t, status, createdAt, confirmedAt, asOf).strength
         == ClampStrength(Round(Points(kind, low, high, t, status, asOf - confirmedAt)))
  {
    hide BaseStrength, Freshness;
  }

  lemma MorePoints(x: real, y: real)
    requires x <= y
    ensures ClampStrength(Round(x)) <= ClampStrength(Round(y))
  {
  }

  lemma TimeframePoints(kind: ZoneType, low: real, high: real, t: Timeframe, t2: Timeframe, status: Status, ageMs: int)
    requires AtLeastAsHeavy(t, t2)
    ensures Points(kind, low, high, t2, status, ageMs) <= Points(kind, low, high, t, status, ageMs)
  {
    TimeframeSteps(kind, low, high);
    hide BaseStrength, Freshness;
    assert BaseStrength(kind, t2, low, high) <= BaseStrength(kind, t, low, high);
  }

  lemma KindPoints(kind: ZoneType, low: real, high: real, t: Timeframe, status: Status, ageMs: int)
    ensures Points(kind, low, high, t, status, ageMs) <= Points(OrderBlock, low, high, t, status, ageMs)
    ensures Points(kind, low, high, t, status, ageMs) <= Points(kind, low, high, t, Active, ageMs)
  {
    KindAndHeight(kind, t, low, high);
    BaseIsPositive(kind, t, low, high);
    FreshnessIs(ageMs);
    hide BaseStrength, Freshness;
  }

  /** A longer timeframe, an order block and an unbroken status each make a zone no weaker. */
  lemma StrongerDetections(id: string, kind: ZoneType, bullish: bool, low: real, high: real, t: Timeframe, t2: Timeframe,
                           status: Status, createdAt: int, confirmedAt: int, asOf: int)
    ensures var z := MakeZone(id, kind, bullish, low, high, t, status, createdAt, confirmedAt, asOf);
      && z.strength <= MakeZone(id, OrderBlock, bullish, low, high, t, status, createdAt, confirmedAt, asOf).strength
      && z.strength <= MakeZone(id, kind, bullish, low, high, t, Active, createdAt, confirmedAt, asOf).strength
      && (AtLeastAsHeavy(t, t2) ==>
            MakeZone(id, kind, bullish, low, high, t2, status, createdAt, confirmedAt, asOf).strength <= z.strength)
  {
    var ageMs := asOf - confirmedAt;
    var points := Points(kind, low, high, t, status, ageMs);
    hide Points, MakeZone, ClampStrength, Round;
    StrengthIsPoints(id, kind, bullish, low, high, t, status, createdAt, confirmedAt, asOf);
    StrengthIsPoints(id, OrderBlock, bullish, low, high, t, status, createdAt, confirmedAt, asOf);
    StrengthIsPoints(id, kind, bullish, low, high, t, Active, createdAt, confirmedAt, asOf);
    StrengthIsPoints(id, kind, bullish, low, high, t2, status, createdAt, confirmedAt, asOf);
    KindPoints(kind, low, high, t, status, ageMs);
    MorePoints(points, Points(OrderBlock, low, high, t, status, ageMs));
    MorePoints(points, Points(kind, low, high, t, Active, ageMs));
    if AtLeastAsHeavy(t, t2) {
      TimeframePoints(kind, low, high, t, t2, status, ageMs);
      MorePoints(Points(kind, low, high, t2, status, ageMs), points);
    }
  }

  lemma BaseIsPositive(kind: ZoneType, t: Timeframe, low: real, high: real)
    ensures 16.5 <= BaseStrength(kind, t, low, high) <= 73.0
  {
  }

  /** Freshness falls evenly from 1 to 0 over three days. */
  lemma FreshnessIs(ageMs: int)
    ensures 0.0 <= Freshness(ageMs) <= 1.0
    ensures ageMs <= 0 ==> Freshness(ageMs) == 1.0
    ensures 0 <= ageMs <= 72 * 60 * 60 * 1000 ==> (1.0 - Freshness(ageMs)) * (72 * 60 * 60 * 1000) as real == ageMs as real
    ensures ageMs >= 72 * 60 * 60 * 1000 ==> Freshness(ageMs) == 0.0
  {
  }

  /** The two ends of the scale for a fresh detection of usual height: an active 4-hour order block, a broken 5-minute gap. */
  lemma FreshStrength(id: string, bullish: bool, low: real, high: real, createdAt: int, at: int)
    requires low + high > 0.0 && UsualHeight(low, high)
    ensures MakeZone(id, OrderBlock, bullish, low, high, H4, Active, createdAt, at, at).strength == 88
    ensures MakeZone(id, FairValueGap, bullish, low, high, M5, Broken, createdAt, at, at).strength == 25
  {
    KindAndHeight(OrderBlock, H4, low, high);
    TimeframeSteps(FairValueGap, low, high);
    FreshnessIs(0);
    hide BaseStrength, Freshness;
    assert BaseStrength(OrderBlock, H4, low, high) == 73.0;
    assert BaseStrength(FairValueGap, M5, low, high) == 26.5;
    assert (73.0 + 15.0 + 0.5).Floor == 88 && ((26.5 + 15.0) * 0.6 + 0.5).Floor == 25;
  }

  // ----- merging -----

  lemma TotalTouchesAppend(c: seq<Zone>, z: Zone)
    ensures TotalTouches(c + [z]) == TotalTouches(c) + z.touches
  {
    assert (c + [z])[..|c|] == c;
  }

  lemma MaxStrengthAppend(c: seq<Zone>, z: Zone)
    requires c != []
    ensures MaxStrength(c + [z]) == if MaxStrength(c) < z.strength then z.strength else MaxStrength(c)
  {
    assert (c + [z])[..|c|] == c;
  }

  /** Each further member no stronger than the strongest adds ten, and three per touch, as long as neither bonus has reached
      its ceiling (25 and 15) nor the strength its own (100). */
  lemma MemberBonus(c: seq<Zone>, z: Zone)
    requires c != [] && z.strength <= MaxStrength(c) && MaxStrength(c) >= 1 && z.touches >= 0 && TotalTouches(c) >= 0
    requires |c| <= 2 && TotalTouches(c) + z.touches <= 5
    requires MaxStrength(c) + 10 * |c| + 3 * (TotalTouches(c) + z.touches) <= 100
    ensures MergedStrength(c + [z]) == MergedStrength(c) + 10 + 3 * z.touches
  {
    TotalTouchesAppend(c, z);
    MaxStrengthAppend(c, z);
  }

  /** The two ceilings: however many members and touches, merging adds at most 40. */
  lemma BonusIsCapped(c: seq<Zone>)
    requires c != [] && MaxStrength(c) >= 1
    ensures MergedStrength(c) <= MaxStrength(c) + 40
    ensures |c| >= 4 && TotalTouches(c) >= 5 && MaxStrength(c) <= 60 ==> MergedStrength(c) == MaxStrength(c) + 40
  {
  }
}
