/** The exit manager's loss and profit thresholds in quantity, prices and equity, and what closing would realize. */
module ExitThresholds {
  import opened Prelude
  import opened Scaling
  import BrokerTypes
  import PositionMath
  import BrokerTheorems
  import ScalingKeys
  import Decimal

  /** What the position has gained since entry at this price: for a short, what the price has fallen. */
  function Gained(p: Position, last: real): real {
    p.qty * (last - p.entryPrice)
  }

  lemma PctIs(p: Position, last: real, equity: real)
    requires p.qty != 0.0 && equity > 0.0
    ensures UnrealizedPct(p, last, equity) * equity == Gained(p, last)
  {
    var profit := (if p.qty > 0.0 then last - p.entryPrice else p.entryPrice - last) * Abs(p.qty);
    assert profit == Gained(p, last);
    Decimal.DivideBack(profit, equity);
  }

  lemma PctAtMost(p: Position, last: real, equity: real, pct: real)
    requires p.qty != 0.0 && equity > 0.0
    ensures UnrealizedPct(p, last, equity) <= pct <==> Gained(p, last) <= pct * equity
    ensures UnrealizedPct(p, last, equity) < pct <==> Gained(p, last) < pct * equity
  {
    PctIs(p, last, equity);
    hide UnrealizedPct, Gained;
    Decimal.Scale(UnrealizedPct(p, last, equity), pct, equity);
    Decimal.Scale(pct, UnrealizedPct(p, last, equity), equity);
  }

  // ----- exits -----

  /** The decision a cycle takes on its n-th case. */
  function DecisionAt(cfg: Config, scaledOut: set<Key>, cases: seq<Case>, equity: real, n: nat): Decision
    requires n < |cases|
  {
    Decide(cfg, DeriskedAll(cfg, scaledOut, cases[..n], equity), cases[n], equity)
  }

  /** The cases before the n-th that have an open position. */
  function LiveBefore(cases: seq<Case>, n: nat): nat
    requires n <= |cases|
  {
    if n == 0 then 0 else LiveBefore(cases, n - 1) + if cases[n - 1].position.Live() then 1 else 0
  }

  lemma {:induction false} LiveBeforePrefix(cases: seq<Case>, n: nat, m: nat)
    requires n <= m <= |cases|
    ensures LiveBefore(cases[..m], n) == LiveBefore(cases, n)
  {
    if n > 0 {
      LiveBeforePrefix(cases, n - 1, m);
    }
  }

  lemma {:induction false} DecisionsCount(cfg: Config, scaledOut: set<Key>, cases: seq<Case>, equity: real)
    ensures |Decisions(cfg, scaledOut, cases, equity)| == LiveBefore(cases, |cases|)
  {
    if cases != [] {
      hide Decide, DeriskedAll;
      DecisionsCount(cfg, scaledOut, cases[..|cases| - 1], equity);
      LiveBeforePrefix(cases, |cases| - 1, |cases| - 1);
    }
  }

  /** The cycle answers each open position in turn. */
  lemma {:induction false} AnsweredInTurn(cfg: Config, scaledOut: set<Key>, cases: seq<Case>, equity: real, n: nat)
    requires n < |cases| && cases[n].position.Live()
    ensures var ds := Decisions(cfg, scaledOut, cases, equity);
      LiveBefore(cases, n) < |ds| && ds[LiveBefore(cases, n)] == DecisionAt(cfg, scaledOut, cases, equity, n)
  {
    hide Decide, DeriskedAll;
    var m := |cases| - 1;
    DecisionsCount(cfg, scaledOut, cases[..m], equity);
    LiveBeforePrefix(cases, m, m);
    if n < m {
      AnsweredInTurn(cfg, scaledOut, cases[..m], equity, n);
      LiveBeforePrefix(cases, n, m);
      assert cases[..m][..n] == cases[..n];
    }
  }

  /** A position is closed for its loss exactly when that loss has reached the configured share of a positive equity: on
      the falling side for a long, on the rising side for a short. */
  lemma LossExitIff(cfg: Config, scaledOut: set<Key>, cases: seq<Case>, equity: real, n: nat)
    requires n < |cases| && cases[n].position.Live()
    ensures var c := cases[n];
      var ds := Decisions(cfg, scaledOut, cases, equity);
      LiveBefore(cases, n) < |ds| &&
      (ds[LiveBefore(cases, n)] == ExitNow(UnrealizedLossBreach) <==>
        && c.last.Some? && c.last.value != 0.0 && cfg.maxUnrealizedLossPct > 0.0 && equity > 0.0
        && c.position.qty * (c.last.value - c.position.entryPrice) <= -cfg.maxUnrealizedLossPct * equity)
  {
    AnsweredInTurn(cfg, scaledOut, cases, equity, n);
    hide Decisions, LiveBefore, DeriskedAll, UnrealizedPct, RegimeFlipped;
    var c := cases[n];
    if c.last.Some? && equity > 0.0 {
      PctAtMost(c.position, c.last.value, equity, -cfg.maxUnrealizedLossPct);
    }
  }

  /** Nothing before the de-risk band calls for the whole position. */
  predicate KeptSoFar(cfg: Config, c: Case, equity: real)
    requires c.last.Some?
  {
    && (cfg.maxUnrealizedLossPct > 0.0 ==> Gained(c.position, c.last.value) > -cfg.maxUnrealizedLossPct * equity)
    && (c.view.Some? ==>
          && !(cfg.exitOnRegimeFlip && RegimeFlipped(c.view.value, c.position.qty > 0.0))
          && (c.view.value.trackingSetup.Some? ==> c.view.value.trackingSetup.value == Alive))
  }

  /** A position not to be closed is de-risked exactly when scaling is on, its loss has reached the de-risk share of a
      positive equity, and it has not been de-risked yet. */
  lemma DeRiskIff(cfg: Config, scaledOut: set<Key>, c: Case, equity: real)
    requires c.position.Live() && Truthy(c.last) && equity > 0.0 && KeptSoFar(cfg, c, equity)
    ensures Decide(cfg, scaledOut, c, equity) == ScaleOut <==>
      && cfg.scaling.Some? && cfg.scaling.value.enabled && cfg.scaling.value.outTriggerPct > 0.0
      && c.position.qty * (c.last.value - c.position.entryPrice) <= -cfg.scaling.value.outTriggerPct * equity
      && c.position.Key() !in scaledOut
  {
    hide UnrealizedPct, RegimeFlipped;
    PctAtMost(c.position, c.last.value, equity, -cfg.maxUnrealizedLossPct);
    if cfg.scaling.Some? {
      PctAtMost(c.position, c.last.value, equity, -cfg.scaling.value.outTriggerPct);
    }
  }

  /** Only positions not to be closed, with a price and a positive equity, are de-risked. */
  lemma DeRiskNeeds(cfg: Config, scaledOut: set<Key>, c: Case, equity: real)
    requires c.position.Live() && Decide(cfg, scaledOut, c, equity) == ScaleOut
    ensures Truthy(c.last) && equity > 0.0 && KeptSoFar(cfg, c, equity)
  {
    hide UnrealizedPct, RegimeFlipped, Gained;
    if c.last.Some? && equity > 0.0 {
      PctAtMost(c.position, c.last.value, equity, -cfg.maxUnrealizedLossPct);
    }
  }

  /** What a regime change does, by the regime there is now: a trend forces an exit against it, high volatility every long,
      and chop what was entered in a trend; a fallen risk multiplier always does. */
  lemma RegimeExitIff(v: SymbolView, long: bool)
    ensures v.riskMultDrop >= 0.3 ==> RegimeFlipped(v, long)
    ensures v.riskMultDrop < 0.3 ==> (RegimeFlipped(v, long) <==>
      (match v.currentRegime
       case TrendingStrong => v.htfTrend == Some(if long then Bearish else Bullish)
       case TrendingNormal => v.htfTrend == Some(if long then Bearish else Bullish)
       case RangingHighVol => long || v.entryRegime in {TrendingStrong, TrendingNormal}
       case Transitioning => v.entryRegime in {TrendingStrong, TrendingNormal}
       case _ => false))
  {
  }

  // ----- adds -----

  /** Where an add is considered at all, it is refused as unprofitable exactly when the position has gained less than the
      required share of equity. */
  lemma ProfitGateIff(s: ScalingConfig, t: Tracker, a: Add)
    requires a.position.qty != 0.0 && Truthy(a.last) && a.equity > 0.0 && a.allowNewEntries
    ensures GateOf(s, t, a) == NotProfitable <==>
      a.position.qty * (a.last.value - a.position.entryPrice) < s.minProfitPct * a.equity
  {
    hide UnrealizedPct, Confirmed;
    PctAtMost(a.position, a.last.value, a.equity, s.minProfitPct);
  }

  /** Every add that is submitted is to a position that has gained that much, adds the configured fraction of its size,
      is within the budget and the cooldown, and is confirmed, planned and allowed. */
  lemma SubmittedAddsAreEarned(s: ScalingConfig, t: Tracker, a: Add)
    requires a.position.qty != 0.0
    ensures GateOf(s, t, a).Submits? <==>
      && a.last.Some? && a.last.value != 0.0 && a.equity > 0.0 && a.allowNewEntries
      && a.position.qty * (a.last.value - a.position.entryPrice) >= s.minProfitPct * a.equity
      && (exists x :: x in a.setups && x.ready && x.long == (a.position.qty > 0.0) && x.score >= a.minConfluence)
      && a.hasPlan && t.adds < s.maxAdds && (t.lastAt <= 0 || a.now >= t.lastAt + s.cooldownMs)
      && s.sizeFraction > 0.0 && a.correlationAllows != Some(false)
    ensures GateOf(s, t, a).Submits? ==>
      GateOf(s, t, a) == Submits((if a.position.qty > 0.0 then a.position.qty else -a.position.qty) * s.sizeFraction, t.adds + 1)
  {
    ConfirmedMeans(a);
    hide UnrealizedPct, Confirmed;
    if a.last.Some? && a.equity > 0.0 {
      PctAtMost(a.position, a.last.value, a.equity, s.minProfitPct);
    }
    Decimal.Scale(s.sizeFraction, 0.0, Abs(a.position.qty));
  }

  // ----- what closing would realize -----

  /** Closing a broker position at the price the manager saw realizes exactly what it counts as gained. */
  lemma ClosingRealizesGain(p: BrokerTypes.Position, last: real, ins: BrokerTypes.Instrument, at: int)
    requires p.qty != 0.0
    ensures var q := PositionMath.FillPosition(p, if p.qty > 0.0 then BrokerTypes.SELL else BrokerTypes.BUY, Abs(p.qty), last,
                                               p.leverage, ins, at);
      q.qty == 0.0 && q.realizedPnl - p.realizedPnl == p.qty * (last - p.entryPrice)
  {
    hide PositionMath.RealizedBy, PositionMath.NewQty;
    BrokerTheorems.CloseFill(p, last, p.leverage, ins, at);
  }

  /** So a position is closed for its loss exactly when closing it there would lose that share of equity. */
  lemma ExitsOnRealizableLoss(cfg: Config, scaledOut: set<Key>, p: BrokerTypes.Position, c: Case, equity: real,
                              ins: BrokerTypes.Instrument, at: int)
    requires c.position == ScalingKeys.ViewOf(p) && c.position.Live() && Truthy(c.last) && equity > 0.0
    requires cfg.maxUnrealizedLossPct > 0.0
    ensures var q := PositionMath.FillPosition(p, if p.qty > 0.0 then BrokerTypes.SELL else BrokerTypes.BUY, Abs(p.qty),
                                               c.last.value, p.leverage, ins, at);
      Decide(cfg, scaledOut, c, equity) == ExitNow(UnrealizedLossBreach) <==>
        p.realizedPnl - q.realizedPnl >= cfg.maxUnrealizedLossPct * equity
  {
    hide UnrealizedPct, RegimeFlipped, PositionMath.FillPosition;
    PctAtMost(c.position, c.last.value, equity, -cfg.maxUnrealizedLossPct);
    ClosingRealizesGain(p, c.last.value, ins, at);
    assert -cfg.maxUnrealizedLossPct * equity == -(cfg.maxUnrealizedLossPct * equity);
  }
}
