/** A run on which a reduce-only limit order outlives its position and opens the opposite one. */
module OrphanedLimit {
  import opened Prelude
  import opened Decimal
  import opened BrokerTypes
  import opened PositionMath
  import opened BrokerSpec
  import opened BrokerInvariants
  import opened BrokerRuns
  import opened BrokerTheorems
  import opened OversizedStop

  const LIMIT_TEN :=
    SubmitOrder(Quiet(100.0), OrderCommand("BTC", SELL, LIMIT, 10.0, Some(110.0), None, None, true, false, None))
  const SELL_TEN := SubmitOrder(Quiet(100.0), Command(SELL, MARKET, 10.0, None, true))
  const RISE := MarketTick(Quiet(110.0), MarketUpdate("BTC", Some(110.0), None, None, None, None))

  function LimitOrder(id: nat): Order {
    Order(id, "BTC", SELL, LIMIT, GTC, NEW, 10.0, 0.0, Some(110.0), None, 0.0, 5.0, true, false, None)
  }

  function CloseOrder(id: nat): Order {
    Order(id, "BTC", SELL, MARKET, GTC, NEW, 10.0, 0.0, None, None, 0.0, 5.0, true, false, None)
  }

  /** The long position after it was closed at its entry price. */
  const CLOSED := Position("BTC", false, 0.0, 0.0, 5.0, 0.0, 0.0, 0.0, 0.0, Some(0))

  /** The bid of 100 is below the limit, so the order rests. */
  lemma AfterResting(st: State)
    requires Holds(st, 10.0) && |st.orders| == 1 && !st.orders[0].Live() && st.nextId == 1
    ensures var r := Step(NO_FEES, st, LIMIT_TEN);
      Holds(r, 10.0) && r.nextId == 2 && |r.orders| == 2 && !r.orders[0].Live() && r.orders[1] == LimitOrder(1)
  {
    var t := AtTime(st, LIMIT_TEN.env);
    hide ToFixed, RoundStep, RoundTick, RiskReason, Submit, FillOrder;
    assert LimitOrder(1) == NewOrder(NO_FEES, t, LIMIT_TEN.cmd) by {
      WholeSteps(10.0);
      WholeSteps(110.0);
      assert FindPosition(t.positions, "BTC") == 0;
    }
    hide NewOrder;
    ReductionIsAdmitted(Place(t, LimitOrder(1)), LIMIT_TEN.env, LimitOrder(1), Quoted(100.0));
    Rested(t, LIMIT_TEN.env, LIMIT_TEN.cmd, LimitOrder(1), Quoted(100.0));
  }

  lemma CloseIsAccepted(st: State)
    requires Holds(st, 10.0) && st.nextId == 2 && |st.orders| == 2
    ensures Step(NO_FEES, st, SELL_TEN)
         == FillOrder(NO_FEES, Place(AtTime(st, SELL_TEN.env), CloseOrder(2)), 2, Quoted(100.0), TAKER)
  {
    var t := AtTime(st, SELL_TEN.env);
    hide RiskReason, FillOrder, Submit, RoundStep, RoundTick;
    assert CloseOrder(2) == NewOrder(NO_FEES, t, SELL_TEN.cmd) by {
      WholeSteps(10.0);
      assert FindPosition(t.positions, "BTC") == 0;
    }
    hide NewOrder;
    ReductionIsAdmitted(Place(t, CloseOrder(2)), SELL_TEN.env, CloseOrder(2), Quoted(100.0));
    FilledAtOnce(t, SELL_TEN.env, SELL_TEN.cmd, CloseOrder(2), Quoted(100.0));
  }

  lemma ClosingMoves()
    ensures NewQty(10.0, SELL, 10.0, WHOLE_LOTS) == 0.0
    ensures FillPosition(Long(10.0), SELL, 10.0, 100.0, 5.0, WHOLE_LOTS, 0) == CLOSED
  {
    hide ToFixed, PnlOnClosing;
    WholeToFixed(0.0);
    ClosingAtEntry(10.0, 10.0);
  }

  lemma CloseStartsFrom(s: State)
    requires Holds(s, 10.0)
    ensures PositionBefore(NO_FEES, s, CloseOrder(2)) == Long(10.0) && InstrumentOf(NO_FEES, "BTC") == WHOLE_LOTS
    ensures PutPosition(s.positions, CLOSED) == [CLOSED]
  {
    assert FindPosition(s.positions, "BTC") == 0;
  }

  lemma CloseIsFree(s: State)
    ensures FillRecord(NO_FEES, s, CloseOrder(2), 10.0, 100.0, TAKER).fee == 0.0
  {
    hide NewQty, RealizedBy, PositionBefore, InstrumentOf;
    assert FeeRate(NO_FEES, TAKER) == 0.0;
  }

  lemma CloseIsFilled(s: State)
    requires Holds(s, 10.0) && |s.orders| == 3 && s.orders[2] == CloseOrder(2)
    ensures PositionAt(NO_FEES, s, 2, 100.0, TAKER) == CLOSED && PutPosition(s.positions, CLOSED) == [CLOSED]
  {
    hide FillPosition, NewQty, RealizedBy, FeeFor, PositionBefore, InstrumentOf, PutPosition, FillRecord;
    CloseStartsFrom(s);
    ClosingMoves();
    CloseIsFree(s);
  }

  /** The bracket sweep looks for stops and take-profits only. */
  lemma LimitsAreNotSwept(f: Fill, o: Order)
    requires o.typ == LIMIT
    ensures Swept(f, o) == o
  {
  }

  predicate Orphaned(s: State) {
    s.positions == [CLOSED] && |s.orders| == 3 && !s.orders[0].Live() && s.orders[1] == LimitOrder(1) && !s.orders[2].Live()
  }

  /** Closing the position leaves the limit order in the book. */
  lemma AfterClosing(st: State)
    requires Holds(st, 10.0) && st.nextId == 2 && |st.orders| == 2 && !st.orders[0].Live() && st.orders[1] == LimitOrder(1)
    ensures Orphaned(Step(NO_FEES, st, SELL_TEN))
  {
    CloseIsAccepted(st);
    hide Step;
    CloseFillOrphans(Place(AtTime(st, SELL_TEN.env), CloseOrder(2)));
  }

  lemma CloseFillOrphans(s: State)
    requires Holds(s, 10.0) && |s.orders| == 3
    requires !s.orders[0].Live() && s.orders[1] == LimitOrder(1) && s.orders[2] == CloseOrder(2)
    ensures Orphaned(FillOrder(NO_FEES, s, 2, Quoted(100.0), TAKER))
  {
    WholePrice(s.orders[2], 100.0);
    hide FillOrder, Swept, PositionAt, FillAt, ExecutionPrice;
    WholeFill(s, 2, 100.0, TAKER);
    CloseIsFilled(s);
    hide PutPosition;
    var f := FillAt(NO_FEES, s, 2, 100.0, TAKER);
    FinishedStaysFinished(f, s.orders[0]);
    LimitsAreNotSwept(f, s.orders[1]);
  }

  lemma LimitFires()
    ensures LimitMarketable(LimitOrder(1), Quoted(110.0))
    ensures ExecutionPrice(NO_FEES, LimitOrder(1), Quoted(110.0)) == Some(110.0)
  {
  }

  lemma LimitMatches(s: State)
    requires Orphaned(s)
    ensures MatchedFirst(NO_FEES, s, 3, "BTC", Quoted(110.0)) == FillOrder(NO_FEES, s, 1, Quoted(110.0), MAKER)
  {
    var m := Quoted(110.0);
    LimitFires();
    hide FillOrder, LimitMarketable, ExecutionPrice, PositionAt, FillAt, Swept;
    assert MatchedFirst(NO_FEES, s, 1, "BTC", m) == s;
    assert MatchedFirst(NO_FEES, s, 2, "BTC", m) == FillOrder(NO_FEES, s, 1, m, MAKER);
    WholeFill(s, 1, 110.0, MAKER);
    FinishedStaysFinished(FillAt(NO_FEES, s, 1, 110.0, MAKER), s.orders[2]);
  }

  lemma LimitOpens(s: State)
    requires Orphaned(s)
    ensures var r := FillOrder(NO_FEES, s, 1, Quoted(110.0), MAKER);
      |r.positions| == 1 && r.positions[0].maintenanceMarginRate == 0.0 && QtyOf(r.positions, "BTC") == -10.0
  {
    hide FillOrder, PositionAt, FillAt, ExecutionPrice, Swept, LimitMarketable;
    LimitFires();
    WholeFill(s, 1, 110.0, MAKER);
    ShortIsOpened(s);
  }

  lemma ShortIsOpened(s: State)
    requires Orphaned(s)
    ensures var p := PositionAt(NO_FEES, s, 1, 110.0, MAKER);
      p.qty == -10.0 && p.maintenanceMarginRate == 0.0 && PutPosition(s.positions, p) == [p] && QtyOf([p], "BTC") == -10.0
  {
    hide ToFixed;
    WholeToFixed(-10.0);
    assert FindPosition(s.positions, "BTC") == 0;
    var p := PositionAt(NO_FEES, s, 1, 110.0, MAKER);
    assert FindPosition([p], "BTC") == 0;
  }

  /** At 110 the limit order fires at its full size, with no position left to reduce. */
  lemma AfterRising(st: State)
    requires Orphaned(st)
    ensures QtyOf(st.positions, "BTC") == 0.0 && QtyOf(Step(NO_FEES, st, RISE).positions, "BTC") == -10.0
  {
    var env, u := RISE.env, RISE.update;
    var s, m := Ticked(st, env, u), TickMarket(st, env, u);
    assert m == Quoted(110.0) && Orphaned(s) by { hide MergedMarket; }
    assert FindPosition(st.positions, "BTC") == 0;
    TickIsMatching(NO_FEES, st, env, u);
    hide Ticked, TickMarket, CheckLiquidation, FillOrder, Step, MatchedFirst, Book;
    LimitMatches(s);
    LimitOpens(s);
    NothingToLiquidate(FillOrder(NO_FEES, s, 1, m, MAKER), Book(s, env));
  }

  /** Buy 10, offer them in a reduce-only limit order at 110, close the position at the market instead, and let
      the bid rise to 110: the reduce-only order opens a short of 10 from flat. */
  lemma OrphanedLimitOpens()
    ensures var evs := [BUY_TEN, LIMIT_TEN, SELL_TEN, RISE];
      && Feasible(NO_FEES, 0, evs)
      && QtyOf(After(NO_FEES, 0, evs[..3]).positions, "BTC") == 0.0
      && QtyOf(After(NO_FEES, 0, evs).positions, "BTC") == -10.0
  {
    hide Step;
    var one, two, three := [BUY_TEN], [BUY_TEN, LIMIT_TEN], [BUY_TEN, LIMIT_TEN, SELL_TEN];
    AfterAppend([], BUY_TEN);
    AfterAppend(one, LIMIT_TEN);
    AfterAppend(two, SELL_TEN);
    AfterAppend(three, RISE);
    assert [] + [BUY_TEN] == one && one + [LIMIT_TEN] == two && two + [SELL_TEN] == three;
    assert three + [RISE] == [BUY_TEN, LIMIT_TEN, SELL_TEN, RISE];
    assert [BUY_TEN, LIMIT_TEN, SELL_TEN, RISE][..3] == three;
    hide After, Feasible;
    AfterBuying();
    AfterResting(After(NO_FEES, 0, one));
    AfterClosing(After(NO_FEES, 0, two));
    AfterRising(After(NO_FEES, 0, three));
  }
}
