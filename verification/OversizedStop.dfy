/** A run on which a reduce-only stop outgrows its position and flips it. */
module OversizedStop {
  import opened Prelude
  import opened Decimal
  import opened BrokerTypes
  import opened PositionMath
  import opened BrokerSpec
  import opened BrokerInvariants
  import opened BrokerRuns
  import opened BrokerTheorems

  const WHOLE_LOTS := Instrument(1.0, 1.0, 0.0, 0.0, 0, 0, 0.0)

  const NO_FEES := Config(10000.0, 0.0, 0.0, 0.0, RiskLimits(10.0, 100000.0, 100000.0, 5000.0, 50, true, true, true, 5000),
                          map["BTC" := WHOLE_LOTS])

  function Quoted(price: real): Market {
    Market(Some(price), Some(price), Some(price), Some(price), None, 0, false)
  }

  function Quiet(price: real): Env {
    Env(map["BTC" := Quoted(price)], 0, 0)
  }

  function Command(side: Side, typ: OrderType, quantity: real, stop: Option<real>, reduceOnly: bool): OrderCommand {
    OrderCommand("BTC", side, typ, quantity, None, stop, None, reduceOnly, false, None)
  }

  const BUY_TEN := SubmitOrder(Quiet(100.0), Command(BUY, MARKET, 10.0, None, false))
  const STOP_TEN := SubmitOrder(Quiet(100.0), Command(SELL, STOP_MARKET, 10.0, Some(90.0), true))
  const SELL_SIX := SubmitOrder(Quiet(100.0), Command(SELL, MARKET, 6.0, None, true))
  const FALL := MarketTick(Quiet(80.0), MarketUpdate("BTC", None, None, None, Some(80.0), None))

  /** Long `qty` from 100. */
  function Long(qty: real): Position {
    Position("BTC", true, qty, 100.0, 5.0, 0.0, 0.0, 0.0, 0.0, Some(0))
  }

  predicate Holds(st: State, qty: real) {
    st.positions == [Long(qty)] && st.utcDay == 0 && st.clock == 0
  }

  function StopOrder(id: nat): Order {
    Order(id, "BTC", SELL, STOP_MARKET, GTC, NEW, 10.0, 0.0, None, Some(90.0), 0.0, 5.0, true, false, None)
  }

  lemma WholeToFixed(x: real)
    requires x == x.Floor as real
    ensures ToFixed(x, 0) == x
  {
    assert x * Pow10(0) == x;
    ToFixedFixesGrid(x, 0);
  }

  lemma WholeSteps(x: real)
    requires x == x.Floor as real
    ensures RoundStep(x, 1.0) == x && RoundTick(x, 1.0) == x
  {
    assert x / 1.0 == x;
    RoundFixesWhole(x);
  }

  /** Placed, screened, accepted and filled at once. */
  lemma FilledAtOnce(st: State, env: Env, cmd: OrderCommand, o: Order, m: Market)
    requires cmd.symbol == o.symbol == "BTC" && o == NewOrder(NO_FEES, st, cmd) && env == Quiet(100.0) && m == Quoted(100.0)
    requires st.utcDay == 0 && o.typ == MARKET
    requires RiskReason(NO_FEES, Place(st, o), env, o, m) == None
    ensures Submit(NO_FEES, st, env, cmd) == FillOrder(NO_FEES, Place(st, o), |st.orders|, m, TAKER)
  {
    hide NewOrder, RiskReason, FillOrder;
    assert Book(Place(st, o), env)["BTC"] == m;
  }

  /** Placed, screened, accepted and left to rest. */
  lemma Rested(st: State, env: Env, cmd: OrderCommand, o: Order, m: Market)
    requires cmd.symbol == o.symbol == "BTC" && o == NewOrder(NO_FEES, st, cmd) && env == Quiet(100.0) && m == Quoted(100.0)
    requires st.utcDay == 0 && RouteOf(o, m) == Rest
    requires RiskReason(NO_FEES, Place(st, o), env, o, m) == None
    ensures Submit(NO_FEES, st, env, cmd) == Place(st, o)
  {
    hide NewOrder, RiskReason, FillOrder, RouteOf;
    assert Book(Place(st, o), env)["BTC"] == m;
  }

  /** A whole order filled at its execution price. */
  lemma WholeFill(st: State, i: nat, price: real, liquidity: Liquidity)
    requires i < |st.orders| && price > 0.0 && Fillable(st.orders[i], price)
    requires ExecutionPrice(NO_FEES, st.orders[i], Quoted(price)) == Some(price)
    ensures var r := FillOrder(NO_FEES, st, i, Quoted(price), liquidity);
      && r.positions == PutPosition(st.positions, PositionAt(NO_FEES, st, i, price, liquidity))
      && |r.orders| == |st.orders| && !r.orders[i].Live()
      && (forall k :: 0 <= k < |st.orders| && k != i ==> r.orders[k] == Swept(FillAt(NO_FEES, st, i, price, liquidity), st.orders[k]))
      && r.nextId == st.nextId && r.utcDay == st.utcDay && r.clock == st.clock
  {
    var o := st.orders[i];
    hide ExecutionPrice, FillOrder, Filled, PositionAt, FillAt, Swept, AfterBracketSweep, PutPosition, SameTerms, Executed;
    ExecutedIsFinished(o, price);
    FillOrderIsFilled(NO_FEES, st, i, Quoted(price), liquidity);
    FilledOrdersAre(NO_FEES, st, i, price, liquidity);
    FilledMoneyIs(NO_FEES, st, i, price, liquidity);
    FilledKeepsClock(NO_FEES, st, i, price, liquidity);
  }

  lemma ExecutedIsFinished(o: Order, price: real)
    ensures !Executed(o, price).Live()
  {
  }

  /** A market order or a stop executes at the quote, without slippage. */
  lemma WholePrice(o: Order, price: real)
    requires (price == 100.0 || price == 80.0) && (o.typ == MARKET || o.IsStop())
    ensures ExecutionPrice(NO_FEES, o, Quoted(price)) == Some(price)
  {
    assert NO_FEES.marketSlippageBps / 10000.0 == 0.0;
    if price == 100.0 {
      assert ExecutionPrice(NO_FEES, o, Quoted(price)) == Some(100.0);
    } else {
      assert ExecutionPrice(NO_FEES, o, Quoted(price)) == Some(80.0);
    }
  }

  lemma FilledKeepsClock(cfg: Config, st: State, i: nat, price: real, liquidity: Liquidity)
    requires i < |st.orders|
    ensures var r := Filled(cfg, st, i, price, liquidity); r.utcDay == st.utcDay && r.clock == st.clock
  {
    hide PositionAfter, FillRecord, AverageWith;
  }

  lemma BuyIsAdmitted(st: State, o: Order)
    requires st.positions == [] && st.wallet == 10000.0 && st.dayStartEquity == 10000.0 && LiveCount(st.orders) == 1
    requires o == TenOrder(0)
    ensures RiskReason(NO_FEES, st, Quiet(100.0), o, Quoted(100.0)) == None
  {
    assert FindPosition([], "BTC") == 0;
    assert Equity(st, Book(st, Quiet(100.0))) == 10000.0;
    assert AvailableBalance(st, Book(st, Quiet(100.0))) == 10000.0;
    assert RequiredBalance(NO_FEES, o, 100.0) == 200.0;
  }

  /** Buying 10 at 100 from a fresh account. */
  lemma AfterBuying()
    ensures var st := Step(NO_FEES, Fresh(NO_FEES, 0), BUY_TEN);
      Holds(st, 10.0) && |st.orders| == 1 && !st.orders[0].Live() && st.nextId == 1
  {
    var empty := AtTime(Fresh(NO_FEES, 0), BUY_TEN.env);
    var s := Place(empty, TenOrder(0));
    hide RiskReason, FillOrder, Submit, NewOrder, PositionAt, FillAt, Swept;
    TenIsOrdered(empty);
    assert LiveCount(s.orders) == 1 by { assert s.orders[..0] == []; }
    BuyIsAdmitted(s, TenOrder(0));
    FilledAtOnce(empty, BUY_TEN.env, BUY_TEN.cmd, TenOrder(0), Quoted(100.0));
    WholePrice(s.orders[0], 100.0);
    WholeFill(s, 0, 100.0, TAKER);
    TenIsFilled(s);
  }

  function TenOrder(id: nat): Order {
    Order(id, "BTC", BUY, MARKET, GTC, NEW, 10.0, 0.0, None, None, 0.0, 5.0, false, false, None)
  }

  lemma TenIsOrdered(st: State)
    requires st.positions == []
    ensures NewOrder(NO_FEES, st, BUY_TEN.cmd) == TenOrder(st.nextId)
  {
    hide RoundStep, RoundTick;
    WholeSteps(10.0);
  }

  lemma TenIsFilled(s: State)
    requires s.positions == [] && s.clock == 0 && |s.orders| == 1 && s.orders[0] == TenOrder(0)
    ensures PositionAt(NO_FEES, s, 0, 100.0, TAKER) == Long(10.0) && PutPosition(s.positions, Long(10.0)) == [Long(10.0)]
  {
    hide ToFixed;
    WholeToFixed(10.0);
    assert FindPosition([], "BTC") == 0;
  }

  /** The stop's order does not trigger at 100, so it rests. */
  lemma AfterResting(st: State)
    requires Holds(st, 10.0) && |st.orders| == 1 && !st.orders[0].Live() && st.nextId == 1
    ensures var r := Step(NO_FEES, st, STOP_TEN);
      Holds(r, 10.0) && r.nextId == 2 && |r.orders| == 2 && !r.orders[0].Live() && r.orders[1] == StopOrder(1)
  {
    var t := AtTime(st, STOP_TEN.env);
    hide ToFixed, RoundStep, RoundTick, RiskReason, Submit, FillOrder;
    assert StopOrder(1) == NewOrder(NO_FEES, t, STOP_TEN.cmd) by {
      WholeSteps(10.0);
      WholeSteps(90.0);
      assert FindPosition(t.positions, "BTC") == 0;
    }
    hide NewOrder;
    ReductionIsAdmitted(Place(t, StopOrder(1)), STOP_TEN.env, StopOrder(1), Quoted(100.0));
    Rested(t, STOP_TEN.env, STOP_TEN.cmd, StopOrder(1), Quoted(100.0));
  }

  /** A reduce-only sell no larger than the long position passes every check. */
  lemma ReductionIsAdmitted(st: State, env: Env, o: Order, m: Market)
    requires Holds(st, 10.0) && o.symbol == "BTC" && o.side == SELL && o.reduceOnly && 0.0 < o.quantity <= 10.0
    requires o.leverage == 5.0 && m == Quoted(100.0)
    requires match o.typ
      case MARKET => true
      case STOP_MARKET => o.stopPrice == Some(90.0)
      case LIMIT => o.limitPrice == Some(110.0)
      case _ => false
    ensures RiskReason(NO_FEES, st, env, o, m) == None
  {
    hide Equity, AvailableBalance, RequiredBalance, LiveCount;
    assert FindPosition(st.positions, "BTC") == 0;
  }

  /** Selling 6 reduces the position to 4 and leaves the stop as it was. */
  lemma AfterReducing(st: State)
    requires Holds(st, 10.0) && st.nextId == 2 && |st.orders| == 2 && !st.orders[0].Live() && st.orders[1] == StopOrder(1)
    ensures var r := Step(NO_FEES, st, SELL_SIX);
      Holds(r, 4.0) && |r.orders| == 3 && !r.orders[0].Live() && r.orders[1] == StopOrder(1) && !r.orders[2].Live()
  {
    var s := Place(AtTime(st, SELL_SIX.env), SixOrder(2));
    hide FillOrder, Swept, PositionAt, FillAt, Step;
    SixIsAccepted(st);
    WholePrice(s.orders[2], 100.0);
    WholeFill(s, 2, 100.0, TAKER);
    SixIsFilled(s);
    hide PutPosition;
    var f := FillAt(NO_FEES, s, 2, 100.0, TAKER);
    assert s.orders[0] == st.orders[0] && s.orders[1] == st.orders[1];
    NotSwept(f, s.orders[0]);
    NotSwept(f, s.orders[1]);
  }

  lemma SixIsAccepted(st: State)
    requires Holds(st, 10.0) && st.nextId == 2 && |st.orders| == 2
    ensures Step(NO_FEES, st, SELL_SIX) == FillOrder(NO_FEES, Place(AtTime(st, SELL_SIX.env), SixOrder(2)), 2, Quoted(100.0), TAKER)
  {
    var t := AtTime(st, SELL_SIX.env);
    hide RiskReason, FillOrder, Submit, NewOrder;
    SixIsOrdered(t);
    ReductionIsAdmitted(Place(t, SixOrder(2)), SELL_SIX.env, SixOrder(2), Quoted(100.0));
    FilledAtOnce(t, SELL_SIX.env, SELL_SIX.cmd, SixOrder(2), Quoted(100.0));
  }

  function SixOrder(id: nat): Order {
    Order(id, "BTC", SELL, MARKET, GTC, NEW, 6.0, 0.0, None, None, 0.0, 5.0, true, false, None)
  }

  lemma SixIsOrdered(st: State)
    requires Holds(st, 10.0)
    ensures NewOrder(NO_FEES, st, SELL_SIX.cmd) == SixOrder(st.nextId)
  {
    hide RoundStep, RoundTick;
    WholeSteps(6.0);
    assert FindPosition(st.positions, "BTC") == 0;
  }

  lemma SixLeavesFour()
    ensures NewQty(10.0, SELL, 6.0, WHOLE_LOTS) == 4.0
  {
    hide ToFixed;
    WholeToFixed(4.0);
  }

  lemma SixIsFree()
    ensures FeeFor(NO_FEES, 6.0, 100.0, TAKER) == 0.0
  {
    assert FeeRate(NO_FEES, TAKER) == 0.0;
  }

  lemma ClosingAtEntry(qty: real, closed: real)
    ensures PnlOnClosing(Long(qty), closed, 100.0) == 0.0
  {
    assert closed * (100.0 - 100.0) == 0.0;
  }

  lemma SixRealizesNothing()
    ensures KindOf(10.0, 4.0) == REDUCE && RealizedBy(Long(10.0), 4.0, 100.0) == 0.0
  {
    hide PnlOnClosing;
    ClosingAtEntry(10.0, Abs(10.0) - Abs(4.0));
  }

  lemma SixReduces()
    ensures NewQty(10.0, SELL, 6.0, WHOLE_LOTS) == 4.0 && FeeFor(NO_FEES, 6.0, 100.0, TAKER) == 0.0
    ensures KindOf(10.0, 4.0) == REDUCE && RealizedBy(Long(10.0), 4.0, 100.0) == 0.0
  {
    hide NewQty, FeeFor, KindOf, RealizedBy;
    SixLeavesFour();
    SixIsFree();
    SixRealizesNothing();
  }

  lemma SixMoves()
    ensures FillPosition(Long(10.0), SELL, 6.0, 100.0, 5.0, WHOLE_LOTS, 0) == Long(4.0)
  {
    hide NewQty, AveragedEntry, RealizedBy, KindOf;
    SixReduces();
  }

  lemma SixStartsFrom(s: State)
    requires Holds(s, 10.0)
    ensures PositionBefore(NO_FEES, s, SixOrder(2)) == Long(10.0) && InstrumentOf(NO_FEES, "BTC") == WHOLE_LOTS
    ensures PutPosition(s.positions, Long(4.0)) == [Long(4.0)]
  {
    assert FindPosition(s.positions, "BTC") == 0;
  }

  lemma SixRecord(s: State)
    requires Holds(s, 10.0)
    ensures var f := FillRecord(NO_FEES, s, SixOrder(2), 6.0, 100.0, TAKER);
      f.fee == 0.0 && KindOf(f.positionQtyBefore, f.positionQtyAfter) == REDUCE
  {
    hide NewQty, FeeFor, KindOf, RealizedBy, PositionBefore, InstrumentOf;
    SixStartsFrom(s);
    SixReduces();
  }

  lemma SixIsFilled(s: State)
    requires Holds(s, 10.0) && |s.orders| == 3 && s.orders[2] == SixOrder(2)
    ensures PositionAt(NO_FEES, s, 2, 100.0, TAKER) == Long(4.0) && PutPosition(s.positions, Long(4.0)) == [Long(4.0)]
    ensures var f := FillAt(NO_FEES, s, 2, 100.0, TAKER); KindOf(f.positionQtyBefore, f.positionQtyAfter) == REDUCE
  {
    hide NewQty, FeeFor, KindOf, RealizedBy, PositionBefore, InstrumentOf, FillPosition, PutPosition, FillRecord;
    SixStartsFrom(s);
    SixMoves();
    SixRecord(s);
  }

  lemma NotSwept(f: Fill, o: Order)
    requires KindOf(f.positionQtyBefore, f.positionQtyAfter) == REDUCE
    ensures Swept(f, o) == o
  {
  }

  /** At 80 the stop fires at its full size and the matching loop ends 6 short. */
  lemma AfterFalling(st: State)
    requires Holds(st, 4.0) && |st.orders| == 3 && !st.orders[0].Live() && st.orders[1] == StopOrder(1) && !st.orders[2].Live()
    ensures QtyOf(Step(NO_FEES, st, FALL).positions, "BTC") == -6.0
  {
    var env, u := FALL.env, FALL.update;
    var s, m := Ticked(st, env, u), TickMarket(st, env, u);
    assert m == Quoted(80.0) && Holds(s, 4.0) && s.orders == st.orders by { hide MergedMarket; }
    TickIsMatching(NO_FEES, st, env, u);
    hide Ticked, TickMarket, CheckLiquidation, FillOrder, Step, MatchedFirst, Book;
    StopMatches(s);
    StopFlips(s);
    NothingToLiquidate(FillOrder(NO_FEES, s, 1, m, TAKER), Book(s, env));
  }

  lemma StopMatches(s: State)
    requires Holds(s, 4.0) && |s.orders| == 3 && !s.orders[0].Live() && s.orders[1] == StopOrder(1) && !s.orders[2].Live()
    ensures MatchedFirst(NO_FEES, s, 3, "BTC", Quoted(80.0)) == FillOrder(NO_FEES, s, 1, Quoted(80.0), TAKER)
  {
    hide FillOrder, LimitMarketable, PositionAt, FillAt, Swept;
    var m := Quoted(80.0);
    assert MatchedFirst(NO_FEES, s, 1, "BTC", m) == s;
    assert MatchedFirst(NO_FEES, s, 2, "BTC", m) == FillOrder(NO_FEES, s, 1, m, TAKER);
    WholePrice(s.orders[1], 80.0);
    WholeFill(s, 1, 80.0, TAKER);
    var two := FillOrder(NO_FEES, s, 1, m, TAKER);
    assert !two.orders[2].Live() by { FinishedStaysFinished(FillAt(NO_FEES, s, 1, 80.0, TAKER), s.orders[2]); }
  }

  lemma FinishedStaysFinished(f: Fill, o: Order)
    requires !o.Live()
    ensures !Swept(f, o).Live()
  {
  }

  lemma StopFlips(s: State)
    requires Holds(s, 4.0) && |s.orders| == 3 && s.orders[1] == StopOrder(1)
    ensures var r := FillOrder(NO_FEES, s, 1, Quoted(80.0), TAKER);
      |r.positions| == 1 && r.positions[0].maintenanceMarginRate == 0.0 && QtyOf(r.positions, "BTC") == -6.0
  {
    WholePrice(s.orders[1], 80.0);
    hide FillOrder, PositionAt, FillAt, ExecutionPrice, Swept;
    WholeFill(s, 1, 80.0, TAKER);
    ShortIsOpened(s);
  }

  lemma ShortIsOpened(s: State)
    requires Holds(s, 4.0) && |s.orders| == 3 && s.orders[1] == StopOrder(1)
    ensures var p := PositionAt(NO_FEES, s, 1, 80.0, TAKER); p.symbol == "BTC" && p.qty == -6.0 && p.maintenanceMarginRate == 0.0
    ensures var p := PositionAt(NO_FEES, s, 1, 80.0, TAKER);
      PutPosition(s.positions, p) == [p] && QtyOf([p], "BTC") == -6.0
  {
    hide ToFixed;
    WholeToFixed(-6.0);
    assert FindPosition(s.positions, "BTC") == 0;
    var p := PositionAt(NO_FEES, s, 1, 80.0, TAKER);
    assert FindPosition([p], "BTC") == 0;
  }

  lemma NothingToLiquidate(st: State, book: map<Symbol, Market>)
    requires |st.positions| == 1 && st.positions[0].maintenanceMarginRate == 0.0
    ensures CheckLiquidation(NO_FEES, st, book) == st
  {
    assert st.positions[..0] == [];
    assert SumOf(MaintenanceMargin(book), st.positions) == MaintenanceMargin(book)(st.positions[0]);
  }

  /** Buy 10, protect it with a reduce-only stop for 10, reduce by 6, and let the price fall through the stop:
      the reduce-only stop for 10 closes the remaining 4 and opens 6 on the other side. */
  lemma OversizedStopFlips()
    ensures var evs := [BUY_TEN, STOP_TEN, SELL_SIX, FALL];
      && Feasible(NO_FEES, 0, evs) && StepsFit(NO_FEES)
      && QtyOf(After(NO_FEES, 0, evs[..3]).positions, "BTC") == 4.0
      && QtyOf(After(NO_FEES, 0, evs).positions, "BTC") == -6.0
  {
    hide Step;
    var one, two, three := [BUY_TEN], [BUY_TEN, STOP_TEN], [BUY_TEN, STOP_TEN, SELL_SIX];
    AfterAppend([], BUY_TEN);
    AfterAppend(one, STOP_TEN);
    AfterAppend(two, SELL_SIX);
    AfterAppend(three, FALL);
    assert [] + [BUY_TEN] == one && one + [STOP_TEN] == two && two + [SELL_SIX] == three;
    assert three + [FALL] == [BUY_TEN, STOP_TEN, SELL_SIX, FALL];
    assert [BUY_TEN, STOP_TEN, SELL_SIX, FALL][..3] == three;
    hide After, Feasible;
    AfterBuying();
    AfterResting(After(NO_FEES, 0, one));
    AfterReducing(After(NO_FEES, 0, two));
    AfterFalling(After(NO_FEES, 0, three));
    assert 1.0 * Pow10(0) == 1.0;
  }

  lemma AfterAppend(evs: seq<Event>, ev: Event)
    requires !ev.Restart?
    ensures After(NO_FEES, 0, evs + [ev]) == Step(NO_FEES, After(NO_FEES, 0, evs), ev)
    ensures Feasible(NO_FEES, 0, evs) ==> Feasible(NO_FEES, 0, evs + [ev])
    ensures After(NO_FEES, 0, []) == Fresh(NO_FEES, 0) && Feasible(NO_FEES, 0, [])
  {
    assert (evs + [ev])[..|evs|] == evs;
  }
}
