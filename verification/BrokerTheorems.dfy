/** The promises of the broker, stated for every feasible run of it. */
module BrokerTheorems {
  import opened Prelude
  import opened Decimal
  import opened BrokerTypes
  import opened PositionMath
  import opened BrokerSpec
  import opened BrokerInvariants
  import opened BrokerRuns

  // ----- the ledger -----

  /** Money put in from outside, read off the events alone. */
  function Deposits(cfg: Config, evs: seq<Event>): real {
    if evs == [] then cfg.startingUsdt
    else
      var before := Deposits(cfg, evs[..|evs| - 1]);
      match evs[|evs| - 1]
      case Adjust(delta) => before + delta
      case Reset(start, env) => ResetBalance(start)
      case Restart(load, env) => cfg.startingUsdt
      case _ => before
  }

  /** No restart since the account was last empty. */
  predicate Unbroken(evs: seq<Event>) {
    evs == [] || evs[|evs| - 1].Reset? || (!evs[|evs| - 1].Restart? && Unbroken(evs[..|evs| - 1]))
  }

  lemma {:induction false} BooksFollowDeposits(cfg: Config, utcDay: int, evs: seq<Event>)
    ensures BooksAfter(cfg, utcDay, evs).base == Deposits(cfg, evs)
    ensures Unbroken(evs) ==> BooksAfter(cfg, utcDay, evs) == EmptyBooks(cfg, Deposits(cfg, evs))
  {
    hide After, StepsFit, SumOf, Healed;
    if evs != [] {
      BooksFollowDeposits(cfg, utcDay, evs[..|evs| - 1]);
    }
  }

  /** Conservation: the wallet is the deposits plus realized PnL less fees and funding, and those totals
      are the sums over the recorded fills and funding payments. */
  lemma LedgerConservation(cfg: Config, utcDay: int, evs: seq<Event>)
    requires Feasible(cfg, utcDay, evs)
    ensures var st := After(cfg, utcDay, evs);
      && st.wallet == Deposits(cfg, evs) + st.totalRealizedPnl - st.totalFees - st.totalFunding
      && st.totalRealizedPnl == SumOf(RealizedOf, st.fills)
      && st.totalFees == SumOf(FeeOf, st.fills)
      && st.totalFunding == SumOf(PaymentOf, st.db.funding)
  {
    hide After, Feasible, OrdersOk, IdsOk, KnownSymbols, BracketsOk, PositionsOk, OrderRowsOk, PositionRowsOk, LogOk, Deposits;
    RunsAreGood(cfg, utcDay, evs);
    BooksFollowDeposits(cfg, utcDay, evs);
  }

  /** While no restart has dropped closed positions, the totals are also the sums of the positions' own. */
  lemma SubledgersAddUp(cfg: Config, utcDay: int, evs: seq<Event>)
    requires Feasible(cfg, utcDay, evs) && Unbroken(evs)
    ensures var st := After(cfg, utcDay, evs);
      && st.totalRealizedPnl == SumOf(PosRealized, st.positions)
      && st.totalFees == SumOf(PosFees, st.positions)
      && st.totalFunding == SumOf(PosFunding, st.positions)
  {
    hide After, Feasible, OrdersOk, IdsOk, KnownSymbols, BracketsOk, PositionsOk, OrderRowsOk, PositionRowsOk, LogOk,
      Deposits, Unbroken, StepsFit;
    RunsAreGood(cfg, utcDay, evs);
    BooksFollowDeposits(cfg, utcDay, evs);
  }

  // ----- brackets -----

  /** No reduce-only stop or take-profit is ever live without an open position on the other side. */
  lemma BracketsAlwaysProtect(cfg: Config, utcDay: int, evs: seq<Event>, i: nat)
    requires Feasible(cfg, utcDay, evs) && i < |After(cfg, utcDay, evs).orders|
    ensures var st := After(cfg, utcDay, evs);
      var o := st.orders[i];
      o.Live() && o.reduceOnly && o.IsStop() ==>
        if o.side == SELL then QtyOf(st.positions, o.symbol) > 0.0 else QtyOf(st.positions, o.symbol) < 0.0
  {
    hide After, Feasible, OrdersOk, IdsOk, KnownSymbols, PositionsOk, OrderRowsOk, PositionRowsOk, LogOk, LedgerOk, QtyOf;
    RunsAreGood(cfg, utcDay, evs);
  }

  /** Every order and position is on a configured instrument, so the applyPositionFill throw is unreachable. */
  lemma OnlyKnownSymbols(cfg: Config, utcDay: int, evs: seq<Event>)
    requires Feasible(cfg, utcDay, evs)
    ensures KnownSymbols(cfg, After(cfg, utcDay, evs).orders, After(cfg, utcDay, evs).positions)
  {
    hide After, Feasible, OrdersOk, IdsOk, KnownSymbols, PositionsOk, OrderRowsOk, PositionRowsOk, LogOk, LedgerOk, BracketsOk;
    RunsAreGood(cfg, utcDay, evs);
  }

  // ----- order lifecycle -----

  /** At every step boundary an order is FILLED exactly when one fill executed its whole quantity at its
      average price; otherwise it has no fill. Limit orders fill no worse than their limit. */
  lemma FilledMeansOneWholeFill(cfg: Config, utcDay: int, evs: seq<Event>, i: nat)
    requires Feasible(cfg, utcDay, evs) && i < |After(cfg, utcDay, evs).orders|
    ensures var st := After(cfg, utcDay, evs);
      var o, fs := st.orders[i], FillsOf(st.fills, st.orders[i].id);
      && (o.status == FILLED <==> |fs| == 1) && (o.status != FILLED <==> fs == [])
      && (o.status == FILLED ==> Executes(fs[0], o) && NoWorseThanLimit(o))
      && o.status in {NEW, FILLED, CANCELED, REJECTED}
  {
    hide After, Feasible, IdsOk, KnownSymbols, PositionsOk, OrderRowsOk, PositionRowsOk, LogOk, LedgerOk, BracketsOk,
      Executes, NoWorseThanLimit, FillsOf;
    RunsAreGood(cfg, utcDay, evs);
    assert OrderOk(After(cfg, utcDay, evs).orders[i], After(cfg, utcDay, evs).fills);
  }

  /** FILLED, CANCELED and REJECTED are absorbing: a finished order's record never changes again,
      through any later fills, resets and restarts. */
  lemma {:induction false} FinishedOrdersStay(cfg: Config, utcDay: int, evs: seq<Event>, n: nat, id: nat)
    requires Feasible(cfg, utcDay, evs) && n <= |evs|
    requires var rows := After(cfg, utcDay, evs[..n]).db.orders; id in rows && !rows[id].Live()
    ensures var before, now := After(cfg, utcDay, evs[..n]).db.orders, After(cfg, utcDay, evs).db.orders;
      id in now && now[id] == before[id]
    decreases |evs|
  {
    if n == |evs| {
      assert evs[..n] == evs;
    } else {
      var m := |evs| - 1;
      assert evs[..m][..n] == evs[..n];
      FinishedOrdersStay(cfg, utcDay, evs[..m], n, id);
      RunsAreGood(cfg, utcDay, evs[..m]);
      hide Good, Step, Enabled, BooksAfter, NextBooks;
      StepKeepsGood(cfg, After(cfg, utcDay, evs[..m]), BooksAfter(cfg, utcDay, evs[..m]), evs[m]);
    }
  }

  /** The orders table and the book agree, so the statement above is about the book's orders too. */
  lemma BookIsSaved(cfg: Config, utcDay: int, evs: seq<Event>, i: nat)
    requires Feasible(cfg, utcDay, evs) && i < |After(cfg, utcDay, evs).orders|
    ensures var st := After(cfg, utcDay, evs);
      st.orders[i].id in st.db.orders && st.db.orders[st.orders[i].id] == st.orders[i]
  {
    hide After, Feasible, OrdersOk, IdsOk, KnownSymbols, PositionsOk, PositionRowsOk, LogOk, LedgerOk, BracketsOk;
    RunsAreGood(cfg, utcDay, evs);
  }

  // ----- restart -----

  /** Restarting from the tables at any step boundary reproduces fees, funding and realized PnL, and the
      wallet exactly when the deposits are the configured starting balance. */
  lemma RestartRefinesLedger(cfg: Config, utcDay: int, evs: seq<Event>, load: Load, env: Env)
    requires Feasible(cfg, utcDay, evs) && IsLoad(After(cfg, utcDay, evs).db, load)
    ensures var st := After(cfg, utcDay, evs);
      var r := Step(cfg, st, Restart(load, env));
      && r.totalFees == st.totalFees && r.totalFunding == st.totalFunding
      && r.totalRealizedPnl == st.totalRealizedPnl
      && (r.wallet == st.wallet <==> Deposits(cfg, evs) == cfg.startingUsdt)
  {
    var st := After(cfg, utcDay, evs);
    hide After, Feasible, OrdersOk, IdsOk, KnownSymbols, PositionsOk, OrderRowsOk, PositionRowsOk, LogOk, BracketsOk,
      Deposits, Healed, IsLoad, SumOf;
    RunsAreGood(cfg, utcDay, evs);
    BooksFollowDeposits(cfg, utcDay, evs);
    RestartTotals(cfg, st, BooksAfter(cfg, utcDay, evs), load);
  }

  /** Restarting brings back every open position with its quantity, its entry price within half a
      price unit, and everything else unchanged. */
  lemma RestartRefinesPositions(cfg: Config, utcDay: int, evs: seq<Event>, load: Load, env: Env, s: Symbol)
    requires Feasible(cfg, utcDay, evs) && IsLoad(After(cfg, utcDay, evs).db, load)
    ensures var st := After(cfg, utcDay, evs);
      var r := Step(cfg, st, Restart(load, env));
      var j, k := FindPosition(r.positions, s), FindPosition(st.positions, s);
      && QtyOf(r.positions, s) == QtyOf(st.positions, s)
      && (QtyOf(st.positions, s) != 0.0 ==>
           && j < |r.positions| && k < |st.positions|
           && r.positions[j] == st.positions[k].(entryPrice := r.positions[j].entryPrice)
           && Abs(r.positions[j].entryPrice - st.positions[k].entryPrice) <= HalfUnit(InstrumentOf(cfg, s).pricePrecision))
  {
    var st := After(cfg, utcDay, evs);
    hide After, Feasible, OrdersOk, IdsOk, KnownSymbols, PositionsOk, OrderRowsOk, PositionRowsOk, LogOk, BracketsOk,
      LedgerOk, Healed, IsLoad, SumOf, ToFixed, HalfUnit, InstrumentOf;
    RunsAreGood(cfg, utcDay, evs);
    ReloadedPosition(cfg, st, load, s);
    var k := FindPosition(st.positions, s);
    if k < |st.positions| {
      ToFixedError(st.positions[k].entryPrice, InstrumentOf(cfg, s).pricePrecision);
    }
  }

  /** Restarting brings back exactly the live orders. */
  lemma RestartRefinesBook(cfg: Config, utcDay: int, evs: seq<Event>, load: Load, env: Env, o: Order)
    requires Feasible(cfg, utcDay, evs) && IsLoad(After(cfg, utcDay, evs).db, load)
    ensures var st := After(cfg, utcDay, evs);
      o in Step(cfg, st, Restart(load, env)).orders <==> o in st.orders && o.Live()
  {
    var st := After(cfg, utcDay, evs);
    hide After, Feasible, OrdersOk, KnownSymbols, PositionsOk, PositionRowsOk, LogOk, BracketsOk, LedgerOk, Healed, SumOf;
    RunsAreGood(cfg, utcDay, evs);
    if o in st.orders && o.Live() {
      var k :| 0 <= k < |st.orders| && st.orders[k] == o;
      assert st.db.orders[o.id] == o;
    }
  }

  /** resetAccount() without an argument credits 10000, whatever the configuration says; the next restart
      takes that back. With a configured start of 1000 the wallet drops from 10000 to 1000. */
  lemma DefaultResetIsUndoneByRestart(cfg: Config, utcDay: int, env: Env)
    requires cfg.startingUsdt == 1000.0
    ensures var st := After(cfg, utcDay, [Reset(None, env)]);
      var load := Load([], [], [], []);
      st.wallet == 10000.0 && IsLoad(st.db, load) && Step(cfg, st, Restart(load, env)).wallet == 1000.0
  {
    var evs := [Reset(None, env)];
    assert evs[..|evs| - 1] == [] && evs[|evs| - 1] == Reset(None, env);
    var st := After(cfg, utcDay, evs);
    assert After(cfg, utcDay, evs[..|evs| - 1]) == Fresh(cfg, utcDay);
    assert st == Step(cfg, Fresh(cfg, utcDay), Reset(None, env));
    assert st.db == EMPTY_DB;
  }

  // ----- reduce-only orders -----

  /** Reducing a position by at most its size neither crosses zero nor grows it. */
  lemma ReduceStaysBetween(q: real, side: Side, quantity: real, ins: Instrument)
    requires OnGrid(q, ins.quantityPrecision) && 0.0 < quantity <= Abs(q)
    requires if side == SELL then q > 0.0 else q < 0.0
    ensures var n := NewQty(q, side, quantity, ins);
      if q > 0.0 then 0.0 <= n <= q else q <= n <= 0.0
  {
    hide OnGrid, ToFixed;
    ToFixedBetween(q + SignedQty(side, quantity), q, ins.quantityPrecision);
  }

  predicate TowardZero(before: real, after: real) {
    if before > 0.0 then 0.0 <= after <= before
    else if before < 0.0 then before <= after <= 0.0
    else after == 0.0
  }

  /** fillOrder on a reduce-only order no larger than its position moves it toward zero, never across. */
  lemma ReducingFillTowardZero(cfg: Config, st: State, i: nat, m: Market, liquidity: Liquidity, s: Symbol)
    requires i < |st.orders| && PositionsOk(cfg, st.positions)
    requires var o := st.orders[i];
      0.0 < o.quantity <= Abs(QtyOf(st.positions, o.symbol)) && o.filledQty == 0.0 && Guards(o, QtyOf(st.positions, o.symbol))
    ensures var q, q' := QtyOf(st.positions, s), QtyOf(FillOrder(cfg, st, i, m, liquidity).positions, s);
      TowardZero(q, q') && (s != st.orders[i].symbol ==> q' == q)
  {
    var o, price := st.orders[i], ExecutionPrice(cfg, st.orders[i], m);
    if price.Some? && price.value > 0.0 {
      var k := FindPosition(st.positions, o.symbol);
      assert PositionOk(cfg, st.positions[k]);
      var q, p := st.positions[k].qty, PositionAt(cfg, st, i, price.value, liquidity);
      hide FillOrder, Filled, ExecutionPrice, FillPosition, NewQty, OnGrid, InstrumentOf, PutPosition, FeeRate;
      FillOrderIsFilled(cfg, st, i, m, liquidity);
      FilledMoneyIs(cfg, st, i, price.value, liquidity);
      PositionAtIs(cfg, st, i, price.value, liquidity);
      ReduceStaysBetween(q, o.side, o.quantity, InstrumentOf(cfg, o.symbol));
      assert p.qty == NewQty(q, o.side, o.quantity, InstrumentOf(cfg, o.symbol));
      PutPositionQty(st.positions, p, s);
    }
  }

  lemma ClampFits(cmd: OrderCommand, openQty: real, ins: Instrument)
    requires cmd.reduceOnly
    ensures ClampedQuantity(cmd, openQty, ins) <= Abs(openQty)
  {
    hide RoundStep;
    RoundStepBelow(Abs(openQty), ins.stepSize);
  }

  lemma AcceptedReduceOnly(cfg: Config, st: State, env: Env, o: Order, m: Market, s: Symbol)
    requires PositionsOk(cfg, st.positions) && o.reduceOnly && o.filledQty == 0.0
    requires o.quantity <= Abs(QtyOf(st.positions, o.symbol))
    requires RiskReason(cfg, RollDay(Place(st, o), env), env, o, m).None?
    ensures var q, q' := QtyOf(st.positions, s),
        QtyOf(Follow(cfg, RollDay(Place(st, o), env), |st.orders|, m, RouteOf(o, m)).positions, s);
      TowardZero(q, q') && (s != o.symbol ==> q' == q)
  {
    var sr := RollDay(Place(st, o), env);
    hide PositionsOk, QtyOf, RiskReason, FillOrder, RouteOf, Equity, Guards;
    RiskAdmitsOnlyGuards(cfg, sr, env, o, m);
    ReducingFillTowardZero(cfg, sr, |st.orders|, m, TAKER, s);
  }

  lemma SubmittedReduceOnly(cfg: Config, st: State, env: Env, cmd: OrderCommand, s: Symbol)
    requires PositionsOk(cfg, st.positions) && cmd.reduceOnly
    ensures var q, q' := QtyOf(st.positions, s), QtyOf(Submit(cfg, st, env, cmd).positions, s);
      TowardZero(q, q') && (s != cmd.symbol ==> q' == q)
  {
    if cmd.symbol in cfg.instruments {
      var o, book := NewOrder(cfg, st, cmd), Book(st, env);
      hide PositionsOk, QtyOf, ClampedQuantity, RoundedPrice, RiskReason, Follow, RouteOf, Equity, InstrumentOf;
      ClampFits(cmd, QtyOf(st.positions, cmd.symbol), InstrumentOf(cfg, cmd.symbol));
      if o.symbol in book && !Stale(cfg, env, book[o.symbol]) {
        var m := book[o.symbol];
        if RiskReason(cfg, RollDay(Place(st, o), env), env, o, m).None? {
          AcceptedReduceOnly(cfg, st, env, o, m, s);
        }
      }
    }
  }

  /** However large the order and whatever the market, submitting a reduce-only order moves the position
      toward zero without crossing it, and touches no other symbol. */
  lemma ReduceOnlyNeverCrosses(cfg: Config, utcDay: int, evs: seq<Event>, env: Env, cmd: OrderCommand, s: Symbol)
    requires Feasible(cfg, utcDay, evs) && cmd.reduceOnly
    ensures var st := After(cfg, utcDay, evs);
      var q, q' := QtyOf(st.positions, s), QtyOf(Step(cfg, st, SubmitOrder(env, cmd)).positions, s);
      TowardZero(q, q') && (s != cmd.symbol ==> q' == q)
  {
    hide After, Feasible, OrdersOk, IdsOk, KnownSymbols, PositionsOk, OrderRowsOk, PositionRowsOk, LogOk, BracketsOk,
      LedgerOk, QtyOf, Submit;
    RunsAreGood(cfg, utcDay, evs);
    SubmittedReduceOnly(cfg, AtTime(After(cfg, utcDay, evs), env), env, cmd, s);
  }

  // ----- resting reduce-only orders -----

  /** How much of an order of this side and quantity is more than a position of q can give up: all of it, unless
      the position is on the other side. */
  function Excess(o: Order, q: real): real {
    if Guards(o, q) then o.quantity - Abs(q) else o.quantity
  }

  /** A fill crosses zero, or grows the position, exactly when its excess does not vanish in rounding. */
  lemma ReductionCrossesIff(o: Order, q: real, ins: Instrument)
    requires OnGrid(q, ins.quantityPrecision) && o.quantity > 0.0
    ensures !TowardZero(q, NewQty(q, o.side, o.quantity, ins)) <==> Excess(o, q) >= HalfUnit(ins.quantityPrecision)
  {
    var n, d := ins.quantityPrecision, o.quantity;
    hide ToFixed, OnGrid, HalfUnit;
    GridSum(q, q, n);
    ToFixedPast(Abs(q), d, n);
    ToFixedNegates(Abs(q) - d, n);
    ToFixedNegates(Abs(q) + d, n);
    assert NewQty(q, o.side, d, ins) == ToFixed(q + SignedQty(o.side, d), n);
    if q < 0.0 {
      assert q + d == -(Abs(q) - d) && q - d == -(Abs(q) + d);
    } else if q == 0.0 {
      assert q - d == -(Abs(q) + d);
    }
  }

  /** A priced order fills its whole quantity against whatever position there is, if any. */
  lemma WholeFillIs(cfg: Config, st: State, i: nat, m: Market, liquidity: Liquidity)
    requires i < |st.orders| && PositionsOk(cfg, st.positions)
    requires st.orders[i].quantity > 0.0 && st.orders[i].filledQty == 0.0 && Priced(cfg, st.orders[i], m)
    ensures var o, q := st.orders[i], QtyOf(st.positions, st.orders[i].symbol);
      QtyOf(FillOrder(cfg, st, i, m, liquidity).positions, o.symbol) == NewQty(q, o.side, o.quantity, InstrumentOf(cfg, o.symbol))
  {
    var o, price := st.orders[i], ExecutionPrice(cfg, st.orders[i], m);
    var p := PositionAt(cfg, st, i, price.value, liquidity);
    hide FillOrder, Filled, ExecutionPrice, FillPosition, NewQty, OnGrid, InstrumentOf, PutPosition, FeeRate;
    FillOrderIsFilled(cfg, st, i, m, liquidity);
    FilledMoneyIs(cfg, st, i, price.value, liquidity);
    PositionAtIs(cfg, st, i, price.value, liquidity);
    assert PositionBefore(cfg, st, o).qty == QtyOf(st.positions, o.symbol);
    PutPositionQty(st.positions, p, o.symbol);
  }

  /** The order has a price to execute at. */
  predicate Priced(cfg: Config, o: Order, m: Market) {
    ExecutionPrice(cfg, o, m).Some? && ExecutionPrice(cfg, o, m).value > 0.0
  }

  /** The order's own condition to be filled at this market. */
  predicate Fires(o: Order, symbol: Symbol, m: Market) {
    o.symbol == symbol && if o.typ == LIMIT then LimitMarketable(o, m) else o.IsStop() && StopTriggered(o, m)
  }

  /** Matching one resting order in any good state: its position stays on its own side of zero and does not grow,
      unless the order fires, has a price, and exceeds the position by half a unit of precision or more. */
  lemma MatchCrossesIff(cfg: Config, st: State, b: Books, i: nat, symbol: Symbol, m: Market)
    requires Good(cfg, st, b) && i < |st.orders| && st.orders[i].Live()
    ensures var o := st.orders[i];
      var q, q' := QtyOf(st.positions, o.symbol), QtyOf(EvaluateOrder(cfg, st, i, symbol, m).positions, o.symbol);
      !TowardZero(q, q') <==>
        && Fires(o, symbol, m) && Priced(cfg, o, m)
        && Excess(o, q) >= HalfUnit(InstrumentOf(cfg, o.symbol).quantityPrecision)
  {
    var o := st.orders[i];
    assert OrderOk(o, st.fills);
    assert forall k :: 0 <= k < |st.positions| ==> PositionOk(cfg, st.positions[k]);
    hide IdsOk, KnownSymbols, OrderRowsOk, PositionRowsOk, LedgerOk, LogOk, InstrumentOf, OnGrid, ExecutionPrice, FillOrder,
      NewQty, LimitMarketable, StopTriggered, HalfUnit, OrdersOk, BracketsOk, OrdersOnGrid;
    ZeroIsOnGrid(InstrumentOf(cfg, o.symbol).quantityPrecision);
    if Fires(o, symbol, m) && Priced(cfg, o, m) {
      WholeFillIs(cfg, st, i, m, if o.typ == LIMIT then MAKER else TAKER);
      ReductionCrossesIff(o, QtyOf(st.positions, o.symbol), InstrumentOf(cfg, o.symbol));
    } else if Fires(o, symbol, m) {
      UnpricedMovesNothing(cfg, st, i, m, if o.typ == LIMIT then MAKER else TAKER);
    }
  }

  lemma ZeroIsOnGrid(places: nat)
    ensures OnGrid(0.0, places)
  {
    assert 0.0 * Pow10(places) == 0.0;
  }

  lemma UnpricedMovesNothing(cfg: Config, st: State, i: nat, m: Market, liquidity: Liquidity)
    requires i < |st.orders| && !Priced(cfg, st.orders[i], m)
    ensures FillOrder(cfg, st, i, m, liquidity).positions == st.positions
  {
    hide ExecutionPrice;
  }

  /** The matching loop after its first n orders. */
  function MatchedFirst(cfg: Config, st: State, n: nat, symbol: Symbol, m: Market): (r: State)
    requires n <= |st.orders|
    ensures |r.orders| == |st.orders|
  {
    if n == 0 then st else EvaluateOrder(cfg, MatchedFirst(cfg, st, n - 1, symbol, m), n - 1, symbol, m)
  }

  lemma {:induction false} MatchedFirstIsLoop(cfg: Config, st: State, n: nat, symbol: Symbol, m: Market)
    requires n <= |st.orders|
    ensures EvaluateFrom(cfg, st, 0, symbol, m) == EvaluateFrom(cfg, MatchedFirst(cfg, st, n, symbol, m), n, symbol, m)
  {
    hide EvaluateOrder;
    if n > 0 {
      MatchedFirstIsLoop(cfg, st, n - 1, symbol, m);
    }
  }

  lemma {:induction false} MatchedFirstIsGood(cfg: Config, st: State, b: Books, n: nat, symbol: Symbol, m: Market)
    requires n <= |st.orders| && Good(cfg, st, b)
    ensures Good(cfg, MatchedFirst(cfg, st, n, symbol, m), b)
  {
    hide Good, EvaluateOrder;
    if n > 0 {
      MatchedFirstIsGood(cfg, st, b, n - 1, symbol, m);
      EvaluateOrderKeepsGood(cfg, MatchedFirst(cfg, st, n - 1, symbol, m), b, n - 1, symbol, m);
    }
  }

  /** The state in which a tick's matching loop reaches its n-th order, and the market it matches against. */
  function Ticked(st: State, env: Env, u: MarketUpdate): State {
    WithMarket(AtTime(st, env), env, u)
  }

  function TickMarket(st: State, env: Env, u: MarketUpdate): Market {
    Book(Ticked(st, env, u), env)[u.symbol]
  }

  /** Matching, in a tick, is the loop over MatchedFirst: the orders after the last one matched are none. */
  lemma TickIsMatching(cfg: Config, st: State, env: Env, u: MarketUpdate)
    requires u.symbol in cfg.instruments
    ensures var s, m := Ticked(st, env, u), TickMarket(st, env, u);
      Step(cfg, st, MarketTick(env, u))
        == CheckLiquidation(cfg, MatchedFirst(cfg, s, |s.orders|, u.symbol, m), Book(s, env))
  {
    var s, m := Ticked(st, env, u), TickMarket(st, env, u);
    hide EvaluateOrder, CheckLiquidation, MatchedFirst;
    MatchedFirstIsLoop(cfg, s, |s.orders|, u.symbol, m);
  }

  /** The clamp runs only at submission. In any run, restarts included, and at any point of a tick's matching
      loop, whatever the same tick has already filled: a resting reduce-only order, a limit order as much as a
      stop or take-profit, takes its position across zero or away from it if and only if it fires, has a price,
      and exceeds what the position can then give up by half a unit of the quantity precision or more. */
  lemma RestingReduceOnlyCrossesIff(cfg: Config, utcDay: int, evs: seq<Event>, env: Env, u: MarketUpdate, n: nat)
    requires Feasible(cfg, utcDay, evs) && n < |After(cfg, utcDay, evs).orders|
    requires var st := After(cfg, utcDay, evs);
      var o := MatchedFirst(cfg, Ticked(st, env, u), n, u.symbol, TickMarket(st, env, u)).orders[n];
      o.Live() && o.reduceOnly
    ensures var st, m := After(cfg, utcDay, evs), TickMarket(After(cfg, utcDay, evs), env, u);
      var s := MatchedFirst(cfg, Ticked(st, env, u), n, u.symbol, m);
      var o := s.orders[n];
      var q, q' := QtyOf(s.positions, o.symbol), QtyOf(EvaluateOrder(cfg, s, n, u.symbol, m).positions, o.symbol);
      !TowardZero(q, q') <==>
        && Fires(o, u.symbol, m) && Priced(cfg, o, m)
        && Excess(o, q) >= HalfUnit(InstrumentOf(cfg, o.symbol).quantityPrecision)
  {
    var st, m, b := After(cfg, utcDay, evs), TickMarket(After(cfg, utcDay, evs), env, u), BooksAfter(cfg, utcDay, evs);
    var t := Ticked(st, env, u);
    hide After, Feasible, Good, MatchedFirst, EvaluateOrder, QtyOf, Priced, Fires, Excess, HalfUnit, InstrumentOf, Merge, Ticked,
      TickMarket;
    RunsAreGood(cfg, utcDay, evs);
    TickedIsGood(cfg, st, b, env, u);
    MatchedFirstIsGood(cfg, t, b, n, u.symbol, m);
    MatchCrossesIff(cfg, MatchedFirst(cfg, t, n, u.symbol, m), b, n, u.symbol, m);
  }

  lemma TickedIsGood(cfg: Config, st: State, b: Books, env: Env, u: MarketUpdate)
    requires Good(cfg, st, b)
    ensures Good(cfg, Ticked(st, env, u), b) && |Ticked(st, env, u).orders| == |st.orders|
  {
    hide Good, MergedMarket;
    GoodIgnoresClock(cfg, st, b, env);
    GoodIgnoresMarkets(cfg, AtTime(st, env), b, Ticked(st, env, u).markets, st.liquidations);
  }

  // ----- liquidation -----

  /** Notional of the positions a liquidation closes, at the mark their equity was valued at. */
  function LiquidatedNotional(book: map<Symbol, Market>): Position -> real {
    p => if Liquidatable(book, p) then Abs(p.qty) * book[p.symbol].mark.value else 0.0
  }

  /** Position k closed, everything about it settled; or left alone. */
  predicate Closed(book: map<Symbol, Market>, before: Position, after: Position) {
    if Liquidatable(book, before)
    then after.symbol == before.symbol && after.qty == 0.0 && !after.isOpen
    else after == before
  }

  lemma CloseFill(p: Position, x: real, leverage: Positive, ins: Instrument, at: int)
    requires p.qty != 0.0
    ensures var side := if p.qty > 0.0 then SELL else BUY;
      && NewQty(p.qty, side, Abs(p.qty), ins) == 0.0
      && RealizedBy(p, 0.0, x) == p.qty * (x - p.entryPrice)
      && FillPosition(p, side, Abs(p.qty), x, leverage, ins, at).qty == 0.0
      && !FillPosition(p, side, Abs(p.qty), x, leverage, ins, at).isOpen
  {
    hide ToFixed, WeightedEntry;
    ZeroOnGrid(ins.quantityPrecision);
    ToFixedFixesGrid(0.0, ins.quantityPrecision);
  }

  function ClosePnl(p: Position, x: real): real {
    p.qty * (x - p.entryPrice)
  }

  function CloseNotional(p: Position, x: real): real {
    Abs(p.qty) * x
  }

  lemma LiquidationFill(cfg: Config, s: State, i: nat, k: nat, x: real)
    requires i < |s.orders| && k < |s.positions| && FindPosition(s.positions, s.orders[i].symbol) == k
    requires var o, p := s.orders[i], s.positions[k];
      p.qty != 0.0 && o.quantity == Abs(p.qty) && o.side == if p.qty > 0.0 then SELL else BUY
    ensures var p, f := s.positions[k], FillAt(cfg, s, i, x, TAKER);
      && f.realizedPnl == ClosePnl(p, x) && f.fee == TakerFee(cfg, CloseNotional(p, x))
      && SettledFlat(PositionAt(cfg, s, i, x, TAKER), p)
  {
    hide FillPosition, NewQty, RealizedBy;
    CloseFill(s.positions[k], x, s.orders[i].leverage, InstrumentOf(cfg, s.orders[i].symbol), s.clock);
    PositionAtIs(cfg, s, i, x, TAKER);
  }

  /** One forced close: position k is settled at its mark and pays the taker fee. */
  lemma LiquidateAtIs(cfg: Config, st: State, book: map<Symbol, Market>, k: nat)
    requires k < |st.positions| && DistinctSymbols(st.positions) && Liquidatable(book, st.positions[k])
    ensures var r, p := LiquidateAt(cfg, st, book, k), st.positions[k];
      && |r.positions| == |st.positions| && r.positions == st.positions[k := r.positions[k]]
      && Closed(book, p, r.positions[k])
      && r.wallet == st.wallet - TakerFee(cfg, LiquidatedNotional(book)(p)) + Unrealized(book)(p)
  {
    var p, i := st.positions[k], |st.orders|;
    var x := book[p.symbol].mark.value;
    var s := st.(orders := st.orders + [LiquidationOrder(st, p)], nextId := st.nextId + 1);
    hide LiquidateAt, Filled, FillAt, PositionAt, LiquidatedNotional, TakerFee, Unrealized, NoWorseThanLimit, ClosePnl,
      CloseNotional;
    FindPositionIs(st.positions, k);
    LiquidationFill(cfg, s, i, k, x);
    ValuedAtMark(book, p);
    LiquidateAtIsFilled(cfg, st, book, k);
    FilledMoneyIs(cfg, s, i, x, TAKER);
  }

  predicate SettledFlat(after: Position, before: Position) {
    after.symbol == before.symbol && after.qty == 0.0 && !after.isOpen
  }

  function TakerFee(cfg: Config, notional: real): real {
    notional * cfg.takerFeeRate
  }

  /** A position with a mark is valued at that mark, so closing there realizes what was unrealized. */
  lemma ValuedAtMark(book: map<Symbol, Market>, p: Position)
    requires Liquidatable(book, p)
    ensures Unrealized(book)(p) == ClosePnl(p, book[p.symbol].mark.value)
    ensures LiquidatedNotional(book)(p) == CloseNotional(p, book[p.symbol].mark.value)
  {
  }

  lemma FlatIsWorthless(book: map<Symbol, Market>, p: Position)
    requires p.qty == 0.0
    ensures Unrealized(book)(p) == 0.0
  {
  }

  lemma LiquidateAtCosts(cfg: Config, st: State, book: map<Symbol, Market>, k: nat)
    requires k < |st.positions| && DistinctSymbols(st.positions)
    ensures var r := LiquidateAt(cfg, st, book, k);
      && |r.positions| == |st.positions| && DistinctSymbols(r.positions)
      && (forall j :: 0 <= j < |r.positions| && j != k ==> r.positions[j] == st.positions[j])
      && Closed(book, st.positions[k], r.positions[k])
      && Equity(r, book) == Equity(st, book) - TakerFee(cfg, LiquidatedNotional(book)(st.positions[k]))
  {
    var p, r := st.positions[k], LiquidateAt(cfg, st, book, k);
    if Liquidatable(book, p) {
      LiquidateAtIs(cfg, st, book, k);
      hide LiquidateAt, Unrealized, LiquidatedNotional, TakerFee;
      FlatIsWorthless(book, r.positions[k]);
      SumUpdate(Unrealized(book), st.positions, k, r.positions[k]);
    }
  }

  lemma TakerFeeAdds(cfg: Config, x: real, y: real)
    ensures TakerFee(cfg, x + y) == TakerFee(cfg, x) + TakerFee(cfg, y)
  {
  }

  lemma FeeOfPrefix(cfg: Config, g: Position -> real, ps: seq<Position>, n: nat)
    requires 0 < n <= |ps|
    ensures TakerFee(cfg, SumOf(g, ps[..n])) == TakerFee(cfg, SumOf(g, ps[..n - 1])) + TakerFee(cfg, g(ps[n - 1]))
  {
    assert ps[..n] == ps[..n - 1] + [ps[n - 1]];
    SumAppend(g, ps[..n - 1], ps[n - 1]);
    TakerFeeAdds(cfg, SumOf(g, ps[..n - 1]), g(ps[n - 1]));
  }

  lemma {:induction false} LiquidateFirstCosts(cfg: Config, st: State, book: map<Symbol, Market>, n: nat)
    requires n <= |st.positions| && DistinctSymbols(st.positions)
    ensures ClosedFirst(st, LiquidateFirst(cfg, st, book, n), book, n)
    ensures Equity(LiquidateFirst(cfg, st, book, n), book)
         == Equity(st, book) - TakerFee(cfg, SumOf(LiquidatedNotional(book), st.positions[..n]))
  {
    hide LiquidateAt, Equity, Closed, LiquidatedNotional, TakerFee, DistinctSymbols, SumOf;
    if n == 0 {
      NothingCosts(cfg, LiquidatedNotional(book));
    } else {
      var s := LiquidateFirst(cfg, st, book, n - 1);
      LiquidateFirstCosts(cfg, st, book, n - 1);
      FeeOfPrefix(cfg, LiquidatedNotional(book), st.positions, n);
      LiquidateAtCosts(cfg, s, book, n - 1);
    }
  }

  /** The first n positions are closed or were not liquidatable; the others are untouched. */
  ghost predicate ClosedFirst(st: State, r: State, book: map<Symbol, Market>, n: nat)
    requires n <= |st.positions|
  {
    && |r.positions| == |st.positions| && DistinctSymbols(r.positions)
    && (forall j :: n <= j < |r.positions| ==> r.positions[j] == st.positions[j])
    && (forall j :: 0 <= j < n ==> Closed(book, st.positions[j], r.positions[j]))
  }

  lemma NothingCosts(cfg: Config, g: Position -> real)
    ensures TakerFee(cfg, SumOf(g, [])) == 0.0
  {
  }

  /** When a liquidation fires, every position with a mark ends flat, the others are untouched, and equity
      falls by exactly the taker fee on the closed notional. */
  lemma LiquidationCost(cfg: Config, st: State, book: map<Symbol, Market>)
    requires DistinctSymbols(st.positions) && MustLiquidate(st, book)
    ensures var r := CheckLiquidation(cfg, st, book);
      && r.liquidations == st.liquidations + 1
      && |r.positions| == |st.positions|
      && (forall k :: 0 <= k < |st.positions| ==> Closed(book, st.positions[k], r.positions[k]))
      && Equity(r, book) == Equity(st, book) - TakerFee(cfg, SumOf(LiquidatedNotional(book), st.positions))
  {
    var t := st.(liquidations := st.liquidations + 1);
    hide LiquidateFirst, MustLiquidate, Closed, Unrealized, LiquidatedNotional;
    LiquidateFirstCosts(cfg, t, book, |t.positions|);
    assert t.positions[..|t.positions|] == t.positions;
    LiquidationsKept(cfg, t, book, |t.positions|);
  }

  /** After a liquidation of a reachable state no bracket is live on a symbol that was closed. */
  lemma LiquidationClearsBrackets(cfg: Config, st: State, b: Books, book: map<Symbol, Market>, i: nat, k: nat)
    requires Good(cfg, st, b) && MustLiquidate(st, book)
    requires i < |CheckLiquidation(cfg, st, book).orders| && k < |st.positions| && Liquidatable(book, st.positions[k])
    ensures var o := CheckLiquidation(cfg, st, book).orders[i];
      o.symbol == st.positions[k].symbol ==> !o.LiveBracket()
  {
    var r := CheckLiquidation(cfg, st, book);
    hide OrdersOk, IdsOk, KnownSymbols, PositionOk, OrderRowsOk, PositionRowsOk, LogOk, LedgerOk, CheckLiquidation, MustLiquidate,
      Liquidatable;
    CheckLiquidationKeepsGood(cfg, st, b, book);
    LiquidationCost(cfg, st, book);
    assert Closed(book, st.positions[k], r.positions[k]);
    FindPositionIs(r.positions, k);
  }

  lemma {:induction false} LiquidationsKept(cfg: Config, st: State, book: map<Symbol, Market>, n: nat)
    requires n <= |st.positions|
    ensures LiquidateFirst(cfg, st, book, n).liquidations == st.liquidations
  {
    hide FillRecord, PositionAfter;
    if n > 0 {
      LiquidationsKept(cfg, st, book, n - 1);
    }
  }

  // ----- path independence -----

  /** While the fill log is complete, each position is exactly the replay of its symbol's trades. */
  lemma PositionsAreTheirLog(cfg: Config, utcDay: int, evs: seq<Event>, s: Symbol)
    requires Feasible(cfg, utcDay, evs) && Unbroken(evs) && StepsFit(cfg)
    ensures var st := After(cfg, utcDay, evs);
      && ExposureIn(st.positions, s) == ExposureOf(Replay(TradesOn(st.fills, s), InstrumentOf(cfg, s)))
      && (forall t :: t in TradesOn(st.fills, s) ==> Tradable(t, InstrumentOf(cfg, s)))
  {
    var st := After(cfg, utcDay, evs);
    hide After, Feasible, OrdersOk, IdsOk, KnownSymbols, PositionsOk, OrderRowsOk, PositionRowsOk, BracketsOk, LedgerOk,
      Deposits, Unbroken, StepsFit, Replay, Tradable, InstrumentOf, OnGrid, ExposureIn;
    RunsAreGood(cfg, utcDay, evs);
    BooksFollowDeposits(cfg, utcDay, evs);
    TradesAreTradable(cfg, st.fills, s);
  }

  lemma {:induction false} TradesAreTradable(cfg: Config, fs: seq<Fill>, s: Symbol)
    requires forall k :: 0 <= k < |fs| ==> Tradable(TradeOf(fs[k]), InstrumentOf(cfg, fs[k].symbol))
    ensures forall t :: t in TradesOn(fs, s) ==> Tradable(t, InstrumentOf(cfg, s))
  {
    hide Tradable, InstrumentOf;
    if fs != [] {
      TradesAreTradable(cfg, fs[..|fs| - 1], s);
    }
  }

  /** Realized plus open PnL at mark m. */
  function PnlAt(e: Exposure, m: real): real {
    ValueAt(e.realizedPnl, e.qty, e.entryPrice, m)
  }

  /** In any run without a restart, a symbol's realized plus open PnL at any mark is the sum over its fills
      of signedQty * (mark - price), within half a price unit per unit held after each increase. */
  lemma PnlIsPathIndependent(cfg: Config, utcDay: int, evs: seq<Event>, s: Symbol, m: real)
    requires Feasible(cfg, utcDay, evs) && Unbroken(evs) && StepsFit(cfg)
    ensures var st := After(cfg, utcDay, evs);
      var e, ts := ExposureIn(st.positions, s), TradesOn(st.fills, s);
      Abs(PnlAt(e, m) - SumOf(WorthAt(m), ts)) <= TotalAllowance(ts, InstrumentOf(cfg, s))
  {
    var st := After(cfg, utcDay, evs);
    hide Step, Enabled, StepsFit, Tradable, InstrumentOf, ExposureIn, FillPosition, Residual, RoundingAllowance, TradeOf,
      Fresh, TradeWorth, ValueAt;
    PositionsAreTheirLog(cfg, utcDay, evs, s);
    var e, p := ExposureIn(st.positions, s), Replay(TradesOn(st.fills, s), InstrumentOf(cfg, s));
    WorthIsSumOfTrades(TradesOn(st.fills, s), InstrumentOf(cfg, s), m);
    assert e == ExposureOf(p);
    assert PnlAt(e, m) == Worth(p, m);
    hide PnlAt, Worth;
  }

  function PositionPnl(book: map<Symbol, Market>): Position -> real {
    (p: Position) => p.realizedPnl + Unrealized(book)(p)
  }

  /** The worth of all trades on a position's symbol at the price the position is valued at. */
  function TradesWorth(book: map<Symbol, Market>, fs: seq<Fill>): Position -> real {
    (p: Position) => SumOf(WorthAt(ValuationPrice(book, p)), TradesOn(fs, p.symbol))
  }

  function AllowanceOn(cfg: Config, fs: seq<Fill>): Position -> real {
    (p: Position) => TotalAllowance(TradesOn(fs, p.symbol), InstrumentOf(cfg, p.symbol))
  }

  lemma PnlIsValued(book: map<Symbol, Market>, p: Position)
    requires p.qty != 0.0 ==> ValuationPrice(book, p) != 0.0
    ensures PositionPnl(book)(p) == PnlAt(ExposureOf(p), ValuationPrice(book, p))
  {
    hide ValuationPrice;
    var x := p.qty * (ValuationPrice(book, p) - p.entryPrice);
    if p.qty == 0.0 {
      assert x == 0.0;
    }
    assert Unrealized(book)(p) == x;
    assert PositionPnl(book)(p) == p.realizedPnl + x;
    assert PnlAt(ExposureOf(p), ValuationPrice(book, p)) == p.realizedPnl + x;
  }

  lemma ExposureAt(cfg: Config, utcDay: int, evs: seq<Event>, k: nat)
    requires Feasible(cfg, utcDay, evs) && k < |After(cfg, utcDay, evs).positions|
    ensures var ps := After(cfg, utcDay, evs).positions; ExposureIn(ps, ps[k].symbol) == ExposureOf(ps[k])
  {
    hide After, Feasible, OrdersOk, IdsOk, KnownSymbols, OrderRowsOk, PositionRowsOk, BracketsOk, LedgerOk, LogOk;
    RunsAreGood(cfg, utcDay, evs);
    FindPositionIs(After(cfg, utcDay, evs).positions, k);
  }

  lemma PositionPnlIsItsTrades(cfg: Config, utcDay: int, evs: seq<Event>, book: map<Symbol, Market>, k: nat)
    requires Feasible(cfg, utcDay, evs) && Unbroken(evs) && StepsFit(cfg)
    requires k < |After(cfg, utcDay, evs).positions|
    requires var p := After(cfg, utcDay, evs).positions[k]; p.qty != 0.0 ==> ValuationPrice(book, p) != 0.0
    ensures var st := After(cfg, utcDay, evs);
      var p := st.positions[k];
      Abs(PositionPnl(book)(p) - TradesWorth(book, st.fills)(p)) <= AllowanceOn(cfg, st.fills)(p)
  {
    hide After, Feasible, Unbroken, StepsFit, InstrumentOf, PnlAt, PositionPnl, ValuationPrice, ExposureIn, SumOf, TradesOn,
      TotalAllowance, WorthAt;
    var p := After(cfg, utcDay, evs).positions[k];
    PnlIsValued(book, p);
    ExposureAt(cfg, utcDay, evs, k);
    PnlIsPathIndependent(cfg, utcDay, evs, p.symbol, ValuationPrice(book, p));
  }

  /** Account equity, in any run without a restart, is the deposits less fees and funding plus the worth of
      every recorded trade at its symbol's valuation price, within the total entry-rounding allowance. */
  lemma EquityIsPathIndependent(cfg: Config, utcDay: int, evs: seq<Event>, book: map<Symbol, Market>)
    requires Feasible(cfg, utcDay, evs) && Unbroken(evs) && StepsFit(cfg)
    requires forall p :: p in After(cfg, utcDay, evs).positions && p.qty != 0.0 ==> ValuationPrice(book, p) != 0.0
    ensures var st := After(cfg, utcDay, evs);
      Abs(Equity(st, book) - (Deposits(cfg, evs) - st.totalFees - st.totalFunding
                              + SumOf(TradesWorth(book, st.fills), st.positions)))
        <= SumOf(AllowanceOn(cfg, st.fills), st.positions)
  {
    hide After, Feasible, Unbroken, StepsFit, Unrealized, TradesWorth, AllowanceOn, PositionPnl, Deposits, ValuationPrice, SumOf,
      PosRealized, PosFees, PosFunding, RealizedOf, FeeOf, PaymentOf;
    var st := After(cfg, utcDay, evs);
    LedgerConservation(cfg, utcDay, evs);
    SubledgersAddUp(cfg, utcDay, evs);
    PnlSplits(book, st.positions);
    forall p | p in st.positions ensures Abs(PositionPnl(book)(p) - TradesWorth(book, st.fills)(p)) <= AllowanceOn(cfg, st.fills)(p) {
      var k :| 0 <= k < |st.positions| && st.positions[k] == p;
      PositionPnlIsItsTrades(cfg, utcDay, evs, book, k);
    }
    SumWithin(PositionPnl(book), TradesWorth(book, st.fills), AllowanceOn(cfg, st.fills), st.positions);
  }

  lemma PnlSplits(book: map<Symbol, Market>, ps: seq<Position>)
    ensures SumOf(PositionPnl(book), ps) == SumOf(PosRealized, ps) + SumOf(Unrealized(book), ps)
  {
    hide Unrealized;
    SumSplit(PosRealized, Unrealized(book), PositionPnl(book), ps);
  }
}
