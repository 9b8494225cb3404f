/** Every step keeps the broker's invariant, so every run does. */
module BrokerRuns {
  import opened Prelude
  import opened Decimal
  import opened BrokerTypes
  import opened PositionMath
  import opened BrokerSpec
  import opened BrokerInvariants

  // ----- order book edits -----

  lemma OrderOkFinished(o: Order, status: OrderStatus, reason: Option<string>, fs: seq<Fill>)
    requires o.Live() && status in {CANCELED, REJECTED} && OrderOk(o, fs)
    ensures OrderOk(o.(status := status, rejectReason := reason), fs)
  {
  }

  lemma FinishKeepsOrders(st: State, i: nat, o: Order)
    requires i < |st.orders| && o.id == st.orders[i].id && !o.Live() && OrderOk(o, st.fills)
    requires OrdersOk(st.orders, st.fills) && BracketsOk(st.orders, st.positions)
    ensures OrdersOk(st.orders[i := o], st.fills) && BracketsOk(st.orders[i := o], st.positions)
  {
    hide OrderOk, QtyOf, Guards;
  }

  lemma FinishKeepsIds(cfg: Config, st: State, i: nat, o: Order)
    requires i < |st.orders| && o.id == st.orders[i].id && o.symbol == st.orders[i].symbol && st.orders[i].Live() && !o.Live()
    requires IdsOk(st.orders, st.fills, st.db.orders, st.nextId) && KnownSymbols(cfg, st.orders, st.positions)
    requires OrderRowsOk(st.db.orders, st.orders, -1)
    ensures IdsOk(st.orders[i := o], st.fills, st.db.orders[o.id := o], st.nextId)
    ensures KnownSymbols(cfg, st.orders[i := o], st.positions)
    ensures OrderRowsOk(st.db.orders[o.id := o], st.orders[i := o], -1) && Frozen(st.db.orders, st.db.orders[o.id := o])
  {
    FinishKeepsRows(st.db.orders, st.orders, i, o, -1, st.nextId);
    hide OrderRowsOk;
    assert st.db.orders[o.id].Live() by { RowIsLive(st, i); }
  }

  lemma RowIsLive(st: State, i: nat)
    requires i < |st.orders| && OrderRowsOk(st.db.orders, st.orders, -1)
    ensures st.orders[i].id in st.db.orders && st.db.orders[st.orders[i].id] == st.orders[i]
  {
  }

  /** Rejecting or canceling a live order keeps the invariant. */
  lemma FinishKeepsGood(cfg: Config, st: State, b: Books, i: nat, status: OrderStatus, reason: Option<string>)
    requires i < |st.orders| && st.orders[i].Live() && status in {CANCELED, REJECTED} && Good(cfg, st, b)
    ensures var r := SaveOrder(st, i, st.orders[i].(status := status, rejectReason := reason));
      Good(cfg, r, b) && Frozen(st.db.orders, r.db.orders)
  {
    var o := st.orders[i].(status := status, rejectReason := reason);
    OrderOkFinished(st.orders[i], status, reason, st.fills);
    hide PositionsOk, PositionRowsOk, OrderOk, LogOk, OrdersOk, BracketsOk, LedgerOk, OrdersOnGrid;
    FinishKeepsOrders(st, i, o);
    FinishKeepsIds(cfg, st, i, o);
    hide OrderRowsOk, IdsOk, KnownSymbols, Frozen;
    SameTermsOnGrid(cfg, st.orders, st.orders[i := o]);
    LedgerIgnoresOrders(st, SaveOrder(st, i, o), b);
  }

  lemma CancelMatchingKeepsGood(cfg: Config, st: State, b: Books, f: Filter)
    requires Good(cfg, st, b)
    ensures Good(cfg, CancelMatching(st, f), b)
    ensures Frozen(st.db.orders, CancelMatching(st, f).db.orders)
  {
    hide PositionsOk, PositionRowsOk, OrderOk, Canceled, CanceledRows, LedgerOk, OrderRowsOk, Frozen, LogOk, OrdersOnGrid;
    var r := CancelMatching(st, f);
    CancelKeepsRows(st.db.orders, st.orders, f, -1, st.nextId);
    forall k | 0 <= k < |r.orders| ensures OrderOk(r.orders[k], r.fills) {
      if Hits(f, st.orders[k]) {
        OrderOkFinished(st.orders[k], CANCELED, st.orders[k].rejectReason, st.fills);
      }
    }
    assert LedgerOk(st, b) ==> LedgerOk(r, b) by {
      LedgerIgnoresOrders(st, r, b);
    }
    SameTermsOnGrid(cfg, st.orders, r.orders);
  }

  lemma LedgerIgnoresOrders(st: State, r: State, b: Books)
    requires r == st.(orders := r.orders, nextId := r.nextId, db := st.db.(orders := r.db.orders))
    ensures LedgerOk(st, b) ==> LedgerOk(r, b)
  {
  }

  /** A new order may enter the book if it is finished, or live and (when a bracket) protecting something. */
  ghost predicate MayEnter(cfg: Config, st: State, b: Books, o: Order) {
    && o.id == st.nextId && o.symbol in cfg.instruments && o.filledQty == 0.0
    && o.status in {NEW, REJECTED}
    && (o.Live() ==> o.quantity > 0.0)
    && (o.LiveBracket() ==> Guards(o, QtyOf(st.positions, o.symbol)))
    && (StepsFit(cfg) ==> OnGrid(o.quantity, InstrumentOf(cfg, o.symbol).quantityPrecision))
  }

  lemma NewIdHasNoFills(st: State)
    requires forall k :: 0 <= k < |st.fills| ==> st.fills[k].orderId < st.nextId
    ensures FillsOf(st.fills, st.nextId) == []
  {
    FillsOfNone(st.fills, st.nextId);
  }

  /** Appending an order that may enter, before it is saved. */
  lemma AppendKeepsGoodBut(cfg: Config, st: State, b: Books, o: Order)
    requires Good(cfg, st, b) && MayEnter(cfg, st, b, o)
    ensures GoodBut(cfg, st.(orders := st.orders + [o], nextId := st.nextId + 1), b, |st.orders|)
  {
    hide PositionsOk, PositionRowsOk, FillsOf, QtyOf, Guards, OnGrid, InstrumentOf, Tradable, Replay, TradesOn, ExposureIn, StepsFit;
    NewIdHasNoFills(st);
  }

  lemma PlaceKeepsGood(cfg: Config, st: State, b: Books, o: Order)
    requires Good(cfg, st, b) && MayEnter(cfg, st, b, o)
    ensures Good(cfg, Place(st, o), b) && Frozen(st.db.orders, Place(st, o).db.orders)
  {
    hide PositionsOk, PositionRowsOk, OrderOk, BracketsOk, LedgerOk, LogOk, OrdersOnGrid;
    AppendKeepsGoodBut(cfg, st, b, o);
    LedgerIgnoresOrders(st, Place(st, o), b);
    var rows, os := Place(st, o).db.orders, Place(st, o).orders;
    assert os[|st.orders|] == o;
    forall id | id in rows && rows[id].Live() ensures rows[id] in os {
      assert id in st.db.orders || id == o.id;
    }
  }

  // ----- fills -----

  lemma ExecutionPriceKeepsLimit(cfg: Config, o: Order, m: Market)
    requires ExecutionPrice(cfg, o, m).Some? && (o.typ == LIMIT ==> LimitMarketable(o, m))
    ensures NoWorseThanLimit(o.(avgFillPrice := ExecutionPrice(cfg, o, m).value))
  {
  }

  lemma FillOrderIsFilled(cfg: Config, st: State, i: nat, m: Market, liquidity: Liquidity)
    requires i < |st.orders| && ExecutionPrice(cfg, st.orders[i], m).Some?
    requires ExecutionPrice(cfg, st.orders[i], m).value > 0.0
    requires st.orders[i].quantity > 0.0 && st.orders[i].filledQty == 0.0
    ensures FillOrder(cfg, st, i, m, liquidity)
         == Filled(cfg, st, i, ExecutionPrice(cfg, st.orders[i], m).value, liquidity)
  {
    hide ExecutionPrice, FillRecord, PositionAfter, AverageWith, Hits;
  }

  /** What fillOrder is called with: a live order, and for a limit order a market that crosses it. */
  predicate ReadyToFill(o: Order, m: Market) {
    o.Live() && (o.typ == LIMIT ==> LimitMarketable(o, m))
  }

  lemma FillOrderKeepsGood(cfg: Config, st: State, b: Books, i: nat, m: Market, liquidity: Liquidity)
    requires i < |st.orders| && ReadyToFill(st.orders[i], m) && Good(cfg, st, b)
    ensures Good(cfg, FillOrder(cfg, st, i, m, liquidity), b)
    ensures Frozen(st.db.orders, FillOrder(cfg, st, i, m, liquidity).db.orders)
  {
    var o := st.orders[i];
    assert OrderOk(o, st.fills);
    var price := ExecutionPrice(cfg, o, m);
    if price.None? || price.value <= 0.0 {
      FinishKeepsGood(cfg, st, b, i, REJECTED, Some("INVALID_EXECUTION_PRICE"));
    } else {
      hide ExecutionPrice, LimitMarketable, FillOrder, Filled, NoWorseThanLimit, PositionsOk, BracketsOk, LedgerOk,
        PositionRowsOk, KnownSymbols;
      ExecutionPriceKeepsLimit(cfg, o, m);
      FillOrderIsFilled(cfg, st, i, m, liquidity);
      FilledKeepsGood(cfg, st, b, i, price.value, liquidity);
    }
  }

  lemma CancelOrderKeepsGood(cfg: Config, st: State, b: Books, i: nat)
    requires i < |st.orders| && Good(cfg, st, b)
    ensures Good(cfg, CancelOrderAt(st, i), b) && Frozen(st.db.orders, CancelOrderAt(st, i).db.orders)
  {
    hide Good;
    if st.orders[i].Live() {
      FinishKeepsGood(cfg, st, b, i, CANCELED, st.orders[i].rejectReason);
    }
  }

  // ----- submission -----

  lemma NewOrderOnGrid(cfg: Config, st: State, cmd: OrderCommand)
    requires StepsFit(cfg) && cmd.symbol in cfg.instruments
    ensures OnGrid(NewOrder(cfg, st, cmd).quantity, InstrumentOf(cfg, cmd.symbol).quantityPrecision)
  {
    var ins := cfg.instruments[cmd.symbol];
    hide OnGrid, RoundStep, RoundTick, QtyOf;
    StepsOnGrid(cmd.quantity, ins.stepSize, ins.quantityPrecision);
    StepsOnGrid(Abs(QtyOf(st.positions, cmd.symbol)), ins.stepSize, ins.quantityPrecision);
  }

  /** An order that passed the risk check, if it is a bracket, has a position on the other side. */
  lemma RiskAdmitsOnlyGuards(cfg: Config, st: State, env: Env, o: Order, m: Market)
    requires RiskReason(cfg, st, env, o, m).None?
    ensures o.quantity > 0.0
    ensures o.reduceOnly ==> Guards(o, QtyOf(st.positions, o.symbol))
  {
    hide Equity, AvailableBalance, RequiredBalance, PositionNotionalAfter, EstimatedPrice, LiveCount, QtyOf;
  }

  /** Rejecting an order that was just placed is placing it already rejected. */
  lemma RejectPlaced(st: State, o: Order, reason: string)
    ensures RejectOrder(Place(st, o), |st.orders|, reason)
         == Place(st, o.(status := REJECTED, rejectReason := Some(reason)))
  {
    var o' := o.(status := REJECTED, rejectReason := Some(reason));
    assert (st.orders + [o])[|st.orders| := o'] == st.orders + [o'];
    assert st.db.orders[o.id := o][o.id := o'] == st.db.orders[o.id := o'];
  }

  lemma RejectPlacedKeepsGood(cfg: Config, st: State, b: Books, o: Order, reason: string)
    requires Good(cfg, st, b) && o.id == st.nextId && o.symbol in cfg.instruments && o.filledQty == 0.0
    requires StepsFit(cfg) ==> OnGrid(o.quantity, InstrumentOf(cfg, o.symbol).quantityPrecision)
    ensures var r := RejectOrder(Place(st, o), |st.orders|, reason);
      Good(cfg, r, b) && Frozen(st.db.orders, r.db.orders)
  {
    hide Good, Place, RejectOrder, QtyOf, OnGrid, InstrumentOf, StepsFit;
    RejectPlaced(st, o, reason);
    PlaceKeepsGood(cfg, st, b, o.(status := REJECTED, rejectReason := Some(reason)));
  }

  lemma FollowKeepsGood(cfg: Config, st: State, b: Books, i: nat, m: Market)
    requires i < |st.orders| && st.orders[i].Live() && Good(cfg, st, b)
    ensures var r := Follow(cfg, st, i, m, RouteOf(st.orders[i], m));
      Good(cfg, r, b) && Frozen(st.db.orders, r.db.orders)
  {
    var o := st.orders[i];
    match RouteOf(o, m) {
      case FillNow =>
        assert ReadyToFill(o, m);
        hide FillOrder, Good, ReadyToFill;
        FillOrderKeepsGood(cfg, st, b, i, m, TAKER);
      case Rest =>
      case CancelNow =>
        hide Good;
        CancelOrderKeepsGood(cfg, st, b, i);
      case Refuse(reason) =>
        hide Good;
        FinishKeepsGood(cfg, st, b, i, REJECTED, Some(reason));
    }
  }

  lemma FrozenTrans(a: map<nat, Order>, b: map<nat, Order>, c: map<nat, Order>)
    requires Frozen(a, b) && Frozen(b, c)
    ensures Frozen(a, c)
  {
  }

  lemma SubmitKeepsGood(cfg: Config, st: State, b: Books, env: Env, cmd: OrderCommand)
    requires Good(cfg, st, b)
    ensures Good(cfg, Submit(cfg, st, env, cmd), b)
    ensures Frozen(st.db.orders, Submit(cfg, st, env, cmd).db.orders)
  {
    if cmd.symbol in cfg.instruments {
      var o, i, book := NewOrder(cfg, st, cmd), |st.orders|, Book(st, env);
      if StepsFit(cfg) {
        NewOrderOnGrid(cfg, st, cmd);
      }
      hide OnGrid, InstrumentOf, LogOk, StepsFit, Good, ClampedQuantity, RoundedPrice, RiskReason, Follow, RouteOf, Frozen, RejectOrder, Equity, Guards, QtyOf;
      if o.symbol !in book {
        RejectPlacedKeepsGood(cfg, st, b, o, "NO_MARKET_STATE");
      } else if Stale(cfg, env, book[o.symbol]) {
        RejectPlacedKeepsGood(cfg, st, b, o, "STALE_MARKET_DATA");
      } else {
        var m := book[o.symbol];
        var s := RollDay(Place(st, o), env);
        var st' := st.(utcDay := s.utcDay, dayStartEquity := s.dayStartEquity);
        assert s == Place(st', o);
        GoodIgnoresDay(cfg, st, b, s.utcDay, s.dayStartEquity);
        var reason := RiskReason(cfg, s, env, o, m);
        if reason.Some? {
          RejectPlacedKeepsGood(cfg, st', b, o, reason.value);
        } else {
          RiskAdmitsOnlyGuards(cfg, s, env, o, m);
          PlaceKeepsGood(cfg, st', b, o);
          FollowKeepsGood(cfg, s, b, i, m);
          FrozenTrans(st.db.orders, s.db.orders, Submit(cfg, st, env, cmd).db.orders);
        }
      }
    } else {
      hide Good;
    }
  }

  lemma GoodIgnoresDay(cfg: Config, st: State, b: Books, utcDay: int, equity: real)
    requires Good(cfg, st, b)
    ensures Good(cfg, st.(utcDay := utcDay, dayStartEquity := equity), b)
  {
    hide OrdersOk, IdsOk, KnownSymbols, BracketsOk, PositionsOk, OrderRowsOk, PositionRowsOk, LogOk, OrdersOnGrid;
  }

  // ----- market ticks -----

  lemma EvaluateOrderKeepsGood(cfg: Config, st: State, b: Books, i: nat, symbol: Symbol, m: Market)
    requires i < |st.orders| && Good(cfg, st, b)
    ensures var r := EvaluateOrder(cfg, st, i, symbol, m); Good(cfg, r, b) && Frozen(st.db.orders, r.db.orders)
  {
    hide Good, FillOrder, LimitMarketable, StopTriggered;
    var o := st.orders[i];
    if o.symbol == symbol && o.Live() {
      if o.typ == LIMIT && LimitMarketable(o, m) {
        FillOrderKeepsGood(cfg, st, b, i, m, MAKER);
      } else if o.IsStop() && StopTriggered(o, m) {
        FillOrderKeepsGood(cfg, st, b, i, m, TAKER);
      }
    }
  }

  lemma {:induction false} EvaluateKeepsGood(cfg: Config, st: State, b: Books, i: nat, symbol: Symbol, m: Market)
    requires i <= |st.orders| && Good(cfg, st, b)
    ensures var r := EvaluateFrom(cfg, st, i, symbol, m); Good(cfg, r, b) && Frozen(st.db.orders, r.db.orders)
    decreases |st.orders| - i
  {
    hide Good, EvaluateOrder, Frozen;
    if i < |st.orders| {
      var s := EvaluateOrder(cfg, st, i, symbol, m);
      EvaluateOrderKeepsGood(cfg, st, b, i, symbol, m);
      EvaluateKeepsGood(cfg, s, b, i + 1, symbol, m);
      FrozenTrans(st.db.orders, s.db.orders, EvaluateFrom(cfg, st, i, symbol, m).db.orders);
    } else {
      FrozenSelf(st.db.orders);
    }
  }

  lemma FrozenSelf(rows: map<nat, Order>)
    ensures Frozen(rows, rows)
  {
  }

  lemma LiquidateAtIsFilled(cfg: Config, st: State, book: map<Symbol, Market>, k: nat)
    requires k < |st.positions| && Liquidatable(book, st.positions[k])
    ensures var p := st.positions[k];
      var s := st.(orders := st.orders + [LiquidationOrder(st, p)], nextId := st.nextId + 1);
      LiquidateAt(cfg, st, book, k) == Filled(cfg, s, |st.orders|, book[p.symbol].mark.value, TAKER)
  {
    hide ExecuteFill;
  }

  lemma LiquidationMayEnter(cfg: Config, st: State, b: Books, k: nat)
    requires k < |st.positions| && st.positions[k].qty != 0.0
    requires PositionsOk(cfg, st.positions) && KnownSymbols(cfg, st.orders, st.positions)
    ensures MayEnter(cfg, st, b, LiquidationOrder(st, st.positions[k]))
  {
    var p := st.positions[k];
    assert PositionOk(cfg, p);
    hide OnGrid, QtyOf;
    GridSum(p.qty, p.qty, InstrumentOf(cfg, p.symbol).quantityPrecision);
  }

  lemma LiquidateAtKeepsGood(cfg: Config, st: State, b: Books, book: map<Symbol, Market>, k: nat)
    requires k < |st.positions| && Good(cfg, st, b)
    ensures var r := LiquidateAt(cfg, st, book, k); Good(cfg, r, b) && Frozen(st.db.orders, r.db.orders)
  {
    var p := st.positions[k];
    if Liquidatable(book, p) {
      var o := LiquidationOrder(st, p);
      var s := st.(orders := st.orders + [o], nextId := st.nextId + 1);
      assert Fillable(o, book[p.symbol].mark.value);
      hide LiquidateAt, Filled, OrdersOk, KnownSymbols, BracketsOk, PositionsOk, PositionRowsOk, LedgerOk, OrderRowsOk,
        LogOk, MayEnter, Fillable, OrdersOnGrid;
      LiquidationMayEnter(cfg, st, b, k);
      LiquidateAtIsFilled(cfg, st, book, k);
      AppendKeepsGoodBut(cfg, st, b, o);
      assert o.id !in st.db.orders;
      FilledKeepsGood(cfg, s, b, |st.orders|, book[p.symbol].mark.value, TAKER);
    } else {
      FrozenSelf(st.db.orders);
    }
  }

  lemma {:induction false} LiquidateFirstKeepsGood(cfg: Config, st: State, b: Books, book: map<Symbol, Market>, n: nat)
    requires n <= |st.positions| && Good(cfg, st, b)
    ensures var r := LiquidateFirst(cfg, st, book, n); Good(cfg, r, b) && Frozen(st.db.orders, r.db.orders)
  {
    hide Good, LiquidateAt, Frozen;
    if n == 0 {
      FrozenSelf(st.db.orders);
    } else {
      var s := LiquidateFirst(cfg, st, book, n - 1);
      LiquidateFirstKeepsGood(cfg, st, b, book, n - 1);
      LiquidateAtKeepsGood(cfg, s, b, book, n - 1);
      FrozenTrans(st.db.orders, s.db.orders, LiquidateFirst(cfg, st, book, n).db.orders);
    }
  }

  lemma CheckLiquidationKeepsGood(cfg: Config, st: State, b: Books, book: map<Symbol, Market>)
    requires Good(cfg, st, b)
    ensures var r := CheckLiquidation(cfg, st, book); Good(cfg, r, b) && Frozen(st.db.orders, r.db.orders)
  {
    hide Good, LiquidateFirst, MustLiquidate, Frozen;
    if MustLiquidate(st, book) {
      var t := st.(liquidations := st.liquidations + 1);
      GoodIgnoresMarkets(cfg, st, b, st.markets, t.liquidations);
      LiquidateFirstKeepsGood(cfg, t, b, book, |t.positions|);
    } else {
      FrozenSelf(st.db.orders);
    }
  }

  lemma OnMarketKeepsGood(cfg: Config, st: State, b: Books, env: Env, u: MarketUpdate)
    requires Good(cfg, st, b)
    ensures var r := OnMarket(cfg, st, env, u); Good(cfg, r, b) && Frozen(st.db.orders, r.db.orders)
  {
    hide Good, EvaluateFrom, CheckLiquidation, MergedMarket, Frozen;
    FrozenSelf(st.db.orders);
    if u.symbol in cfg.instruments {
      var s := WithMarket(st, env, u);
      var book := Book(s, env);
      var s' := EvaluateFrom(cfg, s, 0, u.symbol, book[u.symbol]);
      GoodIgnoresMarkets(cfg, st, b, s.markets, st.liquidations);
      EvaluateKeepsGood(cfg, s, b, 0, u.symbol, book[u.symbol]);
      CheckLiquidationKeepsGood(cfg, s', b, book);
      FrozenTrans(st.db.orders, s'.db.orders, CheckLiquidation(cfg, s', book).db.orders);
    }
  }

  lemma GoodIgnoresMarkets(cfg: Config, st: State, b: Books, markets: map<Symbol, Market>, liquidations: nat)
    requires Good(cfg, st, b)
    ensures Good(cfg, st.(markets := markets, liquidations := liquidations), b)
  {
    hide OrdersOk, IdsOk, KnownSymbols, BracketsOk, PositionsOk, OrderRowsOk, PositionRowsOk, LogOk, OrdersOnGrid;
  }

  // ----- funding -----

  lemma FundAtKeepsGood(cfg: Config, st: State, b: Books, book: map<Symbol, Market>, k: nat)
    requires k < |st.positions| && Good(cfg, st, b)
    ensures Good(cfg, FundAt(st, book, k), b) && FundAt(st, book, k).db.orders == st.db.orders
  {
    var p, r := st.positions[k], FundAt(st, book, k);
    if r != st {
      var p' := r.positions[k];
      hide OrderOk, ToFixed, OnGrid, Replay, TradesOn, StepsFit;
      FindPositionIs(st.positions, k);
      assert r.positions == PutPosition(st.positions, p');
      PutKeepsPositions(cfg, st.positions, st.db.positions, p');
      forall j | 0 <= j < |st.orders| && st.orders[j].LiveBracket() ensures Guards(st.orders[j], QtyOf(r.positions, st.orders[j].symbol)) {
        PutPositionQty(st.positions, p', st.orders[j].symbol);
      }
      assert LedgerOk(r, b) by {
        FundKeepsLedger(st, b, book, k);
      }
      forall s ensures ExposureIn(r.positions, s) == ExposureIn(st.positions, s) {
        PutExposure(st.positions, p', s);
      }
    }
  }

  lemma FundKeepsLedger(st: State, b: Books, book: map<Symbol, Market>, k: nat)
    requires k < |st.positions| && LedgerOk(st, b)
    ensures LedgerOk(FundAt(st, book, k), b)
  {
    var p, r := st.positions[k], FundAt(st, book, k);
    if r != st {
      SumUpdate(PosFees, st.positions, k, r.positions[k]);
      SumUpdate(PosFunding, st.positions, k, r.positions[k]);
      SumUpdate(PosRealized, st.positions, k, r.positions[k]);
      SumAppend(PaymentOf, st.db.funding, r.db.funding[|st.db.funding|]);
    }
  }

  lemma {:induction false} FundFirstKeepsGood(cfg: Config, st: State, b: Books, book: map<Symbol, Market>, n: nat)
    requires n <= |st.positions| && Good(cfg, st, b)
    ensures Good(cfg, FundFirst(st, book, n), b) && FundFirst(st, book, n).db.orders == st.db.orders
  {
    hide Good, FundAt;
    if n > 0 {
      FundFirstKeepsGood(cfg, st, b, book, n - 1);
      FundAtKeepsGood(cfg, FundFirst(st, book, n - 1), b, book, n - 1);
    }
  }

  // ----- reset and restart -----

  lemma CloseRowsKeeps(rows: map<nat, Order>, nextId: nat)
    requires RowsKeyed(rows, nextId)
    ensures RowsKeyed(CloseRows(rows), nextId) && Frozen(rows, CloseRows(rows))
    ensures forall id :: id in rows ==>
      CloseRows(rows)[id].status == if rows[id].Live() then CANCELED else rows[id].status
  {
  }

  lemma EmptyBookIsGood(cfg: Config, st: State, complete: bool)
    requires complete ==> StepsFit(cfg)
    requires st.orders == [] && st.positions == [] && st.fills == []
    requires st.db == Db(st.db.orders, map[], [], []) && RowsKeyed(st.db.orders, st.nextId)
    requires forall id :: id in st.db.orders ==> !st.db.orders[id].Live()
    requires st.totalFees == st.totalFunding == st.totalRealizedPnl == 0.0
    ensures Good(cfg, st, Books(st.wallet, 0.0, 0.0, 0.0, complete))
  {
  }

  ghost function EmptyBooks(cfg: Config, base: real): Books {
    Books(base, 0.0, 0.0, 0.0, StepsFit(cfg))
  }

  lemma ResetKeepsGood(cfg: Config, st: State, b: Books, start: Option<real>, env: Env)
    requires Good(cfg, st, b)
    ensures var r := ResetAccount(st, start, env);
      Good(cfg, r, EmptyBooks(cfg, ResetBalance(start))) && Frozen(st.db.orders, r.db.orders)
  {
    var s, r := CancelMatching(st, AllOrders), ResetAccount(st, start, env);
    CancelMatchingKeepsGood(cfg, st, b, AllOrders);
    CancelAllIs(st);
    assert RowsKeyed(s.db.orders, s.nextId);
    hide CancelAll, CancelMatching, GoodBut, CloseRows, Frozen, RowsKeyed;
    CloseRowsKeeps(s.db.orders, s.nextId);
    EmptyBookIsGood(cfg, r, StepsFit(cfg));
    FrozenTrans(st.db.orders, s.db.orders, r.db.orders);
  }

  lemma CancelAllIs(st: State)
    ensures CancelAll(st, None) == CancelMatching(st, AllOrders)
  {
  }

  /** The j-th reloaded position is the live one, its entry price re-rounded. */
  lemma LoadedPositionAt(cfg: Config, st: State, load: Load, j: nat)
    requires IsLoad(st.db, load) && j < |load.positions|
    requires PositionsOk(cfg, st.positions) && PositionRowsOk(cfg, st.db.positions, st.positions)
    requires KnownSymbols(cfg, st.orders, st.positions)
    ensures var s := load.positions[j].symbol;
      var k := FindPosition(st.positions, s);
      && k < |st.positions| && st.positions[k].qty != 0.0
      && Heal(cfg, load.positions[j]) == Rerounded(cfg, st.positions[k])
  {
    hide ToFixed, OnGrid, OrderOk;
    var p := load.positions[j];
    assert p in load.positions;
    var k := FindPosition(st.positions, p.symbol);
    assert SameRow(cfg, st.db.positions[p.symbol], st.positions[k]);
    assert PositionOk(cfg, st.positions[k]);
    ToFixedFixesGrid(p.qty, InstrumentOf(cfg, p.symbol).quantityPrecision);
  }

  function Rerounded(cfg: Config, p: Position): Position {
    p.(entryPrice := ToFixed(p.entryPrice, InstrumentOf(cfg, p.symbol).pricePrecision))
  }

  /** A position with a quantity is always reloaded. */
  lemma OpenPositionIsLoaded(cfg: Config, st: State, load: Load, k: nat)
    requires IsLoad(st.db, load) && k < |st.positions| && st.positions[k].qty != 0.0
    requires PositionsOk(cfg, st.positions) && PositionRowsOk(cfg, st.db.positions, st.positions)
    ensures FindPosition(Healed(cfg, load.positions), st.positions[k].symbol) < |load.positions|
  {
    hide ToFixed, OnGrid;
    var p := st.positions[k];
    assert PositionOk(cfg, p);
    assert SameRow(cfg, st.db.positions[p.symbol], p);
    assert Reloadable(st.db.positions[p.symbol]);
    var j :| 0 <= j < |load.positions| && load.positions[j] == st.db.positions[p.symbol];
    assert Healed(cfg, load.positions)[j].symbol == p.symbol;
  }

  /** Reloading the positions changes no quantity, and every open position comes back re-rounded. */
  lemma ReloadedPosition(cfg: Config, st: State, load: Load, s: Symbol)
    requires IsLoad(st.db, load)
    requires PositionsOk(cfg, st.positions) && PositionRowsOk(cfg, st.db.positions, st.positions)
    requires KnownSymbols(cfg, st.orders, st.positions)
    ensures QtyOf(Healed(cfg, load.positions), s) == QtyOf(st.positions, s)
    ensures QtyOf(st.positions, s) != 0.0 ==>
      var j, k := FindPosition(Healed(cfg, load.positions), s), FindPosition(st.positions, s);
      j < |load.positions| && k < |st.positions| && Healed(cfg, load.positions)[j] == Rerounded(cfg, st.positions[k])
  {
    hide IsLoad, PositionRowsOk, PositionOk, Heal, KnownSymbols, InstrumentOf, ToFixed;
    var k, j := FindPosition(st.positions, s), FindPosition(Healed(cfg, load.positions), s);
    if j < |load.positions| {
      HealKeepsSymbol(cfg, load.positions[j]);
      LoadedPositionAt(cfg, st, load, j);
    } else if k < |st.positions| && st.positions[k].qty != 0.0 {
      OpenPositionIsLoaded(cfg, st, load, k);
    }
  }

  lemma HealKeepsSymbol(cfg: Config, p: Position)
    ensures Heal(cfg, p).symbol == p.symbol
  {
  }

  lemma RestartKeepsOrders(cfg: Config, st: State, b: Books, load: Load)
    requires Good(cfg, st, b) && IsLoad(st.db, load)
    ensures OrdersOk(load.orders, load.fills) && OrderRowsOk(st.db.orders, load.orders, -1)
    ensures IdsOk(load.orders, load.fills, st.db.orders, st.nextId)
    ensures BracketsOk(load.orders, Healed(cfg, load.positions)) && OrdersOnGrid(cfg, load.orders)
    ensures forall o :: o in load.orders ==> o in st.orders && o.symbol in cfg.instruments
  {
    hide PositionsOk, PositionRowsOk, QtyOf, Healed;
    forall k | 0 <= k < |load.fills| ensures load.fills[k] in st.fills {
      assert load.fills[k] in multiset(load.fills);
    }
    forall k | 0 <= k < |load.orders| ensures load.orders[k] in st.orders {
      assert load.orders[k] in load.orders;
    }
    forall k | 0 <= k < |load.orders|
      ensures OrderOk(load.orders[k], load.fills)
      ensures load.orders[k].LiveBracket() ==> Guards(load.orders[k], QtyOf(Healed(cfg, load.positions), load.orders[k].symbol))
    {
      var o := load.orders[k];
      assert o in load.orders;
      FillsOfNone(st.fills, o.id);
      FillsOfNone(load.fills, o.id);
      ReloadedPosition(cfg, st, load, o.symbol);
    }
  }

  lemma HealedAt(cfg: Config, st: State, load: Load, k: nat)
    requires IsLoad(st.db, load) && k < |load.positions|
    requires PositionsOk(cfg, st.positions) && PositionRowsOk(cfg, st.db.positions, st.positions)
    requires KnownSymbols(cfg, st.orders, st.positions)
    ensures var p := Heal(cfg, load.positions[k]);
      && PositionOk(cfg, p) && p.symbol == load.positions[k].symbol && p.symbol in cfg.instruments
      && p.symbol in st.db.positions && SameRow(cfg, st.db.positions[p.symbol], p)
  {
    var p := load.positions[k];
    assert p in load.positions;
    hide ToFixed, OnGrid;
    LoadedPositionAt(cfg, st, load, k);
    var live := FindPosition(st.positions, p.symbol);
    assert PositionOk(cfg, st.positions[live]);
    assert p == st.db.positions[p.symbol] && SameRow(cfg, p, st.positions[live]);
    var n := InstrumentOf(cfg, p.symbol).pricePrecision;
    ToFixedFixesGrid(p.entryPrice, n);
    ToFixedFixesGrid(ToFixed(p.entryPrice, n), n);
  }

  lemma RestartKeepsPositions(cfg: Config, st: State, load: Load)
    requires IsLoad(st.db, load)
    requires PositionsOk(cfg, st.positions) && PositionRowsOk(cfg, st.db.positions, st.positions)
    requires KnownSymbols(cfg, st.orders, st.positions)
    ensures PositionsOk(cfg, Healed(cfg, load.positions))
    ensures PositionRowsOk(cfg, st.db.positions, Healed(cfg, load.positions))
    ensures forall k :: 0 <= k < |load.positions| ==> Healed(cfg, load.positions)[k].symbol in cfg.instruments
  {
    var healed := Healed(cfg, load.positions);
    hide Heal, PositionOk, SameRow, KnownSymbols;
    forall k | 0 <= k < |healed|
      ensures healed[k].symbol == load.positions[k].symbol
      ensures healed[k].symbol in st.db.positions && SameRow(cfg, st.db.positions[healed[k].symbol], healed[k])
      ensures PositionOk(cfg, healed[k]) && healed[k].symbol in cfg.instruments
    {
      HealedAt(cfg, st, load, k);
    }
    assert forall j :: 0 <= j < |healed| ==> healed[j].symbol == load.positions[j].symbol;
    hide PositionsOk, Healed;
    forall s | s in st.db.positions && Reloadable(st.db.positions[s]) ensures FindPosition(healed, s) < |healed| {
      OpenRowIsHealed(cfg, st, load, healed, s);
    }
    DistinctHealed(load.positions, healed);
  }

  lemma OpenRowIsHealed(cfg: Config, st: State, load: Load, healed: seq<Position>, s: Symbol)
    requires IsLoad(st.db, load) && PositionRowsOk(cfg, st.db.positions, st.positions)
    requires |healed| == |load.positions| && forall j :: 0 <= j < |healed| ==> healed[j].symbol == load.positions[j].symbol
    requires s in st.db.positions && Reloadable(st.db.positions[s])
    ensures FindPosition(healed, s) < |healed|
  {
    hide SameRow, Reloadable;
    var j :| 0 <= j < |load.positions| && load.positions[j] == st.db.positions[s];
    assert healed[j].symbol == s;
  }

  lemma DistinctHealed(ps: seq<Position>, healed: seq<Position>)
    requires |healed| == |ps| && forall j :: 0 <= j < |healed| ==> healed[j].symbol == ps[j].symbol
    requires forall i, j :: 0 <= i < j < |ps| ==> ps[i].symbol != ps[j].symbol
    ensures DistinctSymbols(healed)
  {
  }

  /** What the surviving positions had booked is what the totals no longer owe to older ones. */
  function BooksAfterRestart(cfg: Config, st: State, load: Load): Books {
    var ps := Healed(cfg, load.positions);
    Books(cfg.startingUsdt, st.totalFees - SumOf(PosFees, ps), st.totalFunding - SumOf(PosFunding, ps),
          st.totalRealizedPnl - SumOf(PosRealized, ps), false)
  }

  /** The replayed totals are the live ones, whatever order the rows come back in. */
  lemma RestartTotals(cfg: Config, st: State, b: Books, load: Load)
    requires LedgerOk(st, b) && IsLoad(st.db, load)
    ensures SumOf(FeeOf, load.fills) == st.totalFees
    ensures SumOf(RealizedOf, load.fills) == st.totalRealizedPnl
    ensures SumOf(PaymentOf, load.funding) == st.totalFunding
  {
    SumPermutation(FeeOf, load.fills, st.fills);
    SumPermutation(RealizedOf, load.fills, st.fills);
    SumPermutation(PaymentOf, load.funding, st.db.funding);
  }

  lemma RestartKeepsGood(cfg: Config, st: State, b: Books, load: Load, utcDay: int)
    requires Good(cfg, st, b) && IsLoad(st.db, load)
    ensures Good(cfg, Construct(cfg, load, utcDay, st.nextId, st.db), BooksAfterRestart(cfg, st, load))
  {
    RestartTotals(cfg, st, b, load);
    RestartKeepsOrders(cfg, st, b, load);
    RestartKeepsPositions(cfg, st, load);
    hide OrdersOk, BracketsOk, PositionsOk, PositionRowsOk, IdsOk, OrderRowsOk, OrdersOnGrid, SumOf, Healed;
  }

  // ----- whole runs -----

  ghost function NextBooks(cfg: Config, st: State, b: Books, ev: Event): Books {
    match ev
    case Adjust(delta) => b.(base := b.base + delta)
    case Reset(start, env) => EmptyBooks(cfg, ResetBalance(start))
    case Restart(load, env) => BooksAfterRestart(cfg, st, load)
    case _ => b
  }

  lemma AdjustKeepsGood(cfg: Config, st: State, b: Books, delta: real)
    requires Good(cfg, st, b)
    ensures Good(cfg, st.(wallet := st.wallet + delta), b.(base := b.base + delta))
  {
    hide OrdersOk, BracketsOk, PositionsOk, PositionRowsOk, IdsOk, OrderRowsOk, KnownSymbols, LogOk, OrdersOnGrid, SumOf;
  }

  lemma GoodIgnoresClock(cfg: Config, st: State, b: Books, env: Env)
    requires Good(cfg, st, b)
    ensures Good(cfg, AtTime(st, env), b)
  {
    hide OrdersOk, IdsOk, KnownSymbols, BracketsOk, PositionsOk, OrderRowsOk, PositionRowsOk, LogOk, OrdersOnGrid;
  }

  lemma StepKeepsGood(cfg: Config, st: State, b: Books, ev: Event)
    requires Good(cfg, st, b) && Enabled(st, ev)
    ensures Good(cfg, Step(cfg, st, ev), NextBooks(cfg, st, b, ev))
    ensures Frozen(st.db.orders, Step(cfg, st, ev).db.orders)
  {
    match ev {
      case SubmitOrder(env, cmd) =>
        hide Submit, Good;
        GoodIgnoresClock(cfg, st, b, env);
        SubmitKeepsGood(cfg, AtTime(st, env), b, env, cmd);
      case CancelOrder(id) =>
        hide Good, CancelOrderAt;
        if FindOrder(st.orders, id) < |st.orders| {
          CancelOrderKeepsGood(cfg, st, b, FindOrder(st.orders, id));
        }
      case CancelAllOrders(symbol) =>
        hide Good, CancelMatching;
        CancelMatchingKeepsGood(cfg, st, b, if symbol.Some? && symbol.value != "" then OnSymbol(symbol.value) else AllOrders);
      case MarketTick(env, u) =>
        hide Good, OnMarket;
        GoodIgnoresClock(cfg, st, b, env);
        OnMarketKeepsGood(cfg, AtTime(st, env), b, env, u);
      case Funding(env) =>
        hide Good, FundFirst, Book;
        FundFirstKeepsGood(cfg, st, b, Book(st, env), |st.positions|);
      case Adjust(delta) =>
        hide Good;
        AdjustKeepsGood(cfg, st, b, delta);
      case Reset(start, env) =>
        hide Good, ResetAccount;
        ResetKeepsGood(cfg, st, b, start, env);
      case Restart(load, env) =>
        hide Good, BooksAfterRestart;
        RestartKeepsGood(cfg, st, b, load, env.utcDay);
    }
  }

  ghost function BooksAfter(cfg: Config, utcDay: int, evs: seq<Event>): Books {
    if evs == [] then EmptyBooks(cfg, cfg.startingUsdt)
    else
      var n := |evs| - 1;
      NextBooks(cfg, After(cfg, utcDay, evs[..n]), BooksAfter(cfg, utcDay, evs[..n]), evs[n])
  }

  /** The invariant holds after every feasible run: orders, fills, restarts, resets, in any order. */
  lemma {:induction false} RunsAreGood(cfg: Config, utcDay: int, evs: seq<Event>)
    requires Feasible(cfg, utcDay, evs)
    ensures Good(cfg, After(cfg, utcDay, evs), BooksAfter(cfg, utcDay, evs))
  {
    if evs != [] {
      var n := |evs| - 1;
      RunsAreGood(cfg, utcDay, evs[..n]);
      hide Good, Step, Enabled, NextBooks;
      StepKeepsGood(cfg, After(cfg, utcDay, evs[..n]), BooksAfter(cfg, utcDay, evs[..n]), evs[n]);
    }
  }
}
