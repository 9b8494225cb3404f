/** What the broker makes of a command, of a market update, of a cancellation and of a reset. */
module AccountRules {
  import opened Prelude
  import opened Decimal
  import opened BrokerTypes
  import opened PositionMath
  import opened BrokerSpec
  import opened BrokerInvariants
  import opened BrokerRuns
  import opened FundingTheorems

  // ----- what is ordered -----

  predicate Multiple(x: real, step: Positive, n: int) {
    x == n as real * step
  }

  /** q is the largest multiple of the step that is not above x. */
  ghost predicate MostSteps(q: real, x: real, step: Positive) {
    q <= x < q + step && exists n :: Multiple(q, step, n)
  }

  lemma UnitsAre(x: real, step: Positive)
    ensures Units(x / step, step) == x && Units(1.0, step) == step && Units(0.5, step) == step / 2.0
  {
    DivideBack(x, step);
  }

  lemma RoundStepIs(x: real, step: Positive)
    ensures MostSteps(RoundStep(x, step), x, step)
  {
    var y, n := x / step, (x / step).Floor;
    assert RoundStep(x, step) == Units(n as real, step);
    assert Multiple(RoundStep(x, step), step, n);
    hide Units, RoundStep, Multiple;
    UnitsAre(x, step);
    UnitsOrder(n as real, y, step);
    UnitsOrder(n as real + 1.0, y, step);
    UnitsSum(n as real, 1.0, step);
  }

  /** The order is for as many lot steps as fit the quantity asked for and, when it may only reduce, the open position. */
  lemma OrderedQuantityIs(cfg: Config, st: State, cmd: OrderCommand)
    ensures var open := Abs(QtyOf(st.positions, cmd.symbol));
      MostSteps(NewOrder(cfg, st, cmd).quantity, if cmd.reduceOnly && open < cmd.quantity then open else cmd.quantity,
                InstrumentOf(cfg, cmd.symbol).stepSize)
  {
    hide RoundStep, RoundTick, InstrumentOf, QtyOf;
    RoundStepIs(cmd.quantity, InstrumentOf(cfg, cmd.symbol).stepSize);
    RoundStepIs(Abs(QtyOf(st.positions, cmd.symbol)), InstrumentOf(cfg, cmd.symbol).stepSize);
  }

  /** r is a multiple of the tick, at most half a tick from x. */
  ghost predicate NearestTick(r: real, x: real, tick: Positive) {
    2.0 * Abs(r - x) <= tick && exists n :: Multiple(r, tick, n)
  }

  lemma RoundTickIs(x: real, tick: Positive)
    ensures NearestTick(RoundTick(x, tick), x, tick)
  {
    var y, n := x / tick, RoundHalfUp(x / tick);
    assert RoundTick(x, tick) == Units(n as real, tick);
    assert Multiple(RoundTick(x, tick), tick, n);
    assert -0.5 <= n as real - y <= 0.5;
    hide Units, RoundTick, Multiple, RoundHalfUp;
    UnitsAre(x, tick);
    UnitsOrder(n as real - y, 0.5, tick);
    UnitsOrder(y - n as real, 0.5, tick);
    UnitsSum(n as real, y, tick);
    UnitsSum(y, n as real, tick);
  }

  /** Both prices of an order are the nearest ticks to those asked for, and absent when these are. */
  lemma OrderedPricesAre(cfg: Config, st: State, cmd: OrderCommand)
    ensures var o, tick := NewOrder(cfg, st, cmd), InstrumentOf(cfg, cmd.symbol).tickSize;
      && (o.limitPrice.Some? <==> cmd.price.Some?) && (o.stopPrice.Some? <==> cmd.stopPrice.Some?)
      && (cmd.price.Some? ==> NearestTick(o.limitPrice.value, cmd.price.value, tick))
      && (cmd.stopPrice.Some? ==> NearestTick(o.stopPrice.value, cmd.stopPrice.value, tick))
  {
    hide RoundStep, RoundTick, InstrumentOf, QtyOf, NearestTick;
    if cmd.price.Some? {
      RoundTickIs(cmd.price.value, InstrumentOf(cfg, cmd.symbol).tickSize);
    }
    if cmd.stopPrice.Some? {
      RoundTickIs(cmd.stopPrice.value, InstrumentOf(cfg, cmd.symbol).tickSize);
    }
  }

  // ----- market data -----

  predicate TooOld(cfg: Config, env: Env, m: Market) {
    m.stale || env.nowMs > m.localTs + cfg.risk.staleMarketMaxAgeMs
  }

  /** The order stored as rejected, and nothing else. */
  function StoredRefused(st: State, o: Order, reason: string): State {
    var refused := o.(status := REJECTED, rejectReason := Some(reason));
    st.(orders := st.orders + [refused], nextId := st.nextId + 1, db := st.db.(orders := st.db.orders[o.id := refused]))
  }

  lemma UnfitSubmission(cfg: Config, st: State, env: Env, cmd: OrderCommand)
    requires cmd.symbol in cfg.instruments
    ensures var book, o, r := st.markets + env.external, NewOrder(cfg, st, cmd), Submit(cfg, st, env, cmd);
      && (cmd.symbol !in book ==> r == StoredRefused(st, o, "NO_MARKET_STATE"))
      && (cmd.symbol in book && TooOld(cfg, env, book[cmd.symbol]) ==> r == StoredRefused(st, o, "STALE_MARKET_DATA"))
  {
    var o := NewOrder(cfg, st, cmd);
    assert o.symbol == cmd.symbol;
    hide NewOrder, RiskReason, Follow, RouteOf, RollDay, RejectOrder;
    RejectPlaced(st, o, "NO_MARKET_STATE");
    RejectPlaced(st, o, "STALE_MARKET_DATA");
  }

  /** An order without market data, or with data that is marked stale or older than allowed, is stored as rejected, and
      nothing else happens. */
  lemma UnfitMarketRefused(cfg: Config, st: State, env: Env, cmd: OrderCommand)
    requires cmd.symbol in cfg.instruments
    ensures var book, o := st.markets + env.external, NewOrder(cfg, st, cmd);
      var r := Step(cfg, st, SubmitOrder(env, cmd));
      && (cmd.symbol !in book ==> r == StoredRefused(AtTime(st, env), o, "NO_MARKET_STATE"))
      && (cmd.symbol in book && TooOld(cfg, env, book[cmd.symbol]) ==>
            r == StoredRefused(AtTime(st, env), o, "STALE_MARKET_DATA"))
  {
    hide Submit, ClampedQuantity, RoundedPrice, StoredRefused, TooOld;
    assert NewOrder(cfg, AtTime(st, env), cmd) == NewOrder(cfg, st, cmd);
    hide NewOrder;
    UnfitSubmission(cfg, AtTime(st, env), env, cmd);
  }

  /** The field of the update when it has one, else what was known. */
  predicate Updated(after: Option<real>, update: Option<real>, before: Option<real>) {
    after == match update case Some(x) => Some(x) case None => before
  }

  /** A market update replaces the fields it names, keeps the others, stamps the market fresh at the current time, and
      leaves every other symbol's alone, whatever it then causes to be matched or liquidated. */
  lemma TickUpdates(cfg: Config, st: State, env: Env, u: MarketUpdate)
    requires u.symbol in cfg.instruments
    ensures var ms := Step(cfg, st, MarketTick(env, u)).markets;
      && u.symbol in ms
      && (var m := ms[u.symbol];
          var known := if u.symbol in st.markets then st.markets[u.symbol] else Market(None, None, None, None, None, 0, false);
          && Updated(m.bid, u.bid, known.bid) && Updated(m.ask, u.ask, known.ask) && Updated(m.last, u.last, known.last)
          && Updated(m.mark, u.mark, known.mark) && Updated(m.fundingRate, u.fundingRate, known.fundingRate)
          && m.localTs == env.nowMs && !m.stale)
      && (forall s :: s != u.symbol ==> ((s in ms <==> s in st.markets) && (s in ms ==> ms[s] == st.markets[s])))
  {
    var s := WithMarket(AtTime(st, env), env, u);
    var m := Book(s, env)[u.symbol];
    var t := EvaluateFrom(cfg, s, 0, u.symbol, m);
    MatchingLeaves(cfg, s, 0, u.symbol, m);
    LiquidatingLeaves(cfg, t.(liquidations := t.liquidations + 1), Book(s, env), |t.positions|);
    hide EvaluateFrom, LiquidateFirst, MustLiquidate;
    assert Step(cfg, st, MarketTick(env, u)).markets == s.markets;
  }

  // ----- cancellation and reset -----

  /** The cancellation names no symbol, or the empty one, or this one. */
  predicate Names(symbol: Option<Symbol>, s: Symbol) {
    symbol == None || symbol == Some("") || symbol == Some(s)
  }

  function Cancelled(o: Order): Order {
    if o.Live() then o.(status := CANCELED) else o
  }

  /** Cancelling everything cancels the live orders of the symbol named, or all of them, and changes nothing else. */
  lemma CancelAllCancels(cfg: Config, st: State, symbol: Option<Symbol>)
    ensures var r := Step(cfg, st, CancelAllOrders(symbol));
      && |r.orders| == |st.orders|
      && (forall k :: 0 <= k < |st.orders| ==>
            r.orders[k] == (if Names(symbol, st.orders[k].symbol) then Cancelled(st.orders[k]) else st.orders[k]))
      && r == st.(orders := r.orders, db := st.db.(orders := r.db.orders))
  {
    hide Canceled, CanceledRows;
  }

  lemma CanceledRowsAre(st: State, id: nat)
    requires IdsOk(st.orders, st.fills, st.db.orders, st.nextId) && OrderRowsOk(st.db.orders, st.orders, -1)
    ensures var rows, r := st.db.orders, CanceledRows(st.db.orders, st.orders, AllOrders);
      && (id in r <==> id in rows)
      && (id in rows ==> r[id] == Cancelled(rows[id]))
  {
    CanceledRowIs(st.db.orders, st.orders, AllOrders, id);
    hide CanceledRows;
    if id in st.db.orders && st.db.orders[id].Live() {
      var k :| 0 <= k < |st.orders| && st.orders[k] == st.db.orders[id];
      FindOrderIs(st.orders, k);
    }
  }

  /** A reset of a reachable account leaves the balance asked for, or 10000, as wallet and as the day's start, nothing open,
      recorded or owed, and every saved order as it was, except that the live ones are cancelled. */
  lemma ResetEmpties(cfg: Config, utcDay: int, evs: seq<Event>, start: Option<real>, env: Env)
    requires Feasible(cfg, utcDay, evs)
    ensures var st := After(cfg, utcDay, evs);
      var r := Step(cfg, st, Reset(start, env));
      && r.orders == [] && r.positions == [] && r.fills == [] && r.db.funding == [] && r.db.positions == map[]
      && r.wallet == r.dayStartEquity == (match start case Some(x) => x case None => 10000.0)
      && r.totalFees == r.totalFunding == r.totalRealizedPnl == 0.0 && r.liquidations == 0 && r.markets == st.markets
      && r.db.orders.Keys == st.db.orders.Keys
      && (forall id :: id in st.db.orders ==> r.db.orders[id] == Cancelled(st.db.orders[id]))
  {
    var st := After(cfg, utcDay, evs);
    hide After, Feasible, OrdersOk, IdsOk, KnownSymbols, BracketsOk, PositionsOk, OrderRowsOk, PositionRowsOk, LogOk, LedgerOk,
      OrdersOnGrid, CanceledRows, Canceled;
    RunsAreGood(cfg, utcDay, evs);
    forall id ensures var rows, r := st.db.orders, CanceledRows(st.db.orders, st.orders, AllOrders);
      && (id in r <==> id in rows)
      && (id in rows ==> r[id] == Cancelled(rows[id]))
    {
      CanceledRowsAre(st, id);
    }
  }
}
