/** What an execution costs: the price against the quotes, and the fee. */
module FillPrices {
  import opened Prelude
  import opened Decimal
  import opened BrokerTypes
  import opened PositionMath
  import opened BrokerSpec
  import opened BrokerInvariants
  import opened BrokerRuns
  import opened BrokerTheorems
  import opened Triggers

  // ----- one fill -----

  /** The quote a taker on this side faces: the ask for a buy and the bid for a sell, else the last price, else the mark. */
  predicate Faces(side: Side, m: Market, quote: real) {
    var own := if side == BUY then m.ask else m.bid;
    if own != None then own == Some(quote) else if m.last != None then m.last == Some(quote) else m.mark == Some(quote)
  }

  /** The quote moved against the taker by bps basis points of itself. */
  predicate Slipped(side: Side, quote: real, bps: real, price: real) {
    if side == BUY then price == quote + quote * bps / 10000.0 else price == quote - quote * bps / 10000.0
  }

  ghost predicate TakenAt(cfg: Config, side: Side, m: Market, price: real) {
    exists quote :: Faces(side, m, quote) && quote > 0.0 && Slipped(side, quote, cfg.marketSlippageBps, price)
  }

  /** Slippage only ever worsens the price. */
  lemma NeverBetterThanQuote(cfg: Config, side: Side, m: Market, price: real)
    requires TakenAt(cfg, side, m, price) && cfg.marketSlippageBps >= 0.0
    ensures forall quote :: Faces(side, m, quote) ==> if side == BUY then price >= quote else price <= quote
  {
    var quote :| Faces(side, m, quote) && quote > 0.0 && Slipped(side, quote, cfg.marketSlippageBps, price);
    assert quote * cfg.marketSlippageBps >= 0.0;
  }

  /** Quantity times price times the rate of the liquidity. */
  predicate FeeCharged(cfg: Config, f: Fill) {
    f.fee == f.quantity * f.price * match f.liquidity case MAKER => cfg.makerFeeRate case TAKER => cfg.takerFeeRate
  }

  /** f is the execution of order o against m: the whole quantity; for a limit order at its side's own quote, otherwise at
      the slipped quote. */
  ghost predicate ExecutionOf(cfg: Config, o: Order, m: Market, liquidity: Liquidity, f: Fill) {
    && f.orderId == o.id && f.symbol == o.symbol && f.side == o.side && f.quantity == o.quantity
    && f.liquidity == liquidity && FeeCharged(cfg, f) && f.price > 0.0
    && (if o.typ == LIMIT then (if o.side == BUY then m.ask else m.bid) == Some(f.price)
        else TakenAt(cfg, o.side, m, f.price))
  }

  lemma ExecutionPriceIs(cfg: Config, o: Order, m: Market)
    requires Priced(cfg, o, m) && (o.typ == LIMIT ==> LimitMarketable(o, m))
    ensures var price := ExecutionPrice(cfg, o, m).value;
      if o.typ == LIMIT then (if o.side == BUY then m.ask else m.bid) == Some(price)
      else TakenAt(cfg, o.side, m, price)
  {
    if o.typ != LIMIT {
      var quote := OrElse(if o.side == BUY then m.ask else m.bid, OrElse(m.last, m.mark)).value;
      var bps, price := cfg.marketSlippageBps, ExecutionPrice(cfg, o, m).value;
      SlippageIs(quote, bps);
      assert Faces(o.side, m, quote) && Slipped(o.side, quote, bps, price);
    }
  }

  lemma SlippageIs(quote: real, bps: real)
    ensures quote * (1.0 + bps / 10000.0) == quote + quote * bps / 10000.0
    ensures quote * (1.0 - bps / 10000.0) == quote - quote * bps / 10000.0
  {
    var s := bps / 10000.0;
    assert quote * bps / 10000.0 == quote * s;
  }

  lemma FillAtIs(cfg: Config, st: State, i: nat, price: real, liquidity: Liquidity)
    requires i < |st.orders|
    ensures var o, f := st.orders[i], FillAt(cfg, st, i, price, liquidity);
      && f.orderId == o.id && f.symbol == o.symbol && f.side == o.side && f.quantity == o.quantity && f.price == price
      && f.liquidity == liquidity && FeeCharged(cfg, f)
  {
    hide NewQty, RealizedBy, PositionBefore;
  }

  /** Filling a live order that is ready adds one execution of it, or, without a positive price, nothing. */
  lemma FillOrderExecutes(cfg: Config, st: State, i: nat, m: Market, liquidity: Liquidity)
    requires i < |st.orders| && OrderOk(st.orders[i], st.fills) && ReadyToFill(st.orders[i], m)
    ensures var o, r := st.orders[i], FillOrder(cfg, st, i, m, liquidity);
      if Priced(cfg, o, m)
      then |r.fills| == |st.fills| + 1 && r.fills[..|st.fills|] == st.fills && ExecutionOf(cfg, o, m, liquidity, r.fills[|st.fills|])
      else r.fills == st.fills
  {
    var o := st.orders[i];
    if Priced(cfg, o, m) {
      var price := ExecutionPrice(cfg, o, m).value;
      ExecutionPriceIs(cfg, o, m);
      hide ExecutionPrice, FillOrder, Filled, FillAt, TakenAt, LimitMarketable, OrderOk, FeeCharged;
      assert o.quantity > 0.0 && o.filledQty == 0.0 by { LiveIsWhole(o, st.fills); }
      FillOrderIsFilled(cfg, st, i, m, liquidity);
      FilledMoneyIs(cfg, st, i, price, liquidity);
      FillAtIs(cfg, st, i, price, liquidity);
    } else {
      hide ExecutionPrice;
    }
  }

  lemma LiveIsWhole(o: Order, fs: seq<Fill>)
    requires OrderOk(o, fs) && o.Live()
    ensures o.quantity > 0.0 && o.filledQty == 0.0
  {
  }

  // ----- fills of a run -----

  /** In any run and at any order of a tick's loop: the loop adds nothing for that order, or one execution of it at the
      quotes of the tick, a resting limit order as maker and a stop or take-profit as taker. */
  lemma TickExecutes(cfg: Config, utcDay: int, evs: seq<Event>, env: Env, u: MarketUpdate, n: nat)
    requires Feasible(cfg, utcDay, evs) && n < |After(cfg, utcDay, evs).orders|
    ensures var st, m := After(cfg, utcDay, evs), TickMarket(After(cfg, utcDay, evs), env, u);
      var s := Reaching(cfg, st, env, u, n);
      var o, r := s.orders[n], EvaluateOrder(cfg, s, n, u.symbol, m);
      r.fills == s.fills ||
      (&& |r.fills| == |s.fills| + 1 && r.fills[..|s.fills|] == s.fills && o.symbol == u.symbol
       && ExecutionOf(cfg, o, m, if o.typ == LIMIT then MAKER else TAKER, r.fills[|s.fills|]))
  {
    var st, m := After(cfg, utcDay, evs), TickMarket(After(cfg, utcDay, evs), env, u);
    hide After, Feasible, Reaching, StopTriggered, LimitMarketable, TickMarket, IdsOk, KnownSymbols, BracketsOk, ExecutionOf,
      PositionsOk, OrderRowsOk, PositionRowsOk, LogOk, LedgerOk, OrdersOnGrid, OrderOk, FillOrder, Priced;
    ReachingIsGood(cfg, utcDay, evs, env, u, n);
    var s := Reaching(cfg, st, env, u, n);
    var o := s.orders[n];
    if o.symbol == u.symbol && o.Live() && (if o.typ == LIMIT then LimitMarketable(o, m) else o.IsStop() && StopTriggered(o, m)) {
      FillOrderExecutes(cfg, s, n, m, if o.typ == LIMIT then MAKER else TAKER);
    }
  }

  /** A submitted order adds nothing, or one taker execution of itself at the quotes it was submitted against. */
  lemma SubmissionExecutes(cfg: Config, utcDay: int, evs: seq<Event>, env: Env, cmd: OrderCommand)
    requires Feasible(cfg, utcDay, evs)
    ensures var st := After(cfg, utcDay, evs);
      var r := Step(cfg, st, SubmitOrder(env, cmd));
      r.fills == st.fills ||
      (&& |r.fills| == |st.fills| + 1 && r.fills[..|st.fills|] == st.fills && cmd.symbol in st.markets + env.external
       && ExecutionOf(cfg, NewOrder(cfg, st, cmd), (st.markets + env.external)[cmd.symbol], TAKER, r.fills[|st.fills|]))
  {
    var st := After(cfg, utcDay, evs);
    var t := AtTime(st, env);
    hide After, Feasible, Submit, RouteOf, Admitted, Follow, ClampedQuantity, RoundedPrice, QtyOf, RollDay, Place, ExecutionOf,
      OrderOk;
    IdsInRuns(cfg, utcDay, evs, env);
    assert NewOrder(cfg, t, cmd) == NewOrder(cfg, st, cmd);
    if Admitted(cfg, t, env, cmd) {
      AdmittedIs(cfg, t, env, cmd);
      NewOrderOk(cfg, t, env, cmd);
      var o := NewOrder(cfg, t, cmd);
      hide NewOrder;
      FollowExecutes(cfg, RollDay(Place(t, o), env), |t.orders|, Book(t, env)[cmd.symbol]);
    } else {
      RefusedAddsNothing(cfg, t, env, cmd);
    }
  }

  lemma FollowExecutes(cfg: Config, s: State, i: nat, m: Market)
    requires i < |s.orders| && OrderOk(s.orders[i], s.fills) && s.orders[i].status == NEW
    ensures var o, r := s.orders[i], Follow(cfg, s, i, m, RouteOf(s.orders[i], m));
      r.fills == s.fills ||
      (|r.fills| == |s.fills| + 1 && r.fills[..|s.fills|] == s.fills && ExecutionOf(cfg, o, m, TAKER, r.fills[|s.fills|]))
  {
    hide FillOrder, OrderOk, ExecutionOf, Priced;
    if RouteOf(s.orders[i], m) == FillNow {
      FillOrderExecutes(cfg, s, i, m, TAKER);
    }
  }

  lemma RefusedAddsNothing(cfg: Config, st: State, env: Env, cmd: OrderCommand)
    requires !Admitted(cfg, st, env, cmd)
    ensures Submit(cfg, st, env, cmd).fills == st.fills
  {
    hide RiskReason, Follow, RouteOf, Equity, ClampedQuantity, RoundedPrice, Stale;
  }

  // ----- there and back -----

  /** A market order of this side for quantity d, not yet executed. */
  predicate Waits(o: Order, side: Side, symbol: Symbol, d: real) {
    o.typ == MARKET && o.side == side && o.symbol == symbol && o.quantity == d && o.filledQty == 0.0 && o.status == NEW
  }

  function Other(side: Side): Side {
    if side == BUY then SELL else BUY
  }

  /** The price a market order of this side executes at. */
  function TakerPrice(cfg: Config, side: Side, ask: real, bid: real): real {
    if side == BUY then ask + ask * cfg.marketSlippageBps / 10000.0 else bid - bid * cfg.marketSlippageBps / 10000.0
  }

  lemma MarketPriceIs(cfg: Config, o: Order, m: Market)
    requires o.typ == MARKET && m.ask.Some? && m.bid.Some? && m.ask.value > 0.0 && m.bid.value > 0.0
    ensures ExecutionPrice(cfg, o, m) == Some(TakerPrice(cfg, o.side, m.ask.value, m.bid.value))
  {
    var quote := if o.side == BUY then m.ask.value else m.bid.value;
    var price := ExecutionPrice(cfg, o, m);
    SlippageIs(quote, cfg.marketSlippageBps);
    assert price.Some? && price.value == TakerPrice(cfg, o.side, m.ask.value, m.bid.value);
  }

  function FeeOn(cfg: Config, d: real, x: real): real {
    d * x * cfg.takerFeeRate
  }

  /** What d units taken at x are worth at y. */
  function Difference(side: Side, d: real, x: real, y: real): real {
    SignedQty(side, d) * (y - x)
  }

  /** Taking d units from flat: the fee is paid, and the position stands at the execution price. */
  lemma Opening(cfg: Config, st: State, i: nat, m: Market, side: Side, symbol: Symbol, d: real, x: real)
    requires i < |st.orders| && Waits(st.orders[i], side, symbol, d) && d > 0.0 && x > 0.0
    requires DistinctSymbols(st.positions) && QtyOf(st.positions, symbol) == 0.0
    requires OnGrid(d, InstrumentOf(cfg, symbol).quantityPrecision)
    requires ExecutionPrice(cfg, st.orders[i], m) == Some(x)
    ensures var r := FillOrder(cfg, st, i, m, TAKER);
      var k := FindPosition(r.positions, symbol);
      && r.wallet == st.wallet - FeeOn(cfg, d, x)
      && DistinctSymbols(r.positions) && k < |r.positions|
      && r.positions[k].qty == SignedQty(side, d) && r.positions[k].entryPrice == x
      && |r.orders| == |st.orders|
      && (forall j :: 0 <= j < |st.orders| && j != i && st.orders[j].typ == MARKET ==> r.orders[j] == st.orders[j])
  {
    var f, p := FillAt(cfg, st, i, x, TAKER), PositionAt(cfg, st, i, x, TAKER);
    hide FillOrder, ExecutionPrice, Filled, FillAt, PositionAt, PutPosition, Executed, OnGrid, SameTerms, AfterBracketSweep, Swept, FeeOn;
    FillOrderIsFilled(cfg, st, i, m, TAKER);
    FilledMoneyIs(cfg, st, i, x, TAKER);
    FilledOrdersAre(cfg, st, i, x, TAKER);
    OpeningFill(cfg, st, i, side, symbol, d, x);
    PutPositionQty(st.positions, p, symbol);
    PutAt(st.positions, p);
    forall j | 0 <= j < |st.orders| && st.orders[j].typ == MARKET ensures Swept(f, st.orders[j]) == st.orders[j] {
      MarketsAreNotSwept(f, st.orders[j]);
    }
  }

  lemma MarketsAreNotSwept(f: Fill, o: Order)
    requires o.typ == MARKET
    ensures Swept(f, o) == o
  {
  }

  lemma TakerFeeIs(cfg: Config, d: real, x: real)
    ensures FeeFor(cfg, d, x, TAKER) == FeeOn(cfg, d, x)
  {
  }

  lemma OpeningFill(cfg: Config, st: State, i: nat, side: Side, symbol: Symbol, d: real, x: real)
    requires i < |st.orders| && Waits(st.orders[i], side, symbol, d) && d > 0.0
    requires QtyOf(st.positions, symbol) == 0.0 && OnGrid(d, InstrumentOf(cfg, symbol).quantityPrecision)
    ensures var f, p := FillAt(cfg, st, i, x, TAKER), PositionAt(cfg, st, i, x, TAKER);
      && f.fee == FeeOn(cfg, d, x) && f.realizedPnl == 0.0
      && p.symbol == symbol && p.qty == SignedQty(side, d) && p.entryPrice == x
  {
    var before, ins := PositionBefore(cfg, st, st.orders[i]), InstrumentOf(cfg, symbol);
    assert before.qty == 0.0;
    hide NewQty, OnGrid, AveragedEntry, InstrumentOf, PositionBefore, FeeFor, FeeOn;
    ZeroIsOnGrid(ins.quantityPrecision);
    NewQtyExact(before, Trade(side, d, x), ins);
    assert NewQty(before.qty, side, d, ins) == SignedQty(side, d);
    TakerFeeIs(cfg, d, x);
  }

  /** Giving the d units back: the fee is paid and the price difference realized, and the position is flat again. */
  lemma Closing(cfg: Config, st: State, i: nat, m: Market, side: Side, symbol: Symbol, d: real, x: real, entry: real)
    requires i < |st.orders| && Waits(st.orders[i], Other(side), symbol, d) && d > 0.0 && x > 0.0
    requires DistinctSymbols(st.positions) && FindPosition(st.positions, symbol) < |st.positions|
    requires var p := st.positions[FindPosition(st.positions, symbol)]; p.qty == SignedQty(side, d) && p.entryPrice == entry
    requires ExecutionPrice(cfg, st.orders[i], m) == Some(x)
    ensures var r := FillOrder(cfg, st, i, m, TAKER);
      && r.wallet == st.wallet - FeeOn(cfg, d, x) + Difference(side, d, entry, x)
      && QtyOf(r.positions, symbol) == 0.0
  {
    var p := PositionAt(cfg, st, i, x, TAKER);
    hide FillOrder, ExecutionPrice, Filled, FillAt, PositionAt, PutPosition, FeeOn, Difference;
    FillOrderIsFilled(cfg, st, i, m, TAKER);
    FilledMoneyIs(cfg, st, i, x, TAKER);
    ClosingFill(cfg, st, i, side, symbol, d, x);
    PutPositionQty(st.positions, p, symbol);
  }

  lemma ClosingFill(cfg: Config, st: State, i: nat, side: Side, symbol: Symbol, d: real, x: real)
    requires i < |st.orders| && Waits(st.orders[i], Other(side), symbol, d) && d > 0.0
    requires FindPosition(st.positions, symbol) < |st.positions|
    requires st.positions[FindPosition(st.positions, symbol)].qty == SignedQty(side, d)
    ensures var f, p := FillAt(cfg, st, i, x, TAKER), PositionAt(cfg, st, i, x, TAKER);
      var before := st.positions[FindPosition(st.positions, symbol)];
      && f.fee == FeeOn(cfg, d, x) && f.realizedPnl == Difference(side, d, before.entryPrice, x)
      && p.symbol == symbol && p.qty == 0.0
  {
    var before := st.positions[FindPosition(st.positions, symbol)];
    hide NewQty, FillPosition, RealizedBy, InstrumentOf;
    assert Abs(before.qty) == d;
    CloseFill(before, x, st.orders[i].leverage, InstrumentOf(cfg, symbol), st.clock);
    PositionAtIs(cfg, st, i, x, TAKER);
    TakerFeeIs(cfg, d, x);
  }

  /** Spread, slippages and fees of taking d units and giving them back. */
  function RoundTripCost(cfg: Config, d: real, ask: real, bid: real): real {
    var slip := cfg.marketSlippageBps / 10000.0;
    d * (ask - bid) + d * (slip * ask + slip * bid) + d * ((ask + slip * ask) + (bid - slip * bid)) * cfg.takerFeeRate
  }

  /** Taking d units and giving them back at unchanged quotes, whichever way round, loses exactly the spread, both
      slippages and both fees. */
  lemma RoundTripCosts(cfg: Config, st: State, i: nat, j: nat, m: Market, side: Side, symbol: Symbol, d: real)
    requires i < |st.orders| && j < |st.orders| && i != j && d > 0.0
    requires Waits(st.orders[i], side, symbol, d) && Waits(st.orders[j], Other(side), symbol, d)
    requires DistinctSymbols(st.positions) && QtyOf(st.positions, symbol) == 0.0
    requires OnGrid(d, InstrumentOf(cfg, symbol).quantityPrecision)
    requires m.ask.Some? && m.bid.Some? && m.ask.value > 0.0 && m.bid.value > 0.0
    requires -10000.0 < cfg.marketSlippageBps < 10000.0
    ensures var there := FillOrder(cfg, st, i, m, TAKER);
      |there.orders| == |st.orders| &&
      var back := FillOrder(cfg, there, j, m, TAKER);
      && QtyOf(back.positions, symbol) == 0.0
      && st.wallet - back.wallet == RoundTripCost(cfg, d, m.ask.value, m.bid.value)
  {
    var ask, bid := m.ask.value, m.bid.value;
    var x, y := TakerPrice(cfg, side, ask, bid), TakerPrice(cfg, Other(side), ask, bid);
    TakerPricesPositive(cfg, ask, bid);
    MarketPriceIs(cfg, st.orders[i], m);
    MarketPriceIs(cfg, st.orders[j], m);
    CostIs(cfg, side, d, ask, bid);
    hide FillOrder, ExecutionPrice, OnGrid, QtyOf, DistinctSymbols, TakerPrice, InstrumentOf, RoundTripCost, FeeOn, Difference;
    Opening(cfg, st, i, m, side, symbol, d, x);
    Closing(cfg, FillOrder(cfg, st, i, m, TAKER), j, m, side, symbol, d, y, x);
  }

  lemma TakerPricesPositive(cfg: Config, ask: real, bid: real)
    requires ask > 0.0 && bid > 0.0 && -10000.0 < cfg.marketSlippageBps < 10000.0
    ensures TakerPrice(cfg, BUY, ask, bid) > 0.0 && TakerPrice(cfg, SELL, ask, bid) > 0.0
  {
    var slip := cfg.marketSlippageBps / 10000.0;
    SlippageIs(ask, cfg.marketSlippageBps);
    SlippageIs(bid, cfg.marketSlippageBps);
    assert ask * (1.0 + slip) > 0.0 && bid * (1.0 - slip) > 0.0;
  }

  lemma CostIs(cfg: Config, side: Side, d: real, ask: real, bid: real)
    ensures var x, y := TakerPrice(cfg, side, ask, bid), TakerPrice(cfg, Other(side), ask, bid);
      FeeOn(cfg, d, x) + FeeOn(cfg, d, y) - Difference(side, d, x, y) == RoundTripCost(cfg, d, ask, bid)
  {
    var slip := cfg.marketSlippageBps / 10000.0;
    var up, down := ask + slip * ask, bid - slip * bid;
    assert ask * cfg.marketSlippageBps / 10000.0 == slip * ask && bid * cfg.marketSlippageBps / 10000.0 == slip * bid;
    assert TakerPrice(cfg, BUY, ask, bid) == up && TakerPrice(cfg, SELL, ask, bid) == down;
    FeesAdd(d, up, down, cfg.takerFeeRate);
    assert d * (up - down) == d * (ask - bid) + d * (slip * ask + slip * bid);
  }

  lemma FeesAdd(d: real, x: real, y: real, rate: real)
    ensures d * x * rate + d * y * rate == d * (x + y) * rate
  {
    assert d * (x + y) == d * x + d * y;
  }

  // ----- every fee of a run -----

  ghost predicate AllFees(cfg: Config, fs: seq<Fill>) {
    forall k :: 0 <= k < |fs| ==> FeeCharged(cfg, fs[k])
  }

  lemma ExecuteFillCharges(cfg: Config, st: State, i: nat, quantity: real, price: real, liquidity: Liquidity)
    requires i < |st.orders| && AllFees(cfg, st.fills)
    ensures AllFees(cfg, ExecuteFill(cfg, st, i, quantity, price, liquidity).fills)
  {
    hide NewQty, RealizedBy, PositionBefore, PositionAfter, AverageWith;
  }

  lemma FillOrderCharges(cfg: Config, st: State, i: nat, m: Market, liquidity: Liquidity)
    requires i < |st.orders| && AllFees(cfg, st.fills)
    ensures AllFees(cfg, FillOrder(cfg, st, i, m, liquidity).fills)
  {
    hide ExecutionPrice, ExecuteFill, AllFees;
    var o := st.orders[i];
    if o.quantity - o.filledQty > 0.0 && Priced(cfg, o, m) {
      ExecuteFillCharges(cfg, st, i, o.quantity - o.filledQty, ExecutionPrice(cfg, o, m).value, liquidity);
    }
  }

  lemma {:induction false} EvaluateCharges(cfg: Config, st: State, i: nat, symbol: Symbol, m: Market)
    requires i <= |st.orders| && AllFees(cfg, st.fills)
    ensures AllFees(cfg, EvaluateFrom(cfg, st, i, symbol, m).fills)
    decreases |st.orders| - i
  {
    hide FillOrder, LimitMarketable, StopTriggered, AllFees;
    if i < |st.orders| {
      FillOrderCharges(cfg, st, i, m, MAKER);
      FillOrderCharges(cfg, st, i, m, TAKER);
      EvaluateCharges(cfg, EvaluateOrder(cfg, st, i, symbol, m), i + 1, symbol, m);
    }
  }

  lemma {:induction false} LiquidationCharges(cfg: Config, st: State, book: map<Symbol, Market>, n: nat)
    requires n <= |st.positions| && AllFees(cfg, st.fills)
    ensures AllFees(cfg, LiquidateFirst(cfg, st, book, n).fills)
  {
    hide ExecuteFill, AllFees;
    if n > 0 {
      LiquidationCharges(cfg, st, book, n - 1);
      var s := LiquidateFirst(cfg, st, book, n - 1);
      var p := s.positions[n - 1];
      if Liquidatable(book, p) {
        var o := LiquidationOrder(s, p);
        ExecuteFillCharges(cfg, s.(orders := s.orders + [o], nextId := s.nextId + 1), |s.orders|, o.quantity,
                           book[p.symbol].mark.value, TAKER);
      }
    }
  }

  lemma {:induction false} FundingAddsNoFills(st: State, book: map<Symbol, Market>, n: nat)
    requires n <= |st.positions|
    ensures FundFirst(st, book, n).fills == st.fills
  {
    if n > 0 {
      FundingAddsNoFills(st, book, n - 1);
    }
  }

  lemma SubmitCharges(cfg: Config, st: State, env: Env, cmd: OrderCommand)
    requires AllFees(cfg, st.fills)
    ensures AllFees(cfg, Submit(cfg, st, env, cmd).fills)
  {
    if Admitted(cfg, st, env, cmd) {
      var o, m := NewOrder(cfg, st, cmd), Book(st, env)[cmd.symbol];
      hide Admitted, RouteOf, FillOrder, AllFees, Submit, NewOrder, RollDay, Place;
      AdmittedIs(cfg, st, env, cmd);
      FillOrderCharges(cfg, RollDay(Place(st, o), env), |st.orders|, m, TAKER);
    } else {
      hide Admitted, Submit;
      RefusedAddsNothing(cfg, st, env, cmd);
    }
  }

  lemma StepCharges(cfg: Config, st: State, ev: Event)
    requires AllFees(cfg, st.fills) && Enabled(st, ev) && multiset(st.db.fills) == multiset(st.fills)
    ensures AllFees(cfg, Step(cfg, st, ev).fills)
  {
    match ev {
      case SubmitOrder(env, cmd) =>
        hide Submit, AllFees;
        SubmitCharges(cfg, AtTime(st, env), env, cmd);
      case CancelOrder(id) =>
      case CancelAllOrders(symbol) =>
      case MarketTick(env, u) =>
        hide EvaluateFrom, LiquidateFirst, MergedMarket, MustLiquidate, AllFees;
        if u.symbol in cfg.instruments {
          var s := WithMarket(AtTime(st, env), env, u);
          var t := EvaluateFrom(cfg, s, 0, u.symbol, Book(s, env)[u.symbol]);
          EvaluateCharges(cfg, s, 0, u.symbol, Book(s, env)[u.symbol]);
          LiquidationCharges(cfg, t.(liquidations := t.liquidations + 1), Book(s, env), |t.positions|);
        }
      case Funding(env) =>
        hide FundFirst;
        FundingAddsNoFills(st, Book(st, env), |st.positions|);
      case Adjust(delta) =>
      case Reset(start, env) =>
      case Restart(load, env) =>
        ReloadedFees(cfg, st.fills, load.fills);
    }
  }

  lemma ReloadedFees(cfg: Config, fs: seq<Fill>, loaded: seq<Fill>)
    requires AllFees(cfg, fs) && multiset(loaded) == multiset(fs)
    ensures AllFees(cfg, loaded)
  {
    forall k | 0 <= k < |loaded| ensures FeeCharged(cfg, loaded[k]) {
      assert loaded[k] in multiset(fs);
    }
  }

  /** After every feasible run, each fill has paid quantity times price times the maker or taker rate. */
  lemma {:induction false} FeesAreCharged(cfg: Config, utcDay: int, evs: seq<Event>)
    requires Feasible(cfg, utcDay, evs)
    ensures AllFees(cfg, After(cfg, utcDay, evs).fills)
  {
    if evs != [] {
      var n := |evs| - 1;
      hide Step, AllFees, Enabled, OrdersOk, IdsOk, KnownSymbols, BracketsOk, PositionsOk, OrderRowsOk, PositionRowsOk, LogOk,
        OrdersOnGrid;
      FeesAreCharged(cfg, utcDay, evs[..n]);
      RunsAreGood(cfg, utcDay, evs[..n]);
      StepCharges(cfg, After(cfg, utcDay, evs[..n]), evs[n]);
    }
  }
}
