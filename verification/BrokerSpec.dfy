/** The paper broker as a state machine: one pure function per public call. */
module BrokerSpec {
  import opened Prelude
  import opened Decimal
  import opened BrokerTypes
  import opened PositionMath

  // ----- state -----

  /** The tables the broker writes and a restart reads back. */
  datatype Db = Db(
    orders: map<nat, Order>, positions: map<Symbol, Position>, fills: seq<Fill>,
    funding: seq<FundingPayment>)

  /** clock is the time the current call read; orders and positions are listed in insertion order, as a JavaScript Map iterates them. */
  datatype State = State(
    orders: seq<Order>, positions: seq<Position>, fills: seq<Fill>, markets: map<Symbol, Market>,
    wallet: real, totalFees: real, totalFunding: real, totalRealizedPnl: real, liquidations: nat,
    dayStartEquity: real, utcDay: int, nextId: nat, clock: int, db: Db)

  /** What a step reads from outside: the external market provider, the clock and the calendar day. */
  datatype Env = Env(external: map<Symbol, Market>, nowMs: int, utcDay: int)

  /** getMarket: the external provider wins over the broker's own copy. */
  function Book(st: State, env: Env): map<Symbol, Market> {
    st.markets + env.external
  }

  const DEFAULT_INSTRUMENT := Instrument(1.0, 1.0, 0.0, 0.0, 0, 0, 0.0)

  /** Total for convenience; KnownSymbols proves the default is never consulted. */
  function InstrumentOf(cfg: Config, symbol: Symbol): Instrument {
    if symbol in cfg.instruments then cfg.instruments[symbol] else DEFAULT_INSTRUMENT
  }

  function FindPosition(ps: seq<Position>, symbol: Symbol): (i: nat)
    ensures i <= |ps|
    ensures i < |ps| ==> ps[i].symbol == symbol
    ensures forall j :: 0 <= j < i ==> ps[j].symbol != symbol
  {
    if ps == [] then 0
    else
      var i := FindPosition(ps[..|ps| - 1], symbol);
      if i < |ps| - 1 || ps[|ps| - 1].symbol == symbol then i else |ps|
  }

  function FindOrder(os: seq<Order>, id: nat): (i: nat)
    ensures i <= |os|
    ensures i < |os| ==> os[i].id == id
    ensures forall j :: 0 <= j < i ==> os[j].id != id
  {
    if os == [] then 0
    else
      var i := FindOrder(os[..|os| - 1], id);
      if i < |os| - 1 || os[|os| - 1].id == id then i else |os|
  }

  function PositionOr(ps: seq<Position>, symbol: Symbol, fallback: Position): Position {
    var k := FindPosition(ps, symbol);
    if k < |ps| then ps[k] else fallback
  }

  function QtyOf(ps: seq<Position>, symbol: Symbol): real {
    var k := FindPosition(ps, symbol);
    if k < |ps| then ps[k].qty else 0.0
  }

  function PutPosition(ps: seq<Position>, p: Position): seq<Position> {
    var k := FindPosition(ps, p.symbol);
    if k < |ps| then ps[k := p] else ps + [p]
  }

  // ----- account arithmetic -----

  function ReferencePrice(m: Market): Option<real> {
    OrElse(m.mark, OrElse(m.last,
      if Truthy(m.bid) && Truthy(m.ask) then Some((m.bid.value + m.ask.value) / 2.0) else None))
  }

  function ValuationPrice(book: map<Symbol, Market>, p: Position): real {
    if p.symbol in book && ReferencePrice(book[p.symbol]).Some?
    then ReferencePrice(book[p.symbol]).value
    else p.entryPrice
  }

  predicate Valued(book: map<Symbol, Market>, p: Position) {
    p.qty != 0.0 && ValuationPrice(book, p) != 0.0
  }

  function OpenPnl(p: Position, price: real): real {
    p.qty * (price - p.entryPrice)
  }

  function InitialMarginAt(p: Position, price: real): real {
    Abs(p.qty) * price / p.leverage
  }

  function MaintenanceMarginAt(p: Position, price: real): real {
    Abs(p.qty) * price * p.maintenanceMarginRate
  }

  function Unrealized(book: map<Symbol, Market>): Position -> real {
    p => if Valued(book, p) then OpenPnl(p, ValuationPrice(book, p)) else 0.0
  }

  function InitialMargin(book: map<Symbol, Market>): Position -> real {
    p => if Valued(book, p) then InitialMarginAt(p, ValuationPrice(book, p)) else 0.0
  }

  function MaintenanceMargin(book: map<Symbol, Market>): Position -> real {
    p => if Valued(book, p) then MaintenanceMarginAt(p, ValuationPrice(book, p)) else 0.0
  }

  function Equity(st: State, book: map<Symbol, Market>): real {
    st.wallet + SumOf(Unrealized(book), st.positions)
  }

  function AvailableBalance(st: State, book: map<Symbol, Market>): real {
    Max(0.0, Equity(st, book) - SumOf(InitialMargin(book), st.positions))
  }

  function LiveCount(os: seq<Order>): nat {
    if os == [] then 0 else LiveCount(os[..|os| - 1]) + if os[|os| - 1].Live() then 1 else 0
  }

  // ----- order book edits -----

  datatype Filter = StaleBrackets(symbol: Symbol) | OnSymbol(symbol: Symbol) | AllOrders

  predicate Hits(f: Filter, o: Order) {
    o.Live() &&
    match f
    case StaleBrackets(s) => o.symbol == s && o.LiveBracket()
    case OnSymbol(s) => o.symbol == s
    case AllOrders => true
  }

  function CancelIf(f: Filter, o: Order): Order {
    if Hits(f, o) then o.(status := CANCELED) else o
  }

  function Canceled(os: seq<Order>, f: Filter): (r: seq<Order>)
    ensures |r| == |os| && forall k :: 0 <= k < |os| ==> r[k] == CancelIf(f, os[k])
  {
    if os == [] then [] else Canceled(os[..|os| - 1], f) + [CancelIf(f, os[|os| - 1])]
  }

  /** The orders table after each canceled order has been saved. */
  function CanceledRows(rows: map<nat, Order>, os: seq<Order>, f: Filter): map<nat, Order> {
    if os == [] then rows
    else
      var o := os[|os| - 1];
      var r := CanceledRows(rows, os[..|os| - 1], f);
      if Hits(f, o) then r[o.id := CancelIf(f, o)] else r
  }

  function CancelMatching(st: State, f: Filter): State {
    st.(orders := Canceled(st.orders, f),
        db := st.db.(orders := CanceledRows(st.db.orders, st.orders, f)))
  }

  /** Overwrite order i and save it. */
  function SaveOrder(st: State, i: nat, o: Order): State
    requires i < |st.orders|
  {
    st.(orders := st.orders[i := o], db := st.db.(orders := st.db.orders[o.id := o]))
  }

  function Place(st: State, o: Order): State {
    st.(orders := st.orders + [o], nextId := st.nextId + 1,
        db := st.db.(orders := st.db.orders[o.id := o]))
  }

  function RejectOrder(st: State, i: nat, reason: string): State
    requires i < |st.orders|
  {
    SaveOrder(st, i, st.orders[i].(status := REJECTED, rejectReason := Some(reason)))
  }

  function CancelOrderAt(st: State, i: nat): State
    requires i < |st.orders|
  {
    if st.orders[i].Live() then SaveOrder(st, i, st.orders[i].(status := CANCELED)) else st
  }

  // ----- fills -----

  function FeeRate(cfg: Config, liquidity: Liquidity): real {
    if liquidity == MAKER then cfg.makerFeeRate else cfg.takerFeeRate
  }

  function FeeFor(cfg: Config, quantity: real, price: real, liquidity: Liquidity): real {
    quantity * price * FeeRate(cfg, liquidity)
  }

  function AverageWith(o: Order, quantity: real, price: real): real {
    var filled := o.filledQty + quantity;
    if filled == 0.0 then 0.0 else (o.avgFillPrice * (filled - quantity) + price * quantity) / filled
  }

  /** The position a fill of order o starts from. */
  function PositionBefore(cfg: Config, st: State, o: Order): Position {
    PositionOr(st.positions, o.symbol, NewPosition(o.symbol, o.leverage, InstrumentOf(cfg, o.symbol)))
  }

  /** The fill record of executing `quantity` of order o at `price`. */
  function FillRecord(cfg: Config, st: State, o: Order, quantity: real, price: real, liquidity: Liquidity): Fill {
    var before := PositionBefore(cfg, st, o);
    var newQty := NewQty(before.qty, o.side, quantity, InstrumentOf(cfg, o.symbol));
    Fill(o.id, o.symbol, o.side, quantity, price, FeeFor(cfg, quantity, price, liquidity), liquidity,
         RealizedBy(before, newQty, price), before.qty, newQty)
  }

  /** The position after a fill of order o, with its fee booked. */
  function PositionAfter(cfg: Config, st: State, o: Order, quantity: real, price: real, fee: real): Position {
    var p := FillPosition(PositionBefore(cfg, st, o), o.side, quantity, price, o.leverage, InstrumentOf(cfg, o.symbol),
                          st.clock);
    p.(totalFees := p.totalFees + fee)
  }

  /** A close or a flip cancels the brackets of the position that just ended. */
  function AfterBracketSweep(st: State, f: Fill): State {
    if KindOf(f.positionQtyBefore, f.positionQtyAfter) in {CLOSE, FLIP}
    then CancelMatching(st, StaleBrackets(f.symbol))
    else st
  }

  function ExecuteFill(cfg: Config, st: State, i: nat, quantity: real, price: real, liquidity: Liquidity): State
    requires i < |st.orders|
  {
    var o := st.orders[i];
    var f := FillRecord(cfg, st, o, quantity, price, liquidity);
    var after := PositionAfter(cfg, st, o, quantity, price, f.fee);
    var s := AfterBracketSweep(st, f);
    var o' := s.orders[i].(filledQty := o.filledQty + quantity, avgFillPrice := AverageWith(o, quantity, price));
    s.(orders := s.orders[i := o'],
       positions := PutPosition(st.positions, after),
       fills := st.fills + [f],
       wallet := st.wallet - f.fee + f.realizedPnl,
       totalFees := st.totalFees + f.fee,
       totalRealizedPnl := st.totalRealizedPnl + f.realizedPnl,
       db := s.db.(positions := s.db.positions[after.symbol := after], fills := s.db.fills + [f]))
  }

  function ExecutionPrice(cfg: Config, o: Order, m: Market): Option<real> {
    if o.IsStop() || o.typ == MARKET then
      var slippage := cfg.marketSlippageBps / 10000.0;
      var quote := OrElse(if o.side == BUY then m.ask else m.bid, OrElse(m.last, m.mark));
      if quote.None? || quote.value <= 0.0 then None
      else if o.side == BUY then Some(quote.value * (1.0 + slippage))
      else Some(quote.value * (1.0 - slippage))
    else if o.typ == LIMIT && Truthy(o.limitPrice) then
      OrElse(if o.side == BUY then m.ask else m.bid, o.limitPrice)
    else None
  }

  function SettledStatus(o: Order): OrderStatus {
    if o.filledQty >= o.quantity then FILLED else PARTIALLY_FILLED
  }

  function FillOrder(cfg: Config, st: State, i: nat, m: Market, liquidity: Liquidity): (r: State)
    requires i < |st.orders|
    ensures |r.orders| == |st.orders|
  {
    var o := st.orders[i];
    var remaining := o.quantity - o.filledQty;
    if remaining <= 0.0 then st.(orders := st.orders[i := o.(status := FILLED)])
    else
      var price := ExecutionPrice(cfg, o, m);
      if price.None? || price.value <= 0.0 then RejectOrder(st, i, "INVALID_EXECUTION_PRICE")
      else
        var s := ExecuteFill(cfg, st, i, remaining, price.value, liquidity);
        SaveOrder(s, i, s.orders[i].(status := SettledStatus(s.orders[i])))
  }

  predicate LimitMarketable(o: Order, m: Market) {
    Truthy(o.limitPrice) &&
    if o.side == BUY then Truthy(m.ask) && m.ask.value <= o.limitPrice.value
    else Truthy(m.bid) && m.bid.value >= o.limitPrice.value
  }

  predicate StopTriggered(o: Order, m: Market) {
    Truthy(o.stopPrice) && Truthy(ReferencePrice(m)) &&
    var ref, stop := ReferencePrice(m).value, o.stopPrice.value;
    if (o.typ == TAKE_PROFIT_MARKET) == (o.side == SELL) then ref >= stop else ref <= stop
  }

  // ----- submission -----

  function RollDay(st: State, env: Env): State {
    if env.utcDay != st.utcDay
    then st.(utcDay := env.utcDay, dayStartEquity := Equity(st, Book(st, env)))
    else st
  }

  function EstimatedPrice(o: Order, m: Market): Option<real> {
    if o.typ == LIMIT && Truthy(o.limitPrice) then o.limitPrice
    else if o.IsStop() && Truthy(o.stopPrice) then o.stopPrice
    else if o.side == BUY then m.ask else m.bid
  }

  /** The part of checkOrderRisk that looks at the order alone. */
  function OrderReason(cfg: Config, o: Order, price: Option<real>): Option<string> {
    var ins, risk := InstrumentOf(cfg, o.symbol), cfg.risk;
    if o.typ == MARKET && !risk.allowMarketOrders then Some("MARKET_ORDERS_DISABLED")
    else if o.typ == LIMIT && !risk.allowLimitOrders then Some("LIMIT_ORDERS_DISABLED")
    else if o.IsStop() && !risk.allowStopOrders then Some("STOP_ORDERS_DISABLED")
    else if o.quantity <= 0.0 then Some("INVALID_QTY")
    else if o.quantity < ins.minQty then Some("MIN_QTY_NOT_MET")
    else if o.leverage > risk.maxLeverage then Some("MAX_LEVERAGE_EXCEEDED")
    else if price.None? || price.value <= 0.0 then Some("NO_VALID_PRICE")
    else if o.quantity * price.value < ins.minNotional then Some("MIN_NOTIONAL_NOT_MET")
    else None
  }

  /** The part of checkOrderRisk that looks at the account. */
  function ExposureReason(cfg: Config, st: State, env: Env, o: Order, price: real): Option<string> {
    var risk, qty := cfg.risk, QtyOf(st.positions, o.symbol);
    var newQty := qty + SignedQty(o.side, o.quantity);
    var increases := Abs(newQty) > Abs(qty);
    if !o.reduceOnly && o.quantity * price > risk.maxOrderNotional then Some("MAX_ORDER_NOTIONAL_EXCEEDED")
    else if o.reduceOnly && increases then Some("REDUCE_ONLY_WOULD_INCREASE")
    else if !o.reduceOnly && PositionNotionalAfter(qty, newQty, price) > risk.maxPositionNotional
      then Some("MAX_POSITION_NOTIONAL_EXCEEDED")
    else if !o.reduceOnly && LiveCount(st.orders) >= risk.maxOpenOrders
      then Some("MAX_OPEN_ORDERS_EXCEEDED")
    else if !o.reduceOnly && Equity(st, Book(st, env)) < st.dayStartEquity - risk.maxDailyLoss
      then Some("MAX_DAILY_LOSS_EXCEEDED")
    else if increases && AvailableBalance(st, Book(st, env)) < RequiredBalance(cfg, o, price)
      then Some("INSUFFICIENT_AVAILABLE_BALANCE")
    else None
  }

  /** checkOrderRisk: the first reason to refuse the order, or None. The order is already in the book. */
  function RiskReason(cfg: Config, st: State, env: Env, o: Order, m: Market): Option<string> {
    var price := EstimatedPrice(o, m);
    var reason := OrderReason(cfg, o, price);
    if reason.Some? || price.None? then reason else ExposureReason(cfg, st, env, o, price.value)
  }

  function PositionNotionalAfter(qty: real, newQty: real, price: real): real {
    Abs(qty) * price + if Abs(newQty) > Abs(qty) then (Abs(newQty) - Abs(qty)) * price else 0.0
  }

  function RequiredBalance(cfg: Config, o: Order, price: real): real {
    var notional := o.quantity * price;
    notional / o.leverage + notional * FeeRate(cfg, if o.typ == LIMIT then MAKER else TAKER)
  }

  function ClampedQuantity(cmd: OrderCommand, openQty: real, ins: Instrument): real {
    var q := RoundStep(cmd.quantity, ins.stepSize);
    if cmd.reduceOnly && q > Abs(openQty) then RoundStep(Abs(openQty), ins.stepSize) else q
  }

  function RoundedPrice(price: Option<real>, ins: Instrument): Option<real> {
    if price.Some? then Some(RoundTick(price.value, ins.tickSize)) else None
  }

  function NewOrder(cfg: Config, st: State, cmd: OrderCommand): Order {
    var ins := InstrumentOf(cfg, cmd.symbol);
    Order(st.nextId, cmd.symbol, cmd.side, cmd.typ,
          if cmd.timeInForce.Some? then cmd.timeInForce.value else GTC, NEW,
          ClampedQuantity(cmd, QtyOf(st.positions, cmd.symbol), ins), 0.0,
          RoundedPrice(cmd.price, ins), RoundedPrice(cmd.stopPrice, ins), 0.0,
          if cmd.leverage.Some? then cmd.leverage.value else 5.0,
          cmd.reduceOnly, cmd.postOnly, None)
  }

  datatype Route = FillNow | Rest | CancelNow | Refuse(reason: string)

  /** What submitOrder does with an order that passed the risk check. */
  function RouteOf(o: Order, m: Market): Route {
    match o.typ
    case MARKET => FillNow
    case LIMIT =>
      if !Truthy(o.limitPrice) then Refuse("MISSING_LIMIT_PRICE")
      else if LimitMarketable(o, m) then
        if o.postOnly then Refuse("POST_ONLY_WOULD_FILL") else FillNow
      else if o.timeInForce == IOC then CancelNow
      else if o.timeInForce == FOK then Refuse("FOK_CANNOT_FILL_FULLY")
      else Rest
    case STOP_MARKET => StopRoute(o, m)
    case TAKE_PROFIT_MARKET => StopRoute(o, m)
    case STOP => Refuse("UNSUPPORTED_ORDER_TYPE")
    case TRAILING_STOP_MARKET => Refuse("UNSUPPORTED_ORDER_TYPE")
  }

  function StopRoute(o: Order, m: Market): Route {
    if !Truthy(o.stopPrice) then Refuse("MISSING_STOP_PRICE")
    else if StopTriggered(o, m) then FillNow
    else Rest
  }

  function Follow(cfg: Config, st: State, i: nat, m: Market, route: Route): State
    requires i < |st.orders|
  {
    match route
    case FillNow => FillOrder(cfg, st, i, m, TAKER)
    case Rest => st
    case CancelNow => CancelOrderAt(st, i)
    case Refuse(reason) => RejectOrder(st, i, reason)
  }

  predicate Stale(cfg: Config, env: Env, m: Market) {
    m.stale || env.nowMs - m.localTs > cfg.risk.staleMarketMaxAgeMs
  }

  /** submitOrder once the order is stored: market checks, risk check, then the order-type branches. */
  function Screen(cfg: Config, s: State, i: nat, env: Env): State
    requires i < |s.orders|
  {
    var o, book := s.orders[i], Book(s, env);
    if o.symbol !in book then RejectOrder(s, i, "NO_MARKET_STATE")
    else
      var m := book[o.symbol];
      if Stale(cfg, env, m) then RejectOrder(s, i, "STALE_MARKET_DATA")
      else
        var s' := RollDay(s, env);
        var reason := RiskReason(cfg, s', env, o, m);
        if reason.Some? then RejectOrder(s', i, reason.value)
        else Follow(cfg, s', i, m, RouteOf(o, m))
  }

  /** submitOrder; an unknown instrument throws before anything is stored. */
  function Submit(cfg: Config, st: State, env: Env, cmd: OrderCommand): State {
    if cmd.symbol !in cfg.instruments then st
    else Screen(cfg, Place(st, NewOrder(cfg, st, cmd)), |st.orders|, env)
  }

  // ----- market data -----

  function Merge(m: Market, u: MarketUpdate, nowMs: int): Market {
    Market(OrElse(u.bid, m.bid), OrElse(u.ask, m.ask), OrElse(u.last, m.last), OrElse(u.mark, m.mark),
           OrElse(u.fundingRate, m.fundingRate), nowMs, false)
  }

  function MergedMarket(st: State, u: MarketUpdate, nowMs: int): Market {
    var known := if u.symbol in st.markets then st.markets[u.symbol]
                 else Market(None, None, None, None, None, nowMs, true);
    Merge(known, u, nowMs)
  }

  /** One iteration of evaluateOpenOrders. */
  function EvaluateOrder(cfg: Config, st: State, i: nat, symbol: Symbol, m: Market): (r: State)
    requires i < |st.orders|
    ensures |r.orders| == |st.orders|
  {
    var o := st.orders[i];
    if o.symbol != symbol || !o.Live() then st
    else if o.typ == LIMIT && LimitMarketable(o, m) then FillOrder(cfg, st, i, m, MAKER)
    else if o.IsStop() && StopTriggered(o, m) then FillOrder(cfg, st, i, m, TAKER)
    else st
  }

  function EvaluateFrom(cfg: Config, st: State, i: nat, symbol: Symbol, m: Market): State
    requires i <= |st.orders|
    decreases |st.orders| - i
  {
    if i == |st.orders| then st
    else EvaluateFrom(cfg, EvaluateOrder(cfg, st, i, symbol, m), i + 1, symbol, m)
  }

  // ----- liquidation -----

  predicate HasMark(book: map<Symbol, Market>, symbol: Symbol) {
    symbol in book && Truthy(book[symbol].mark)
  }

  predicate Liquidatable(book: map<Symbol, Market>, p: Position) {
    p.qty != 0.0 && HasMark(book, p.symbol)
  }

  function LiquidationOrder(st: State, p: Position): Order {
    Order(st.nextId, p.symbol, if p.qty > 0.0 then SELL else BUY, MARKET, GTC, NEW, Abs(p.qty), 0.0,
          None, None, 0.0, p.leverage, true, false, None)
  }

  /** Closes position k at its mark through a synthetic order, which is saved only once FILLED. */
  function LiquidateAt(cfg: Config, st: State, book: map<Symbol, Market>, k: nat): (r: State)
    requires k < |st.positions|
    ensures |r.positions| >= |st.positions|
  {
    var p := st.positions[k];
    if !Liquidatable(book, p) then st
    else
      var o := LiquidationOrder(st, p);
      var i := |st.orders|;
      var s := st.(orders := st.orders + [o], nextId := st.nextId + 1);
      var s' := ExecuteFill(cfg, s, i, o.quantity, book[p.symbol].mark.value, TAKER);
      SaveOrder(s', i, s'.orders[i].(status := FILLED))
  }

  /** The loop over the first n positions. */
  function LiquidateFirst(cfg: Config, st: State, book: map<Symbol, Market>, n: nat): (r: State)
    requires n <= |st.positions|
    ensures |r.positions| >= |st.positions|
  {
    if n == 0 then st else LiquidateAt(cfg, LiquidateFirst(cfg, st, book, n - 1), book, n - 1)
  }

  predicate MustLiquidate(st: State, book: map<Symbol, Market>) {
    var maintenance := SumOf(MaintenanceMargin(book), st.positions);
    maintenance > 0.0 && Equity(st, book) <= maintenance
  }

  function CheckLiquidation(cfg: Config, st: State, book: map<Symbol, Market>): State {
    if MustLiquidate(st, book)
    then LiquidateFirst(cfg, st.(liquidations := st.liquidations + 1), book, |st.positions|)
    else st
  }

  function WithMarket(st: State, env: Env, u: MarketUpdate): State {
    st.(markets := st.markets[u.symbol := MergedMarket(st, u, env.nowMs)])
  }

  function OnMarket(cfg: Config, st: State, env: Env, u: MarketUpdate): State {
    if u.symbol !in cfg.instruments then st
    else
      var s := WithMarket(st, env, u);
      var book := Book(s, env);
      var s' := EvaluateFrom(cfg, s, 0, u.symbol, book[u.symbol]);
      CheckLiquidation(cfg, s', book)
  }

  // ----- funding, wallet, reset -----

  function FundingFor(p: Position, mark: real, rate: real): real {
    p.qty * mark * rate
  }

  function FundAt(st: State, book: map<Symbol, Market>, k: nat): (r: State)
    requires k < |st.positions|
    ensures |r.positions| == |st.positions|
  {
    var p := st.positions[k];
    if !Liquidatable(book, p) || book[p.symbol].fundingRate.None? then st
    else
      var m := book[p.symbol];
      var payment := FundingFor(p, m.mark.value, m.fundingRate.value);
      var p' := p.(totalFunding := p.totalFunding + payment);
      st.(wallet := st.wallet - payment, totalFunding := st.totalFunding + payment,
          positions := st.positions[k := p'],
          db := st.db.(positions := st.db.positions[p.symbol := p'],
                       funding := st.db.funding + [FundingPayment(p.symbol, p.qty, m.mark.value, m.fundingRate.value, payment)]))
  }

  function FundFirst(st: State, book: map<Symbol, Market>, n: nat): (r: State)
    requires n <= |st.positions|
    ensures |r.positions| == |st.positions|
  {
    if n == 0 then st else FundAt(FundFirst(st, book, n - 1), book, n - 1)
  }

  function CancelAll(st: State, symbol: Option<Symbol>): State {
    CancelMatching(st, if symbol.Some? && symbol.value != "" then OnSymbol(symbol.value) else AllOrders)
  }

  function CancelById(st: State, id: nat): State {
    var i := FindOrder(st.orders, id);
    if i < |st.orders| then CancelOrderAt(st, i) else st
  }

  const DEFAULT_RESET_BALANCE := 10000.0

  function ResetBalance(start: Option<real>): real {
    if start.Some? then start.value else DEFAULT_RESET_BALANCE
  }

  function CloseRows(rows: map<nat, Order>): map<nat, Order> {
    map id | id in rows :: if rows[id].Live() then rows[id].(status := CANCELED, rejectReason := Some("ACCOUNT_RESET")) else rows[id]
  }

  function EmptyAccount(s: State, balance: real, utcDay: int): State {
    State([], [], [], s.markets, balance, 0.0, 0.0, 0.0, 0, balance, utcDay, s.nextId, s.clock,
          Db(CloseRows(s.db.orders), map[], [], []))
  }

  function ResetAccount(st: State, start: Option<real>, env: Env): State {
    EmptyAccount(CancelAll(st, None), ResetBalance(start), env.utcDay)
  }

  // ----- construction and restart -----

  /** What the persister's four load queries return, in whatever order the rows come. */
  datatype Load = Load(
    orders: seq<Order>, positions: seq<Position>, fills: seq<Fill>, funding: seq<FundingPayment>)

  /** Re-rounds a loaded position to its instrument's own precision. */
  function Heal(cfg: Config, p: Position): Position {
    if p.symbol in cfg.instruments then
      var ins := cfg.instruments[p.symbol];
      p.(qty := ToFixed(p.qty, ins.quantityPrecision), entryPrice := ToFixed(p.entryPrice, ins.pricePrecision))
    else p
  }

  function Healed(cfg: Config, ps: seq<Position>): (r: seq<Position>)
    ensures |r| == |ps| && forall k :: 0 <= k < |ps| ==> r[k] == Heal(cfg, ps[k])
  {
    if ps == [] then [] else Healed(cfg, ps[..|ps| - 1]) + [Heal(cfg, ps[|ps| - 1])]
  }

  function FeeOf(f: Fill): real { f.fee }
  function RealizedOf(f: Fill): real { f.realizedPnl }
  function PaymentOf(x: FundingPayment): real { x.payment }

  function Construct(cfg: Config, load: Load, utcDay: int, nextId: nat, db: Db): State {
    var fees, realized, funding :=
      SumOf(FeeOf, load.fills), SumOf(RealizedOf, load.fills), SumOf(PaymentOf, load.funding);
    State(load.orders, Healed(cfg, load.positions), load.fills, map[],
          cfg.startingUsdt + realized - fees - funding, fees, funding, realized, 0,
          cfg.startingUsdt, utcDay, nextId, 0, db)
  }

  predicate Reloadable(p: Position) {
    p.isOpen && p.qty != 0.0
  }

  /** The load queries return exactly the live orders, the open positions, and every fill and payment. */
  ghost predicate IsLoad(db: Db, load: Load) {
    && multiset(load.fills) == multiset(db.fills)
    && multiset(load.funding) == multiset(db.funding)
    && (forall i, j :: 0 <= i < j < |load.orders| ==> load.orders[i].id != load.orders[j].id)
    && (forall o :: o in load.orders ==> o.id in db.orders && db.orders[o.id] == o && o.Live())
    && (forall id :: id in db.orders && db.orders[id].Live() ==> db.orders[id] in load.orders)
    && (forall i, j :: 0 <= i < j < |load.positions| ==> load.positions[i].symbol != load.positions[j].symbol)
    && (forall p :: p in load.positions ==> p.symbol in db.positions && db.positions[p.symbol] == p && Reloadable(p))
    && (forall s :: s in db.positions && Reloadable(db.positions[s]) ==> db.positions[s] in load.positions)
  }

  const EMPTY_DB := Db(map[], map[], [], [])

  function Fresh(cfg: Config, utcDay: int): State {
    Construct(cfg, Load([], [], [], []), utcDay, 0, EMPTY_DB)
  }

  // ----- runs -----

  datatype Event =
    | SubmitOrder(env: Env, cmd: OrderCommand)
    | CancelOrder(id: nat)
    | CancelAllOrders(symbol: Option<Symbol>)
    | MarketTick(env: Env, update: MarketUpdate)
    | Funding(env: Env)
    | Adjust(delta: real)
    | Reset(start: Option<real>, env: Env)
    | Restart(load: Load, env: Env)

  /** The call reads the clock once. */
  function AtTime(st: State, env: Env): State {
    st.(clock := env.nowMs)
  }

  function Step(cfg: Config, st: State, ev: Event): State {
    match ev
    case SubmitOrder(env, cmd) => Submit(cfg, AtTime(st, env), env, cmd)
    case CancelOrder(id) => CancelById(st, id)
    case CancelAllOrders(symbol) => CancelAll(st, symbol)
    case MarketTick(env, u) => OnMarket(cfg, AtTime(st, env), env, u)
    case Funding(env) => FundFirst(st, Book(st, env), |st.positions|)
    case Adjust(delta) => st.(wallet := st.wallet + delta)
    case Reset(start, env) => ResetAccount(st, start, env)
    case Restart(load, env) => Construct(cfg, load, env.utcDay, st.nextId, st.db)
  }

  /** A restart may happen after any step, and reads whatever the tables then hold. */
  ghost predicate Enabled(st: State, ev: Event) {
    ev.Restart? ==> IsLoad(st.db, ev.load)
  }

  function After(cfg: Config, utcDay: int, evs: seq<Event>): State {
    if evs == [] then Fresh(cfg, utcDay)
    else Step(cfg, After(cfg, utcDay, evs[..|evs| - 1]), evs[|evs| - 1])
  }

  ghost predicate Feasible(cfg: Config, utcDay: int, evs: seq<Event>) {
    evs == [] ||
    (Feasible(cfg, utcDay, evs[..|evs| - 1]) && Enabled(After(cfg, utcDay, evs[..|evs| - 1]), evs[|evs| - 1]))
  }
}
