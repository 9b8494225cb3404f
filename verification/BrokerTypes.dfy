/** The broker's records. Prices, money and quantities are exact reals. */
module BrokerTypes {
  import opened Prelude
  import opened Decimal

  type Symbol = string

  datatype Side = BUY | SELL
  datatype OrderType = MARKET | LIMIT | STOP_MARKET | TAKE_PROFIT_MARKET | STOP | TRAILING_STOP_MARKET
  datatype OrderStatus = NEW | PARTIALLY_FILLED | FILLED | CANCELED | REJECTED | EXPIRED
  datatype TimeInForce = GTC | IOC | FOK | GTD
  datatype Liquidity = MAKER | TAKER

  datatype Instrument = Instrument(
    tickSize: Positive, stepSize: Positive, minQty: real, minNotional: real,
    pricePrecision: nat, quantityPrecision: nat, maintenanceMarginRate: real)

  datatype RiskLimits = RiskLimits(
    maxLeverage: real, maxOrderNotional: real, maxPositionNotional: real, maxDailyLoss: real,
    maxOpenOrders: int, allowMarketOrders: bool, allowLimitOrders: bool, allowStopOrders: bool,
    staleMarketMaxAgeMs: int)

  datatype Config = Config(
    startingUsdt: real, takerFeeRate: real, makerFeeRate: real, marketSlippageBps: real,
    risk: RiskLimits, instruments: map<Symbol, Instrument>)

  datatype Market = Market(
    bid: Option<real>, ask: Option<real>, last: Option<real>, mark: Option<real>,
    fundingRate: Option<real>, localTs: int, stale: bool)

  /** A partial market update: absent fields keep their previous value. */
  datatype MarketUpdate = MarketUpdate(
    symbol: Symbol, bid: Option<real>, ask: Option<real>, last: Option<real>, mark: Option<real>,
    fundingRate: Option<real>)

  datatype OrderCommand = OrderCommand(
    symbol: Symbol, side: Side, typ: OrderType, quantity: real, price: Option<real>,
    stopPrice: Option<real>, leverage: Option<Positive>, reduceOnly: bool, postOnly: bool,
    timeInForce: Option<TimeInForce>)

  datatype Order = Order(
    id: nat, symbol: Symbol, side: Side, typ: OrderType, timeInForce: TimeInForce,
    status: OrderStatus, quantity: real, filledQty: real, limitPrice: Option<real>,
    stopPrice: Option<real>, avgFillPrice: real, leverage: Positive, reduceOnly: bool,
    postOnly: bool, rejectReason: Option<string>)
  {
    predicate Live() {
      status == NEW || status == PARTIALLY_FILLED
    }

    predicate IsStop() {
      typ == STOP_MARKET || typ == TAKE_PROFIT_MARKET
    }

    /** A resting reduce-only stop or take-profit: protection for a position. */
    predicate LiveBracket() {
      Live() && reduceOnly && IsStop()
    }
  }

  datatype Fill = Fill(
    orderId: nat, symbol: Symbol, side: Side, quantity: real, price: real, fee: real,
    liquidity: Liquidity, realizedPnl: real, positionQtyBefore: real, positionQtyAfter: real)

  datatype FundingPayment = FundingPayment(
    symbol: Symbol, qty: real, markPrice: real, fundingRate: real, payment: real)

  /** openedAt is the time of the fill that opened the position from flat. */
  datatype Position = Position(
    symbol: Symbol, isOpen: bool, qty: real, entryPrice: real, leverage: Positive,
    maintenanceMarginRate: real, realizedPnl: real, totalFees: real, totalFunding: real, openedAt: Option<int>)

  function SignedQty(side: Side, quantity: real): real {
    if side == BUY then quantity else -quantity
  }
}
