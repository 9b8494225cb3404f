/** What an order must satisfy to be accepted, and what a refusal says. */
module OrderLimits {
  import opened Prelude
  import opened Decimal
  import opened BrokerTypes
  import opened PositionMath
  import opened BrokerSpec
  import opened BrokerInvariants
  import opened BrokerRuns
  import opened BrokerTheorems
  import opened Broker
  import opened Triggers

  /** The price an order is judged at: its own limit or trigger when it has a nonzero one, else the quote it would take. */
  predicate JudgedAt(o: Order, m: Market, price: real) {
    if o.typ == LIMIT && Truthy(o.limitPrice) then o.limitPrice == Some(price)
    else if o.typ in {STOP_MARKET, TAKE_PROFIT_MARKET} && Truthy(o.stopPrice) then o.stopPrice == Some(price)
    else (if o.side == BUY then m.ask else m.bid) == Some(price)
  }

  predicate TypeAllowed(risk: RiskLimits, typ: OrderType) {
    match typ
    case MARKET => risk.allowMarketOrders
    case LIMIT => risk.allowLimitOrders
    case STOP_MARKET => risk.allowStopOrders
    case TAKE_PROFIT_MARKET => risk.allowStopOrders
    case _ => true
  }

  /** The order's own terms are within the instrument's minimums and the account's leverage. */
  predicate WellFormed(cfg: Config, o: Order, price: real) {
    var ins := InstrumentOf(cfg, o.symbol);
    && TypeAllowed(cfg.risk, o.typ) && o.quantity > 0.0 && o.quantity >= ins.minQty && o.leverage <= cfg.risk.maxLeverage
    && price > 0.0 && o.quantity * price >= ins.minNotional
  }

  /** The quantity the position would have. */
  function Resulting(st: State, o: Order): real {
    QtyOf(st.positions, o.symbol) + if o.side == BUY then o.quantity else -o.quantity
  }

  predicate Grows(st: State, o: Order) {
    Abs(Resulting(st, o)) > Abs(QtyOf(st.positions, o.symbol))
  }

  /** The caps on order, position, number of orders and daily loss, which reduce-only orders are exempt from. */
  predicate WithinCaps(cfg: Config, st: State, o: Order, price: real, a: AccountState) {
    && o.quantity * price <= cfg.risk.maxOrderNotional
    && Max(Abs(QtyOf(st.positions, o.symbol)), Abs(Resulting(st, o))) * price <= cfg.risk.maxPositionNotional
    && a.openOrdersCount < cfg.risk.maxOpenOrders
    && a.equity + cfg.risk.maxDailyLoss >= st.dayStartEquity
  }

  /** The margin and the fee the order would take. */
  function Takes(cfg: Config, o: Order, price: real): real {
    o.quantity * price / o.leverage + o.quantity * price * if o.typ == LIMIT then cfg.makerFeeRate else cfg.takerFeeRate
  }

  predicate Acceptable(cfg: Config, st: State, o: Order, price: real, a: AccountState) {
    && WellFormed(cfg, o, price)
    && (if o.reduceOnly then !Grows(st, o) else WithinCaps(cfg, st, o, price, a))
    && (Grows(st, o) ==> a.availableBalance >= Takes(cfg, o, price))
  }

  lemma EstimatedIs(o: Order, m: Market, price: real)
    ensures JudgedAt(o, m, price) <==> EstimatedPrice(o, m) == Some(price)
  {
  }

  lemma NotionalAfterIs(qty: real, newQty: real, price: real)
    ensures PositionNotionalAfter(qty, newQty, price) == Max(Abs(qty), Abs(newQty)) * price
  {
    if Abs(newQty) > Abs(qty) {
      assert Abs(qty) * price + (Abs(newQty) - Abs(qty)) * price == Abs(newQty) * price;
    }
  }

  lemma TakesIs(cfg: Config, o: Order, price: real)
    ensures RequiredBalance(cfg, o, price) == Takes(cfg, o, price)
  {
  }

  lemma OrderReasonIff(cfg: Config, o: Order, price: real)
    ensures OrderReason(cfg, o, Some(price)).None? <==> WellFormed(cfg, o, price)
  {
    hide InstrumentOf;
  }

  lemma ExposureReasonIff(cfg: Config, st: State, env: Env, o: Order, price: real)
    ensures ExposureReason(cfg, st, env, o, price).None? <==>
      var a := AccountOf(st, st.markets + env.external);
      && (if o.reduceOnly then !Grows(st, o) else WithinCaps(cfg, st, o, price, a))
      && (Grows(st, o) ==> a.availableBalance >= Takes(cfg, o, price))
  {
    hide Equity, AvailableBalance, LiveCount, QtyOf, MarginRatio, OpenCount, SumOf, RequiredBalance, Takes;
    TakesIs(cfg, o, price);
    NotionalAfterIs(QtyOf(st.positions, o.symbol), Resulting(st, o), price);
    hide PositionNotionalAfter;
  }

  /** An order passes the risk check exactly when it has a price to be judged at, its terms are well formed, it keeps to
      the caps (or only reduces), and a growing one leaves its margin and fee in the available balance. */
  lemma AcceptedIff(cfg: Config, st: State, env: Env, o: Order, m: Market)
    ensures RiskReason(cfg, st, env, o, m).None? <==>
      exists price :: JudgedAt(o, m, price) && Acceptable(cfg, st, o, price, AccountOf(st, st.markets + env.external))
  {
    hide OrderReason, ExposureReason, WellFormed, WithinCaps, JudgedAt, EstimatedPrice, AccountOf, Takes, Grows;
    forall price ensures JudgedAt(o, m, price) <==> EstimatedPrice(o, m) == Some(price) {
      EstimatedIs(o, m, price);
    }
    var p := EstimatedPrice(o, m);
    if p.Some? {
      OrderReasonIff(cfg, o, p.value);
      ExposureReasonIff(cfg, st, env, o, p.value);
    } else {
      NoPriceIsRefused(cfg, o);
    }
  }

  lemma NoPriceIsRefused(cfg: Config, o: Order)
    ensures OrderReason(cfg, o, None).Some?
  {
    hide InstrumentOf;
  }

  /** What an accepted order that is not reduce-only can lead to: neither the order nor the position it results in is worth
      more than its cap at the judged price, and what it takes is covered when it adds exposure. */
  lemma AcceptedKeepsCaps(cfg: Config, st: State, env: Env, o: Order, m: Market, price: real)
    requires RiskReason(cfg, st, env, o, m).None? && !o.reduceOnly && JudgedAt(o, m, price)
    ensures o.quantity * price <= cfg.risk.maxOrderNotional && Abs(Resulting(st, o)) * price <= cfg.risk.maxPositionNotional
    ensures var a := AccountOf(st, st.markets + env.external);
      && a.openOrdersCount < cfg.risk.maxOpenOrders && a.equity >= st.dayStartEquity - cfg.risk.maxDailyLoss
      && (Grows(st, o) ==> Max(0.0, a.equity - a.initialMargin) >= Takes(cfg, o, price))
  {
    hide RiskReason, SumOf, InstrumentOf, Equity, LiveCount, OpenCount, MarginRatio, QtyOf, Takes;
    AcceptedIff(cfg, st, env, o, m);
    EstimatedIs(o, m, price);
    var judged :| JudgedAt(o, m, judged) && Acceptable(cfg, st, o, judged, AccountOf(st, st.markets + env.external));
    EstimatedIs(o, m, judged);
    Scale(Abs(Resulting(st, o)), Max(Abs(QtyOf(st.positions, o.symbol)), Abs(Resulting(st, o))), price);
  }

  lemma LiveCountAppend(os: seq<Order>, o: Order)
    ensures LiveCount(os + [o]) == LiveCount(os) + if o.Live() then 1 else 0
  {
    assert (os + [o])[..|os|] == os;
  }

  /** The order being checked is already in the book and is counted among the open ones. */
  lemma CountedItself(cfg: Config, st: State, env: Env, cmd: OrderCommand)
    ensures var s := RollDay(Place(st, NewOrder(cfg, st, cmd)), env);
      AccountOf(s, Book(s, env)).openOrdersCount == LiveCount(st.orders) + 1
  {
    hide ClampedQuantity, RoundedPrice, Equity, LiveCount, SumOf, OpenCount, MarginRatio, AvailableBalance;
    LiveCountAppend(st.orders, NewOrder(cfg, st, cmd));
  }

  /** So under a limit of n open orders one that is not reduce-only is admitted only while at most n - 2 are live, and under
      a limit of one or less never. */
  lemma OneOrderFewer(cfg: Config, st: State, env: Env, cmd: OrderCommand)
    requires Admitted(cfg, st, env, cmd) && !cmd.reduceOnly
    ensures LiveCount(st.orders) + 2 <= cfg.risk.maxOpenOrders
  {
    var o, m := NewOrder(cfg, st, cmd), Book(st, env)[cmd.symbol];
    var s := RollDay(Place(st, o), env);
    assert !o.reduceOnly;
    CountedItself(cfg, st, env, cmd);
    AcceptedIff(cfg, s, env, o, m);
    hide RiskReason, NewOrder, RollDay, Place, AccountOf, LiveCount, WellFormed, Grows, Takes, JudgedAt;
    var price :| JudgedAt(o, m, price) && Acceptable(cfg, s, o, price, AccountOf(s, s.markets + env.external));
  }

  /** Every refusal on account of the position or the account names a limit that is in fact exceeded. */
  lemma RefusalsHold(cfg: Config, st: State, env: Env, o: Order, price: real)
    requires ExposureReason(cfg, st, env, o, price).Some?
    ensures var a := AccountOf(st, st.markets + env.external);
      match ExposureReason(cfg, st, env, o, price).value
      case "MAX_ORDER_NOTIONAL_EXCEEDED" => !o.reduceOnly && o.quantity * price > cfg.risk.maxOrderNotional
      case "REDUCE_ONLY_WOULD_INCREASE" => o.reduceOnly && Grows(st, o)
      case "MAX_POSITION_NOTIONAL_EXCEEDED" =>
        !o.reduceOnly && Max(Abs(QtyOf(st.positions, o.symbol)), Abs(Resulting(st, o))) * price > cfg.risk.maxPositionNotional
      case "MAX_OPEN_ORDERS_EXCEEDED" => !o.reduceOnly && a.openOrdersCount >= cfg.risk.maxOpenOrders
      case "MAX_DAILY_LOSS_EXCEEDED" => !o.reduceOnly && a.equity < st.dayStartEquity - cfg.risk.maxDailyLoss
      case "INSUFFICIENT_AVAILABLE_BALANCE" => Grows(st, o) && a.availableBalance < Takes(cfg, o, price)
      case _ => false
  {
    hide Equity, AvailableBalance, LiveCount, QtyOf, MarginRatio, OpenCount, SumOf, RequiredBalance, Takes;
    TakesIs(cfg, o, price);
    NotionalAfterIs(QtyOf(st.positions, o.symbol), Resulting(st, o), price);
    hide PositionNotionalAfter;
  }
}
