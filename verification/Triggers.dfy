/** When resting orders are matched, and what becomes of a submitted one, written out in prices. */
module Triggers {
  import opened Prelude
  import opened Decimal
  import opened BrokerTypes
  import opened PositionMath
  import opened BrokerSpec
  import opened BrokerInvariants
  import opened BrokerRuns
  import opened BrokerTheorems

  // ----- reference price -----

  /** The price triggers are compared with: the mark, else the last price, else the middle of nonzero bid and ask. */
  predicate RefersTo(m: Market, ref: real) {
    if m.mark != None then m.mark == Some(ref)
    else if m.last != None then m.last == Some(ref)
    else m.bid.Some? && m.ask.Some? && m.bid.value != 0.0 && m.ask.value != 0.0 && ref + ref == m.bid.value + m.ask.value
  }

  /** A nonzero reference price has reached x from below, or from above. */
  ghost predicate RisenTo(m: Market, x: real) {
    exists ref :: RefersTo(m, ref) && ref != 0.0 && ref >= x
  }

  ghost predicate FallenTo(m: Market, x: real) {
    exists ref :: RefersTo(m, ref) && ref != 0.0 && ref <= x
  }

  lemma ReferenceIs(m: Market, ref: real)
    ensures RefersTo(m, ref) <==> ReferencePrice(m) == Some(ref)
  {
  }

  /** By the order's side: a stop waits for the price to move the order's way, a take-profit for the opposite. */
  lemma TriggeredIff(o: Order, m: Market)
    requires o.IsStop() && Truthy(o.stopPrice)
    ensures var x := o.stopPrice.value;
      StopTriggered(o, m) <==> match (o.typ, o.side)
        case (STOP_MARKET, BUY) => RisenTo(m, x)
        case (STOP_MARKET, SELL) => FallenTo(m, x)
        case (TAKE_PROFIT_MARKET, BUY) => FallenTo(m, x)
        case (TAKE_PROFIT_MARKET, SELL) => RisenTo(m, x)
        case _ => false
  {
    hide RefersTo, ReferencePrice;
    forall ref ensures RefersTo(m, ref) <==> ReferencePrice(m) == Some(ref) {
      ReferenceIs(m, ref);
    }
    if ReferencePrice(m).Some? {
      assert RefersTo(m, ReferencePrice(m).value);
    }
  }

  // ----- matching -----

  /** A fill order attempt finishes the order, at a price or with a rejection. */
  lemma FillOrderFinishes(cfg: Config, st: State, i: nat, m: Market, liquidity: Liquidity)
    requires i < |st.orders| && OrderOk(st.orders[i], st.fills) && st.orders[i].Live()
    ensures var o, r := st.orders[i], FillOrder(cfg, st, i, m, liquidity);
      r.orders[i].status == if Priced(cfg, o, m) then FILLED else REJECTED
  {
    hide ExecutionPrice;
    if Priced(cfg, st.orders[i], m) {
      hide FillOrder, Filled;
      FillOrderIsFilled(cfg, st, i, m, liquidity);
      FilledFinishes(cfg, st, i, ExecutionPrice(cfg, st.orders[i], m).value, liquidity);
    }
  }

  lemma FilledFinishes(cfg: Config, st: State, i: nat, price: real, liquidity: Liquidity)
    requires i < |st.orders|
    ensures Filled(cfg, st, i, price, liquidity).orders[i].status == FILLED
  {
    hide FillRecord, PositionAfter, AverageWith;
  }

  lemma MatchedIff(cfg: Config, st: State, i: nat, symbol: Symbol, m: Market)
    requires i < |st.orders| && OrdersOk(st.orders, st.fills) && st.orders[i].Live()
    ensures EvaluateOrder(cfg, st, i, symbol, m).orders[i].Live() <==> !Fires(st.orders[i], symbol, m)
  {
    hide FillOrder, LimitMarketable, StopTriggered, OrderOk, ExecutionPrice;
    FillOrderFinishes(cfg, st, i, m, MAKER);
    FillOrderFinishes(cfg, st, i, m, TAKER);
  }

  /** The n-th order as the tick's matching loop reaches it, and the state then. */
  function Reaching(cfg: Config, st: State, env: Env, u: MarketUpdate, n: nat): (r: State)
    requires n <= |st.orders|
    ensures |r.orders| == |st.orders|
  {
    MatchedFirst(cfg, Ticked(st, env, u), n, u.symbol, TickMarket(st, env, u))
  }

  lemma ReachingIsGood(cfg: Config, utcDay: int, evs: seq<Event>, env: Env, u: MarketUpdate, n: nat)
    requires Feasible(cfg, utcDay, evs) && n <= |After(cfg, utcDay, evs).orders|
    ensures Good(cfg, Reaching(cfg, After(cfg, utcDay, evs), env, u, n), BooksAfter(cfg, utcDay, evs))
  {
    hide After, Feasible, Good, MatchedFirst, Ticked, TickMarket;
    var st, b := After(cfg, utcDay, evs), BooksAfter(cfg, utcDay, evs);
    RunsAreGood(cfg, utcDay, evs);
    TickedIsGood(cfg, st, b, env, u);
    MatchedFirstIsGood(cfg, Ticked(st, env, u), b, n, u.symbol, TickMarket(st, env, u));
  }

  /** The price has moved to a bracket's trigger as its kind and the side of its position say: a take-profit waits on the
      profit side of the position, a stop on the loss side. */
  ghost predicate BracketReached(typ: OrderType, q: real, m: Market, x: real) {
    if (typ == TAKE_PROFIT_MARKET) == (q > 0.0) then RisenTo(m, x) else FallenTo(m, x)
  }

  /** In any run and at any order of a tick's loop: a live bracket is matched exactly when a nonzero reference price has
      reached its trigger, on the side of the position's profit for a take-profit and of its loss for a stop. */
  lemma BracketMatchedIff(cfg: Config, utcDay: int, evs: seq<Event>, env: Env, u: MarketUpdate, n: nat)
    requires Feasible(cfg, utcDay, evs) && n < |After(cfg, utcDay, evs).orders|
    requires var o := Reaching(cfg, After(cfg, utcDay, evs), env, u, n).orders[n];
      o.LiveBracket() && o.symbol == u.symbol && Truthy(o.stopPrice)
    ensures var st, m := After(cfg, utcDay, evs), TickMarket(After(cfg, utcDay, evs), env, u);
      var s := Reaching(cfg, st, env, u, n);
      var o := s.orders[n];
      !EvaluateOrder(cfg, s, n, u.symbol, m).orders[n].Live() <==>
        BracketReached(o.typ, QtyOf(s.positions, o.symbol), m, o.stopPrice.value)
  {
    var st, m := After(cfg, utcDay, evs), TickMarket(After(cfg, utcDay, evs), env, u);
    hide After, Feasible, Reaching, EvaluateOrder, QtyOf, RisenTo, FallenTo, StopTriggered, TickMarket, IdsOk, KnownSymbols,
      PositionsOk, OrderRowsOk, PositionRowsOk, LogOk, LedgerOk, OrdersOnGrid, OrderOk;
    ReachingIsGood(cfg, utcDay, evs, env, u, n);
    var s := Reaching(cfg, st, env, u, n);
    MatchedIff(cfg, s, n, u.symbol, m);
    TriggeredIff(s.orders[n], m);
  }

  /** The same for any live stop or take-profit, by its own side: a buy stop and a sell take-profit wait for the price to
      rise to the trigger, a sell stop and a buy take-profit for it to fall there. */
  lemma StopMatchedIff(cfg: Config, utcDay: int, evs: seq<Event>, env: Env, u: MarketUpdate, n: nat)
    requires Feasible(cfg, utcDay, evs) && n < |After(cfg, utcDay, evs).orders|
    requires var o := Reaching(cfg, After(cfg, utcDay, evs), env, u, n).orders[n];
      o.Live() && o.IsStop() && o.symbol == u.symbol && Truthy(o.stopPrice)
    ensures var st, m := After(cfg, utcDay, evs), TickMarket(After(cfg, utcDay, evs), env, u);
      var s := Reaching(cfg, st, env, u, n);
      var o := s.orders[n];
      !EvaluateOrder(cfg, s, n, u.symbol, m).orders[n].Live() <==>
        if (o.typ == STOP_MARKET) == (o.side == BUY) then RisenTo(m, o.stopPrice.value) else FallenTo(m, o.stopPrice.value)
  {
    var st, m := After(cfg, utcDay, evs), TickMarket(After(cfg, utcDay, evs), env, u);
    hide After, Feasible, Reaching, EvaluateOrder, QtyOf, RisenTo, FallenTo, StopTriggered, TickMarket, IdsOk, KnownSymbols,
      PositionsOk, OrderRowsOk, PositionRowsOk, LogOk, LedgerOk, OrdersOnGrid, OrderOk, BracketsOk;
    ReachingIsGood(cfg, utcDay, evs, env, u, n);
    var s := Reaching(cfg, st, env, u, n);
    MatchedIff(cfg, s, n, u.symbol, m);
    TriggeredIff(s.orders[n], m);
  }

  /** The side's own quote has crossed the limit. */
  predicate Crossed(o: Order, m: Market) {
    o.limitPrice.Some? && o.limitPrice.value != 0.0 &&
    match o.side
    case BUY => m.ask.Some? && m.ask.value != 0.0 && m.ask.value <= o.limitPrice.value
    case SELL => m.bid.Some? && m.bid.value != 0.0 && m.bid.value >= o.limitPrice.value
  }

  /** A live limit order is matched exactly when the ask has come down to a buy's limit, or the bid up to a sell's. */
  lemma LimitMatchedIff(cfg: Config, utcDay: int, evs: seq<Event>, env: Env, u: MarketUpdate, n: nat)
    requires Feasible(cfg, utcDay, evs) && n < |After(cfg, utcDay, evs).orders|
    requires var o := Reaching(cfg, After(cfg, utcDay, evs), env, u, n).orders[n];
      o.Live() && o.typ == LIMIT && o.symbol == u.symbol
    ensures var st, m := After(cfg, utcDay, evs), TickMarket(After(cfg, utcDay, evs), env, u);
      var s := Reaching(cfg, st, env, u, n);
      !EvaluateOrder(cfg, s, n, u.symbol, m).orders[n].Live() <==> Crossed(s.orders[n], m)
  {
    var st, m := After(cfg, utcDay, evs), TickMarket(After(cfg, utcDay, evs), env, u);
    hide After, Feasible, Reaching, EvaluateOrder, QtyOf, StopTriggered, TickMarket, IdsOk, KnownSymbols,
      PositionsOk, OrderRowsOk, PositionRowsOk, LogOk, LedgerOk, OrdersOnGrid, OrderOk, BracketsOk;
    ReachingIsGood(cfg, utcDay, evs, env, u, n);
    MatchedIff(cfg, Reaching(cfg, st, env, u, n), n, u.symbol, m);
  }

  // ----- submission -----

  /** The order is stored, its market is there and fresh, and the risk check has nothing against it. */
  predicate Admitted(cfg: Config, st: State, env: Env, cmd: OrderCommand) {
    cmd.symbol in cfg.instruments && cmd.symbol in Book(st, env) && !Stale(cfg, env, Book(st, env)[cmd.symbol]) &&
    var o := NewOrder(cfg, st, cmd);
    RiskReason(cfg, RollDay(Place(st, o), env), env, o, Book(st, env)[cmd.symbol]).None?
  }

  lemma AdmittedIs(cfg: Config, st: State, env: Env, cmd: OrderCommand)
    requires Admitted(cfg, st, env, cmd)
    ensures cmd.symbol in Book(st, env)
    ensures var o, m := NewOrder(cfg, st, cmd), Book(st, env)[cmd.symbol];
      var s := RollDay(Place(st, o), env);
      && |s.orders| == |st.orders| + 1 && s.orders[|st.orders|] == o && s.positions == st.positions && s.fills == st.fills
      && Submit(cfg, st, env, cmd) == Follow(cfg, s, |st.orders|, m, RouteOf(o, m))
  {
    hide RiskReason, FillOrder, RouteOf, Equity, ClampedQuantity, RoundedPrice;
  }

  lemma FollowEnds(cfg: Config, s: State, i: nat, m: Market)
    requires i < |s.orders| && OrderOk(s.orders[i], s.fills) && s.orders[i].status == NEW
    ensures var o, r := s.orders[i], Follow(cfg, s, i, m, RouteOf(s.orders[i], m));
      |r.orders| == |s.orders| && r.orders[i].status == match RouteOf(o, m)
        case FillNow => (if Priced(cfg, o, m) then FILLED else REJECTED)
        case Rest => NEW
        case CancelNow => CANCELED
        case Refuse(_) => REJECTED
  {
    hide FillOrder, RouteOf, OrderOk, Priced;
    FillOrderFinishes(cfg, s, i, m, TAKER);
  }

  ghost predicate FillsNumbered(st: State) {
    forall k :: 0 <= k < |st.fills| ==> st.fills[k].orderId < st.nextId
  }

  lemma NewOrderOk(cfg: Config, st: State, env: Env, cmd: OrderCommand)
    requires Admitted(cfg, st, env, cmd) && FillsNumbered(st)
    ensures var o := NewOrder(cfg, st, cmd); OrderOk(o, st.fills) && o.status == NEW && o.quantity > 0.0
    ensures var o := NewOrder(cfg, st, cmd); o.reduceOnly ==> Guards(o, QtyOf(st.positions, o.symbol))
    ensures var o := NewOrder(cfg, st, cmd); o.typ == cmd.typ && o.side == cmd.side && o.reduceOnly == cmd.reduceOnly
  {
    var o, m := NewOrder(cfg, st, cmd), Book(st, env)[cmd.symbol];
    AdmittedIs(cfg, st, env, cmd);
    hide FillsOf, RiskReason, ClampedQuantity, RoundedPrice, Equity, Guards, QtyOf;
    RiskAdmitsOnlyGuards(cfg, RollDay(Place(st, o), env), env, o, m);
    NewIdHasNoFills(st);
  }

  lemma IdsInRuns(cfg: Config, utcDay: int, evs: seq<Event>, env: Env)
    requires Feasible(cfg, utcDay, evs)
    ensures FillsNumbered(AtTime(After(cfg, utcDay, evs), env))
  {
    hide After, Feasible, OrdersOk, KnownSymbols, BracketsOk, PositionsOk, OrderRowsOk, PositionRowsOk, LogOk, LedgerOk,
      OrdersOnGrid;
    RunsAreGood(cfg, utcDay, evs);
  }

  /** What an admitted order has become when submitOrder returns. */
  lemma SubmittedIs(cfg: Config, utcDay: int, evs: seq<Event>, env: Env, cmd: OrderCommand)
    requires Feasible(cfg, utcDay, evs) && Admitted(cfg, AtTime(After(cfg, utcDay, evs), env), env, cmd)
    ensures var st := After(cfg, utcDay, evs);
      var o, m := NewOrder(cfg, st, cmd), (st.markets + env.external)[cmd.symbol];
      var r := Step(cfg, st, SubmitOrder(env, cmd));
      && |r.orders| == |st.orders| + 1
      && o.typ == cmd.typ && o.side == cmd.side && o.reduceOnly == cmd.reduceOnly
      && (o.reduceOnly ==> Guards(o, QtyOf(st.positions, cmd.symbol)))
      && r.orders[|st.orders|].status == match RouteOf(o, m)
        case FillNow => (if Priced(cfg, o, m) then FILLED else REJECTED)
        case Rest => NEW
        case CancelNow => CANCELED
        case Refuse(_) => REJECTED
  {
    var t := AtTime(After(cfg, utcDay, evs), env);
    hide After, Feasible, Submit, RouteOf, Admitted, Priced, Follow, ClampedQuantity, RoundedPrice, Guards, QtyOf, RollDay, Place;
    IdsInRuns(cfg, utcDay, evs, env);
    assert NewOrder(cfg, t, cmd) == NewOrder(cfg, After(cfg, utcDay, evs), cmd);
    AdmittedIs(cfg, t, env, cmd);
    NewOrderOk(cfg, t, env, cmd);
    var o := NewOrder(cfg, t, cmd);
    FollowEnds(cfg, RollDay(Place(t, o), env), |t.orders|, Book(t, env)[cmd.symbol]);
  }

  /** A bracket admitted with a nonzero trigger rests unless the price has already reached it: for a take-profit on the
      profit side of the position it reduces, for a stop on the loss side. */
  lemma SubmittedBracketRestsIff(cfg: Config, utcDay: int, evs: seq<Event>, env: Env, cmd: OrderCommand)
    requires Feasible(cfg, utcDay, evs) && Admitted(cfg, AtTime(After(cfg, utcDay, evs), env), env, cmd)
    requires cmd.reduceOnly && cmd.typ in {STOP_MARKET, TAKE_PROFIT_MARKET}
    requires Truthy(NewOrder(cfg, After(cfg, utcDay, evs), cmd).stopPrice)
    ensures var st := After(cfg, utcDay, evs);
      var o, m := NewOrder(cfg, st, cmd), (st.markets + env.external)[cmd.symbol];
      Step(cfg, st, SubmitOrder(env, cmd)).orders[|st.orders|].status == NEW <==>
        !BracketReached(cmd.typ, QtyOf(st.positions, cmd.symbol), m, o.stopPrice.value)
  {
    var st := After(cfg, utcDay, evs);
    var o, m := NewOrder(cfg, st, cmd), (st.markets + env.external)[cmd.symbol];
    hide After, Feasible, Step, NewOrder, Admitted, Priced, RisenTo, FallenTo, StopTriggered, QtyOf;
    SubmittedIs(cfg, utcDay, evs, env, cmd);
    TriggeredIff(o, m);
  }

  /** The same for any admitted stop or take-profit, by its own side. */
  lemma SubmittedStopRestsIff(cfg: Config, utcDay: int, evs: seq<Event>, env: Env, cmd: OrderCommand)
    requires Feasible(cfg, utcDay, evs) && Admitted(cfg, AtTime(After(cfg, utcDay, evs), env), env, cmd)
    requires cmd.typ in {STOP_MARKET, TAKE_PROFIT_MARKET} && Truthy(NewOrder(cfg, After(cfg, utcDay, evs), cmd).stopPrice)
    ensures var st := After(cfg, utcDay, evs);
      var o, m := NewOrder(cfg, st, cmd), (st.markets + env.external)[cmd.symbol];
      Step(cfg, st, SubmitOrder(env, cmd)).orders[|st.orders|].status == NEW <==>
        if (cmd.typ == STOP_MARKET) == (cmd.side == BUY)
        then !RisenTo(m, o.stopPrice.value) else !FallenTo(m, o.stopPrice.value)
  {
    var st := After(cfg, utcDay, evs);
    var o, m := NewOrder(cfg, st, cmd), (st.markets + env.external)[cmd.symbol];
    hide After, Feasible, Step, NewOrder, Admitted, Priced, RisenTo, FallenTo, StopTriggered, QtyOf, Guards;
    SubmittedIs(cfg, utcDay, evs, env, cmd);
    TriggeredIff(o, m);
  }

  lemma LimitRoute(cfg: Config, o: Order, m: Market)
    requires o.typ == LIMIT && Truthy(o.limitPrice)
    ensures RouteOf(o, m) ==
      if Crossed(o, m) then (if o.postOnly then Refuse("POST_ONLY_WOULD_FILL") else FillNow)
      else if o.timeInForce == IOC then CancelNow
      else if o.timeInForce == FOK then Refuse("FOK_CANNOT_FILL_FULLY")
      else Rest
    ensures Crossed(o, m) ==> (Priced(cfg, o, m) <==> (if o.side == BUY then m.ask.value else m.bid.value) > 0.0)
  {
  }

  lemma NewOrderTerms(cfg: Config, st: State, cmd: OrderCommand)
    ensures var o := NewOrder(cfg, st, cmd);
      && o.postOnly == cmd.postOnly && o.timeInForce == (if cmd.timeInForce.Some? then cmd.timeInForce.value else GTC)
  {
    hide ClampedQuantity, RoundedPrice, QtyOf;
  }

  /** What becomes of an admitted limit order with a nonzero limit: crossed, it fills at a positive quote, and is refused
      when post-only;
      not crossed, it rests, unless it is immediate-or-cancel or fill-or-kill. */
  lemma SubmittedLimitEnds(cfg: Config, utcDay: int, evs: seq<Event>, env: Env, cmd: OrderCommand)
    requires Feasible(cfg, utcDay, evs) && Admitted(cfg, AtTime(After(cfg, utcDay, evs), env), env, cmd)
    requires cmd.typ == LIMIT && Truthy(NewOrder(cfg, After(cfg, utcDay, evs), cmd).limitPrice)
    ensures var st := After(cfg, utcDay, evs);
      var o, m := NewOrder(cfg, st, cmd), (st.markets + env.external)[cmd.symbol];
      var status := Step(cfg, st, SubmitOrder(env, cmd)).orders[|st.orders|].status;
      status ==
        if Crossed(o, m) then
          if !cmd.postOnly && (if cmd.side == BUY then m.ask.value else m.bid.value) > 0.0 then FILLED else REJECTED
        else if cmd.timeInForce == Some(IOC) then CANCELED
        else if cmd.timeInForce == Some(FOK) then REJECTED
        else NEW
  {
    var st := After(cfg, utcDay, evs);
    var o, m := NewOrder(cfg, st, cmd), (st.markets + env.external)[cmd.symbol];
    hide After, Feasible, Step, Admitted, NewOrder, RouteOf, Priced, Crossed, QtyOf, Guards;
    SubmittedIs(cfg, utcDay, evs, env, cmd);
    NewOrderTerms(cfg, st, cmd);
    LimitRoute(cfg, o, m);
  }
}
