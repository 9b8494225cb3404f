/** The broker as the engine runs it: fields updated step by step, each method proved to take the state
    exactly where the specification says. */
module Broker {
  import opened Prelude
  import opened Decimal
  import opened BrokerTypes
  import opened PositionMath
  import opened BrokerSpec

  datatype AccountState = AccountState(
    walletBalance: real, unrealizedPnl: real, equity: real, initialMargin: real, maintenanceMargin: real,
    availableBalance: real, marginRatio: real, totalFees: real, totalFunding: real, totalRealizedPnl: real,
    openPositionsCount: nat, openOrdersCount: nat, liquidations: nat)

  function OpenCount(ps: seq<Position>): nat {
    if ps == [] then 0 else OpenCount(ps[..|ps| - 1]) + if ps[|ps| - 1].qty != 0.0 then 1 else 0
  }

  function MarginRatio(maintenance: real, equity: real): real {
    if equity > 0.0 then maintenance / equity else 0.0
  }

  /** The account snapshot that calculateAccountState returns. */
  function AccountOf(st: State, book: map<Symbol, Market>): AccountState {
    AccountState(st.wallet, SumOf(Unrealized(book), st.positions), Equity(st, book),
      SumOf(InitialMargin(book), st.positions), SumOf(MaintenanceMargin(book), st.positions),
      AvailableBalance(st, book), MarginRatio(SumOf(MaintenanceMargin(book), st.positions), Equity(st, book)),
      st.totalFees, st.totalFunding, st.totalRealizedPnl, OpenCount(st.positions), LiveCount(st.orders), st.liquidations)
  }

  lemma RatioReaches(maintenance: real, equity: real)
    requires equity > 0.0
    ensures maintenance / equity >= 1.0 <==> equity <= maintenance
  {
    DivideBack(maintenance, equity);
    Scale(1.0, maintenance / equity, equity);
  }

  /** A liquidation fires exactly when the margin ratio of the snapshot has reached 1, or there is no equity left to
      divide by while positions still need margin. */
  lemma LiquidationAtRatioOne(st: State, book: map<Symbol, Market>)
    ensures var a := AccountOf(st, book);
      MustLiquidate(st, book) <==> a.maintenanceMargin > 0.0 && (a.equity <= 0.0 || a.marginRatio >= 1.0)
  {
    hide SumOf, Equity, AvailableBalance, OpenCount, LiveCount;
    if Equity(st, book) > 0.0 {
      RatioReaches(SumOf(MaintenanceMargin(book), st.positions), Equity(st, book));
    }
  }

  /** The state after applyPositionFill: position moved and saved, brackets swept, money not yet booked. */
  function PositionFilled(cfg: Config, st: State, o: Order, quantity: real, price: real): State {
    var before := PositionBefore(cfg, st, o);
    var moved := FillPosition(before, o.side, quantity, price, o.leverage, InstrumentOf(cfg, o.symbol), st.clock);
    var newQty := NewQty(before.qty, o.side, quantity, InstrumentOf(cfg, o.symbol));
    var s := if KindOf(before.qty, newQty) in {CLOSE, FLIP} then CancelMatching(st, StaleBrackets(o.symbol)) else st;
    s.(positions := PutPosition(st.positions, moved), db := s.db.(positions := s.db.positions[o.symbol := moved]))
  }

  lemma FindAfterPut(ps: seq<Position>, p: Position)
    ensures FindPosition(PutPosition(ps, p), p.symbol) == FindPosition(ps, p.symbol) < |PutPosition(ps, p)|
  {
    var k, r := FindPosition(ps, p.symbol), PutPosition(ps, p);
    assert r[k].symbol == p.symbol;
    assert FindPosition(r, p.symbol) <= k;
  }

  lemma PutTwice(ps: seq<Position>, p: Position, q: Position)
    requires p.symbol == q.symbol
    ensures PutPosition(PutPosition(ps, p), q) == PutPosition(ps, q)
    ensures PositionOr(PutPosition(ps, p), p.symbol, q) == p
  {
    FindAfterPut(ps, p);
    hide FindPosition;
  }

  /** The fee leaves the wallet before the position moves. */
  function FeePaid(st: State, fee: real): State {
    st.(wallet := st.wallet - fee, totalFees := st.totalFees + fee)
  }

  lemma MovedTo(p: Position, o: Order, quantity: real, price: real, ins: Instrument, at: int)
    ensures var q := FillPosition(p, o.side, quantity, price, o.leverage, ins, at);
      q.symbol == p.symbol && q.qty == NewQty(p.qty, o.side, quantity, ins)
  {
    hide NewQty, AveragedEntry;
  }

  function AddFee(p: Position, fee: real): Position {
    p.(totalFees := p.totalFees + fee)
  }

  /** executeFill after applyPositionFill: fee on the position, PnL, order progress, fill record. */
  function Booked(s: State, o: Order, i: nat, f: Fill): State
    requires i < |s.orders| && FindPosition(s.positions, f.symbol) < |s.positions|
  {
    var after := AddFee(s.positions[FindPosition(s.positions, f.symbol)], f.fee);
    s.(orders := s.orders[i := s.orders[i].(filledQty := o.filledQty + f.quantity,
                                          avgFillPrice := AverageWith(o, f.quantity, f.price))],
       positions := PutPosition(s.positions, after), fills := s.fills + [f],
       wallet := s.wallet + f.realizedPnl, totalRealizedPnl := s.totalRealizedPnl + f.realizedPnl,
       db := s.db.(positions := s.db.positions[after.symbol := after], fills := s.db.fills + [f]))
  }

  lemma ExecuteFillIsBooked(cfg: Config, st: State, i: nat, quantity: real, price: real, liquidity: Liquidity)
    requires i < |st.orders|
    ensures var f := FillRecord(cfg, st, st.orders[i], quantity, price, liquidity);
      var s := PositionFilled(cfg, FeePaid(st, f.fee), st.orders[i], quantity, price);
      && i < |s.orders| && FindPosition(s.positions, f.symbol) < |s.positions|
      && s.positions[FindPosition(s.positions, f.symbol)].qty == f.positionQtyAfter
      && Booked(s, st.orders[i], i, f) == ExecuteFill(cfg, st, i, quantity, price, liquidity)
  {
    var o := st.orders[i];
    var before, ins := PositionBefore(cfg, st, o), InstrumentOf(cfg, o.symbol);
    var f := FillRecord(cfg, st, o, quantity, price, liquidity);
    var moved := FillPosition(before, o.side, quantity, price, o.leverage, ins, st.clock);
    MovedTo(before, o, quantity, price, ins, st.clock);
    hide FillPosition, NewQty, RealizedBy, AverageWith, PutPosition, FeeFor, KindOf, CancelMatching;
    FindAfterPut(st.positions, moved);
    PutTwice(st.positions, moved, AddFee(moved, f.fee));
  }

  lemma TakeOne<T>(s: seq<T>, i: nat)
    requires i < |s|
    ensures s[..i + 1] == s[..i] + [s[i]] && s[..i + 1][..i] == s[..i]
  {
  }

  /** What one position adds to the three account sums. */
  lemma Contribution(book: map<Symbol, Market>, p: Position)
    ensures var price := ValuationPrice(book, p);
      if price != 0.0 && p.qty != 0.0 then
        && Unrealized(book)(p) == OpenPnl(p, price)
        && InitialMargin(book)(p) == InitialMarginAt(p, price)
        && MaintenanceMargin(book)(p) == MaintenanceMarginAt(p, price)
      else Unrealized(book)(p) == InitialMargin(book)(p) == MaintenanceMargin(book)(p) == 0.0
  {
    hide ValuationPrice;
  }

  lemma SumsStart(book: map<Symbol, Market>, ps: seq<Position>)
    ensures SumOf(Unrealized(book), ps[..0]) == SumOf(InitialMargin(book), ps[..0]) == SumOf(MaintenanceMargin(book), ps[..0]) == 0.0
  {
  }

  /** The three sums with one position more. */
  lemma SumsNext(book: map<Symbol, Market>, ps: seq<Position>, i: nat)
    requires i < |ps|
    ensures var price := ValuationPrice(book, ps[i]);
      var priced := price != 0.0 && ps[i].qty != 0.0;
      && SumOf(Unrealized(book), ps[..i + 1]) == SumOf(Unrealized(book), ps[..i]) + (if priced then OpenPnl(ps[i], price) else 0.0)
      && SumOf(InitialMargin(book), ps[..i + 1])
      == SumOf(InitialMargin(book), ps[..i]) + (if priced then InitialMarginAt(ps[i], price) else 0.0)
      && SumOf(MaintenanceMargin(book), ps[..i + 1])
      == SumOf(MaintenanceMargin(book), ps[..i]) + (if priced then MaintenanceMarginAt(ps[i], price) else 0.0)
  {
    hide Unrealized, InitialMargin, MaintenanceMargin, ValuationPrice, OpenPnl, InitialMarginAt, MaintenanceMarginAt;
    TakeOne(ps, i);
    Contribution(book, ps[i]);
  }

  lemma CancelStep(rows: map<nat, Order>, os: seq<Order>, f: Filter, i: nat)
    requires i < |os|
    ensures Canceled(os[..i + 1], f) == Canceled(os[..i], f) + [CancelIf(f, os[i])]
    ensures var r := CanceledRows(rows, os[..i], f);
      CanceledRows(rows, os[..i + 1], f) == if Hits(f, os[i]) then r[os[i].id := CancelIf(f, os[i])] else r
  {
    hide Hits, CancelIf;
    TakeOne(os, i);
  }

  /** Overwriting the next element of a half-processed sequence. */
  lemma SpliceStep<T>(done: seq<T>, s: seq<T>, i: nat, x: T)
    requires |done| == i < |s|
    ensures (done + s[i..])[i] == s[i] && (done + s[i..])[i := x] == done + [x] + s[i + 1..]
  {
  }

  lemma ExecuteFillKeepsLength(cfg: Config, st: State, i: nat, quantity: real, price: real, liquidity: Liquidity)
    requires i < |st.orders|
    ensures |ExecuteFill(cfg, st, i, quantity, price, liquidity).orders| == |st.orders|
  {
    hide FillRecord, PositionAfter;
  }

  lemma RollDayKeepsBook(st: State, env: Env)
    ensures var r := RollDay(st, env);
      r.orders == st.orders && r == st.(utcDay := r.utcDay, dayStartEquity := r.dayStartEquity)
  {
  }

  class PaperBroker {
    const cfg: Config
    var orders: seq<Order>
    var positions: seq<Position>
    var fills: seq<Fill>
    var localMarkets: map<Symbol, Market>
    var walletBalance: real
    var totalFees: real
    var totalFunding: real
    var totalRealizedPnl: real
    var liquidations: nat
    var dayStartEquity: real
    var currentUtcDay: int
    /** Supply of fresh order ids. */
    var nextId: nat
    /** The time the current call read. */
    var clock: int
    /** The persister's tables. */
    var tables: Db

    function St(): State
      reads this
    {
      State(orders, positions, fills, localMarkets, walletBalance, totalFees, totalFunding, totalRealizedPnl,
            liquidations, dayStartEquity, currentUtcDay, nextId, clock, tables)
    }

    /** Loads what the tables hold and replays fills and funding payments into the totals. */
    constructor (cfg: Config, load: Load, utcDay: int, nextId: nat, tables: Db)
      ensures this.cfg == cfg && St() == Construct(cfg, load, utcDay, nextId, tables)
    {
      this.cfg := cfg;
      this.nextId, this.tables, this.currentUtcDay := nextId, tables, utcDay;
      orders, positions, fills, localMarkets := [], [], [], map[];
      walletBalance, dayStartEquity, clock := cfg.startingUsdt, cfg.startingUsdt, 0;
      totalFees, totalFunding, totalRealizedPnl, liquidations := 0.0, 0.0, 0.0, 0;
      new;
      hide SumOf, Healed;
      LoadTables(load);
    }

    method LoadTables(load: Load)
      modifies this
      ensures St() == Construct(cfg, load, old(currentUtcDay), old(nextId), old(tables)).(
        clock := old(clock), markets := old(localMarkets), liquidations := old(liquidations), dayStartEquity := old(dayStartEquity))
    {
      hide SumOf, Healed, Heal;
      positions := HealPositions(cfg, load.positions);
      orders, fills := load.orders, load.fills;
      totalRealizedPnl, totalFees := ReplayFills(load.fills);
      totalFunding := ReplayFunding(load.funding);
      walletBalance := cfg.startingUsdt + totalRealizedPnl - totalFees - totalFunding;
    }

    static method HealPositions(cfg: Config, rows: seq<Position>) returns (ps: seq<Position>)
      ensures ps == Healed(cfg, rows)
    {
      ps := [];
      for i := 0 to |rows|
        invariant ps == Healed(cfg, rows[..i])
      {
        TakeOne(rows, i);
        ps := ps + [Heal(cfg, rows[i])];
      }
      assert rows[..|rows|] == rows;
    }

    static method ReplayFills(rows: seq<Fill>) returns (realized: real, fees: real)
      ensures realized == SumOf(RealizedOf, rows) && fees == SumOf(FeeOf, rows)
    {
      realized, fees := 0.0, 0.0;
      for i := 0 to |rows|
        invariant realized == SumOf(RealizedOf, rows[..i]) && fees == SumOf(FeeOf, rows[..i])
      {
        TakeOne(rows, i);
        realized := realized + rows[i].realizedPnl;
        fees := fees + rows[i].fee;
      }
      assert rows[..|rows|] == rows;
    }

    static method ReplayFunding(rows: seq<FundingPayment>) returns (total: real)
      ensures total == SumOf(PaymentOf, rows)
    {
      total := 0.0;
      for i := 0 to |rows|
        invariant total == SumOf(PaymentOf, rows[..i])
      {
        TakeOne(rows, i);
        total := total + rows[i].payment;
      }
      assert rows[..|rows|] == rows;
    }

    // ----- account -----

    method SumPositions(book: map<Symbol, Market>)
      returns (unrealized: real, initial: real, maintenance: real, open: nat)
      ensures unrealized == SumOf(Unrealized(book), positions)
      ensures initial == SumOf(InitialMargin(book), positions)
      ensures maintenance == SumOf(MaintenanceMargin(book), positions)
      ensures open == OpenCount(positions)
    {
      hide SumOf, Unrealized, InitialMargin, MaintenanceMargin, ValuationPrice, OpenPnl, InitialMarginAt, MaintenanceMarginAt;
      SumsStart(book, positions);
      unrealized, initial, maintenance, open := 0.0, 0.0, 0.0, 0;
      for i := 0 to |positions|
        invariant unrealized == SumOf(Unrealized(book), positions[..i])
        invariant initial == SumOf(InitialMargin(book), positions[..i])
        invariant maintenance == SumOf(MaintenanceMargin(book), positions[..i])
        invariant open == OpenCount(positions[..i])
      {
        var p := positions[i];
        SumsNext(book, positions, i);
        TakeOne(positions, i);
        open := open + if p.qty != 0.0 then 1 else 0;
        var price := ValuationPrice(book, p);
        if price != 0.0 && p.qty != 0.0 {
          unrealized := unrealized + OpenPnl(p, price);
          initial := initial + InitialMarginAt(p, price);
          maintenance := maintenance + MaintenanceMarginAt(p, price);
        }
      }
      assert positions[..|positions|] == positions;
    }

    method CalculateAccountState(book: map<Symbol, Market>) returns (account: AccountState)
      ensures account == AccountOf(St(), book)
    {
      hide Unrealized, InitialMargin, MaintenanceMargin;
      var unrealized, initial, maintenance, openPositions := SumPositions(book);
      var openOrders := CountOpenOrders();
      var equity := walletBalance + unrealized;
      account := AccountState(walletBalance, unrealized, equity, initial, maintenance, Max(0.0, equity - initial),
                              if equity > 0.0 then maintenance / equity else 0.0, totalFees, totalFunding, totalRealizedPnl,
                              openPositions, openOrders, liquidations);
    }

    method CountOpenOrders() returns (open: nat)
      ensures open == LiveCount(orders)
    {
      open := 0;
      for i := 0 to |orders|
        invariant open == LiveCount(orders[..i])
      {
        TakeOne(orders, i);
        if orders[i].Live() {
          open := open + 1;
        }
      }
      assert orders[..|orders|] == orders;
    }

    method RollDailyEquityIfNeeded(env: Env)
      modifies this
      ensures St() == RollDay(old(St()), env)
    {
      if env.utcDay != currentUtcDay {
        currentUtcDay := env.utcDay;
        var account := CalculateAccountState(localMarkets + env.external);
        dayStartEquity := account.equity;
      }
    }

    // ----- order records -----

    method SetOrder(i: nat, o: Order)
      requires i < |orders|
      modifies this
      ensures St() == SaveOrder(old(St()), i, o)
    {
      orders := orders[i := o];
      tables := tables.(orders := tables.orders[o.id := o]);
    }

    method RejectOrder(i: nat, reason: string)
      requires i < |orders|
      modifies this
      ensures St() == BrokerSpec.RejectOrder(old(St()), i, reason)
    {
      SetOrder(i, orders[i].(status := REJECTED, rejectReason := Some(reason)));
    }

    method CancelOrderAt(i: nat)
      requires i < |orders|
      modifies this
      ensures St() == BrokerSpec.CancelOrderAt(old(St()), i)
    {
      if orders[i].Live() {
        SetOrder(i, orders[i].(status := CANCELED));
      }
    }

    method CancelOrder(id: nat)
      modifies this
      ensures St() == CancelById(old(St()), id)
    {
      var i := FindOrder(orders, id);
      if i < |orders| {
        CancelOrderAt(i);
      }
    }

    /** The first i orders have been looked at, and canceled where the filter hits. */
    ghost predicate Swept(start: State, i: nat, f: Filter)
      requires i <= |start.orders|
      reads this
    {
      && orders == Canceled(start.orders[..i], f) + start.orders[i..]
      && tables.orders == CanceledRows(start.db.orders, start.orders[..i], f)
      && St() == start.(orders := orders, db := start.db.(orders := tables.orders))
    }

    method CancelIfHit(i: nat, f: Filter, ghost start: State)
      requires i < |orders| == |start.orders| && Swept(start, i, f)
      modifies this
      ensures Swept(start, i + 1, f) && |orders| == |start.orders|
    {
      CancelStep(start.db.orders, start.orders, f, i);
      SpliceStep(Canceled(start.orders[..i], f), start.orders, i, CancelIf(f, start.orders[i]));
      hide Canceled, CanceledRows, Hits;
      if Hits(f, orders[i]) {
        CancelOrderAt(i);
      }
    }

    /** The loop shared by cancelAllOrders and cancelStaleBracketOrders. */
    method CancelWhere(f: Filter)
      modifies this
      ensures St() == CancelMatching(old(St()), f)
    {
      ghost var start := St();
      assert start.orders[..0] == [] && start.orders[..|orders|] == start.orders;
      for i := 0 to |orders|
        invariant |orders| == |start.orders| && Swept(start, i, f)
      {
        CancelIfHit(i, f, start);
      }
    }

    method CancelStaleBracketOrders(symbol: Symbol)
      modifies this
      ensures St() == CancelMatching(old(St()), StaleBrackets(symbol))
    {
      CancelWhere(StaleBrackets(symbol));
    }

    method CancelAllOrders(symbol: Option<Symbol>)
      modifies this
      ensures St() == CancelAll(old(St()), symbol)
    {
      CancelWhere(if symbol.Some? && symbol.value != "" then OnSymbol(symbol.value) else AllOrders);
    }

    // ----- fills -----

    method SavePosition(p: Position)
      modifies this
      ensures St() == old(St()).(positions := PutPosition(old(positions), p),
        db := old(tables).(positions := old(tables).positions[p.symbol := p]))
    {
      var k := FindPosition(positions, p.symbol);
      positions := if k < |positions| then positions[k := p] else positions + [p];
      tables := tables.(positions := tables.positions[p.symbol := p]);
    }

    /** The five-way branch of applyPositionFill on the position, in its order of tests. */
    static method MovePosition(p: Position, o: Order, quantity: real, price: real, ins: Instrument, at: int)
      returns (q: Position, realized: real, ended: bool)
      ensures q == FillPosition(p, o.side, quantity, price, o.leverage, ins, at)
      ensures var newQty := NewQty(p.qty, o.side, quantity, ins);
        realized == RealizedBy(p, newQty, price) && ended == (KindOf(p.qty, newQty) in {CLOSE, FLIP})
    {
      hide NewQty, WeightedEntry, ToFixed, PnlOnClosing;
      var newQty := NewQty(p.qty, o.side, quantity, ins);
      realized, ended := 0.0, false;
      if p.qty == 0.0 {
        q := p.(isOpen := true, entryPrice := price, qty := newQty, leverage := o.leverage,
                maintenanceMarginRate := ins.maintenanceMarginRate, openedAt := Some(at));
      } else if newQty == 0.0 {
        realized, ended := PnlOnClosing(p, Abs(p.qty), price), true;
        q := p.(qty := 0.0, entryPrice := 0.0, realizedPnl := p.realizedPnl + realized, isOpen := false);
      } else if Sign(p.qty) == Sign(newQty) && Abs(newQty) < Abs(p.qty) {
        realized := PnlOnClosing(p, Abs(p.qty) - Abs(newQty), price);
        q := p.(qty := newQty, realizedPnl := p.realizedPnl + realized);
      } else if Sign(p.qty) == Sign(newQty) && Abs(newQty) > Abs(p.qty) {
        var averaged := ToFixed(WeightedEntry(p, quantity, newQty, price), ins.pricePrecision);
        q := p.(entryPrice := averaged, qty := newQty, leverage := o.leverage);
      } else {
        realized, ended := PnlOnClosing(p, Abs(p.qty), price), true;
        q := p.(qty := newQty, entryPrice := price, leverage := o.leverage, realizedPnl := p.realizedPnl + realized);
      }
    }

    method ApplyPositionFill(o: Order, quantity: real, price: real) returns (realized: real)
      modifies this
      ensures St() == PositionFilled(cfg, old(St()), o, quantity, price)
      ensures var before, ins := PositionBefore(cfg, old(St()), o), InstrumentOf(cfg, o.symbol);
        realized == RealizedBy(before, NewQty(before.qty, o.side, quantity, ins), price)
    {
      var ins := InstrumentOf(cfg, o.symbol);
      var k := FindPosition(positions, o.symbol);
      var p := if k < |positions| then positions[k] else NewPosition(o.symbol, o.leverage, ins);
      var q, pnl, ended := MovePosition(p, o, quantity, price, ins, clock);
      assert q.symbol == o.symbol;
      assert p == PositionBefore(cfg, old(St()), o);
      hide PositionBefore, NewQty, PutPosition, FillPosition, RealizedBy, KindOf, CancelMatching;
      realized := pnl;
      if ended {
        CancelStaleBracketOrders(o.symbol);
      }
      SavePosition(q);
    }

    method BookFill(i: nat, o: Order, f: Fill)
      requires i < |orders| && FindPosition(positions, f.symbol) < |positions|
      modifies this
      ensures St() == Booked(old(St()), o, i, f)
    {
      hide AverageWith, PutPosition;
      var p := positions[FindPosition(positions, f.symbol)];
      SavePosition(p.(totalFees := p.totalFees + f.fee));
      walletBalance := walletBalance + f.realizedPnl;
      totalRealizedPnl := totalRealizedPnl + f.realizedPnl;
      orders := orders[i := orders[i].(filledQty := o.filledQty + f.quantity, avgFillPrice := AverageWith(o, f.quantity, f.price))];
      fills := fills + [f];
      tables := tables.(fills := tables.fills + [f]);
    }

    /** Pays the fee, moves the position, books the realized PnL, records the fill. */
    method ExecuteFill(i: nat, quantity: real, price: real, liquidity: Liquidity)
      requires i < |orders|
      modifies this
      ensures St() == BrokerSpec.ExecuteFill(cfg, old(St()), i, quantity, price, liquidity)
    {
      ExecuteFillIsBooked(cfg, St(), i, quantity, price, liquidity);
      hide PositionFilled, NewQty, PutPosition, RealizedBy, FeeFor, BrokerSpec.ExecuteFill, Booked, PositionBefore, FindPosition,
        InstrumentOf;
      var o := orders[i];
      var fee := FeeFor(cfg, quantity, price, liquidity);
      walletBalance, totalFees := walletBalance - fee, totalFees + fee;
      var qtyBefore := QtyOf(positions, o.symbol);
      var realized := ApplyPositionFill(o, quantity, price);
      var after := positions[FindPosition(positions, o.symbol)];
      ghost var moved := St();
      BookFill(i, o, Fill(o.id, o.symbol, o.side, quantity, price, fee, liquidity, realized, qtyBefore, after.qty));
      assert moved == PositionFilled(cfg, FeePaid(old(St()), fee), o, quantity, price);
    }

    method FillOrder(i: nat, m: Market, liquidity: Liquidity)
      requires i < |orders|
      modifies this
      ensures St() == BrokerSpec.FillOrder(cfg, old(St()), i, m, liquidity)
    {
      hide ExecutionPrice, BrokerSpec.ExecuteFill;
      var o := orders[i];
      var remaining := o.quantity - o.filledQty;
      if remaining <= 0.0 {
        orders := orders[i := o.(status := FILLED)];
        return;
      }
      var price := ExecutionPrice(cfg, o, m);
      if price.None? || price.value <= 0.0 {
        RejectOrder(i, "INVALID_EXECUTION_PRICE");
        return;
      }
      ExecuteFillKeepsLength(cfg, St(), i, remaining, price.value, liquidity);
      ExecuteFill(i, remaining, price.value, liquidity);
      SetOrder(i, orders[i].(status := if orders[i].filledQty >= orders[i].quantity then FILLED else PARTIALLY_FILLED));
    }

    // ----- submission -----

    method CheckOrderTerms(o: Order, price: Option<real>) returns (reason: Option<string>)
      ensures reason == OrderReason(cfg, o, price)
    {
      var ins, risk := InstrumentOf(cfg, o.symbol), cfg.risk;
      if o.typ == MARKET && !risk.allowMarketOrders { return Some("MARKET_ORDERS_DISABLED"); }
      if o.typ == LIMIT && !risk.allowLimitOrders { return Some("LIMIT_ORDERS_DISABLED"); }
      if o.IsStop() && !risk.allowStopOrders { return Some("STOP_ORDERS_DISABLED"); }
      if o.quantity <= 0.0 { return Some("INVALID_QTY"); }
      if o.quantity < ins.minQty { return Some("MIN_QTY_NOT_MET"); }
      if o.leverage > risk.maxLeverage { return Some("MAX_LEVERAGE_EXCEEDED"); }
      if price.None? || price.value <= 0.0 { return Some("NO_VALID_PRICE"); }
      if o.quantity * price.value < ins.minNotional { return Some("MIN_NOTIONAL_NOT_MET"); }
      reason := None;
    }

    method CheckExposure(o: Order, price: real, env: Env) returns (reason: Option<string>)
      ensures reason == ExposureReason(cfg, St(), env, o, price)
    {
      var account := CalculateAccountState(localMarkets + env.external);
      hide Equity, AvailableBalance, LiveCount, QtyOf, RequiredBalance, PositionNotionalAfter;
      var qty := QtyOf(positions, o.symbol);
      var newQty := qty + SignedQty(o.side, o.quantity);
      var increases := Abs(newQty) > Abs(qty);
      if o.reduceOnly {
        if increases { return Some("REDUCE_ONLY_WOULD_INCREASE"); }
      } else {
        if o.quantity * price > cfg.risk.maxOrderNotional { return Some("MAX_ORDER_NOTIONAL_EXCEEDED"); }
        if PositionNotionalAfter(qty, newQty, price) > cfg.risk.maxPositionNotional {
          return Some("MAX_POSITION_NOTIONAL_EXCEEDED");
        }
        if account.openOrdersCount >= cfg.risk.maxOpenOrders { return Some("MAX_OPEN_ORDERS_EXCEEDED"); }
        if account.equity < dayStartEquity - cfg.risk.maxDailyLoss { return Some("MAX_DAILY_LOSS_EXCEEDED"); }
      }
      if increases && account.availableBalance < RequiredBalance(cfg, o, price) {
        return Some("INSUFFICIENT_AVAILABLE_BALANCE");
      }
      reason := None;
    }

    /** checkOrderRisk: the first reason to refuse, or None. */
    method CheckOrderRisk(o: Order, m: Market, env: Env) returns (reason: Option<string>)
      modifies this
      ensures St() == RollDay(old(St()), env)
      ensures reason == RiskReason(cfg, St(), env, o, m)
    {
      hide RollDay, OrderReason, ExposureReason, EstimatedPrice;
      RollDailyEquityIfNeeded(env);
      var price := EstimatedPrice(o, m);
      reason := CheckOrderTerms(o, price);
      if reason.None? && price.Some? {
        reason := CheckExposure(o, price.value, env);
      }
    }

    method PlaceOrder(o: Order)
      modifies this
      ensures St() == Place(old(St()), o)
    {
      orders := orders + [o];
      nextId := nextId + 1;
      tables := tables.(orders := tables.orders[o.id := o]);
    }

    /** submitOrder once the order is stored: market checks, risk check, then the order-type branches. */
    method ScreenOrder(i: nat, env: Env)
      requires i < |orders|
      modifies this
      ensures St() == Screen(cfg, old(St()), i, env)
    {
      hide RiskReason, RollDay, Follow, RouteOf;
      var o, book := orders[i], localMarkets + env.external;
      if o.symbol !in book {
        RejectOrder(i, "NO_MARKET_STATE");
      } else if Stale(cfg, env, book[o.symbol]) {
        RejectOrder(i, "STALE_MARKET_DATA");
      } else {
        RollDayKeepsBook(St(), env);
        var reason := CheckOrderRisk(o, book[o.symbol], env);
        if reason.Some? {
          RejectOrder(i, reason.value);
        } else {
          RouteOrder(i, book[o.symbol]);
        }
      }
    }

    /** submitOrder. Returns the index of the stored order, or None where submitOrder throws on an
        unknown instrument. */
    method SubmitOrder(cmd: OrderCommand, env: Env) returns (placed: Option<nat>)
      modifies this
      ensures St() == Submit(cfg, AtTime(old(St()), env), env, cmd)
      ensures placed == if cmd.symbol in cfg.instruments then Some(|old(orders)|) else None
    {
      hide NewOrder, Screen;
      clock := env.nowMs;
      if cmd.symbol !in cfg.instruments {
        return None;
      }
      placed := Some(|orders|);
      PlaceOrder(NewOrder(cfg, St(), cmd));
      ScreenOrder(|orders| - 1, env);
    }

    /** The order-type branches of submitOrder, for an order that passed the risk check. */
    method RouteOrder(i: nat, m: Market)
      requires i < |orders|
      modifies this
      ensures St() == Follow(cfg, old(St()), i, m, RouteOf(old(orders)[i], m))
    {
      hide BrokerSpec.FillOrder, StopTriggered, LimitMarketable;
      var o := orders[i];
      if o.typ == MARKET {
        FillOrder(i, m, TAKER);
      } else if o.typ == LIMIT {
        if !Truthy(o.limitPrice) {
          RejectOrder(i, "MISSING_LIMIT_PRICE");
        } else if LimitMarketable(o, m) {
          if o.postOnly {
            RejectOrder(i, "POST_ONLY_WOULD_FILL");
          } else {
            FillOrder(i, m, TAKER);
          }
        } else if o.timeInForce == IOC {
          CancelOrderAt(i);
        } else if o.timeInForce == FOK {
          RejectOrder(i, "FOK_CANNOT_FILL_FULLY");
        }
      } else if o.IsStop() {
        if !Truthy(o.stopPrice) {
          RejectOrder(i, "MISSING_STOP_PRICE");
        } else if StopTriggered(o, m) {
          FillOrder(i, m, TAKER);
        }
      } else {
        RejectOrder(i, "UNSUPPORTED_ORDER_TYPE");
      }
    }

    // ----- market ticks -----

    method EvaluateOpenOrders(symbol: Symbol, m: Market)
      modifies this
      ensures St() == EvaluateFrom(cfg, old(St()), 0, symbol, m)
    {
      hide BrokerSpec.FillOrder, StopTriggered, LimitMarketable;
      var n := |orders|;
      for i := 0 to n
        invariant |orders| == n
        invariant EvaluateFrom(cfg, old(St()), 0, symbol, m) == EvaluateFrom(cfg, St(), i, symbol, m)
      {
        ghost var before := St();
        var o := orders[i];
        if o.symbol == symbol && o.Live() {
          if o.typ == LIMIT {
            if LimitMarketable(o, m) {
              FillOrder(i, m, MAKER);
            }
          } else if o.IsStop() && StopTriggered(o, m) {
            FillOrder(i, m, TAKER);
          }
        }
        assert St() == EvaluateOrder(cfg, before, i, symbol, m);
      }
    }

    method LiquidatePosition(k: nat, book: map<Symbol, Market>)
      requires k < |positions|
      modifies this
      ensures St() == LiquidateAt(cfg, old(St()), book, k)
    {
      hide BrokerSpec.ExecuteFill;
      var p := positions[k];
      if Liquidatable(book, p) {
        var i, o := |orders|, LiquidationOrder(St(), p);
        orders := orders + [o];
        nextId := nextId + 1;
        ExecuteFillKeepsLength(cfg, St(), i, o.quantity, book[p.symbol].mark.value, TAKER);
        ExecuteFill(i, o.quantity, book[p.symbol].mark.value, TAKER);
        SetOrder(i, orders[i].(status := FILLED));
      }
    }

    method CheckLiquidation(book: map<Symbol, Market>)
      modifies this
      ensures St() == BrokerSpec.CheckLiquidation(cfg, old(St()), book)
    {
      hide SumOf, Equity, LiquidateAt;
      var account := CalculateAccountState(book);
      if account.maintenanceMargin <= 0.0 || account.equity > account.maintenanceMargin {
        return;
      }
      liquidations := liquidations + 1;
      ghost var start := St();
      for k := 0 to |positions|
        invariant |positions| >= |start.positions|
        invariant k <= |start.positions| && St() == LiquidateFirst(cfg, start, book, k)
      {
        LiquidatePosition(k, book);
      }
    }

    /** onMarket; an unknown symbol is ignored with a warning. */
    method OnMarket(u: MarketUpdate, env: Env)
      modifies this
      ensures St() == BrokerSpec.OnMarket(cfg, AtTime(old(St()), env), env, u)
    {
      hide EvaluateFrom, BrokerSpec.CheckLiquidation, Merge;
      clock := env.nowMs;
      if u.symbol in cfg.instruments {
        localMarkets := localMarkets[u.symbol := MergedMarket(St(), u, env.nowMs)];
        var book := localMarkets + env.external;
        EvaluateOpenOrders(u.symbol, book[u.symbol]);
        CheckLiquidation(book);
      }
    }

    // ----- funding, wallet, reset -----

    method ApplyFunding(env: Env)
      modifies this
      ensures St() == FundFirst(old(St()), Book(old(St()), env), |old(positions)|)
    {
      ghost var start := St();
      var book := localMarkets + env.external;
      var n := |positions|;
      for k := 0 to n
        invariant |positions| == n
        invariant St() == FundFirst(start, book, k)
      {
        hide FundAt;
        FundPosition(k, book);
      }
    }

    method FundPosition(k: nat, book: map<Symbol, Market>)
      requires k < |positions|
      modifies this
      ensures St() == FundAt(old(St()), book, k)
    {
      hide FundingFor;
      var p := positions[k];
      if Liquidatable(book, p) && book[p.symbol].fundingRate.Some? {
        var m := book[p.symbol];
        var payment := FundingFor(p, m.mark.value, m.fundingRate.value);
        walletBalance := walletBalance - payment;
        totalFunding := totalFunding + payment;
        var p' := p.(totalFunding := p.totalFunding + payment);
        positions := positions[k := p'];
        tables := tables.(funding := tables.funding + [FundingPayment(p.symbol, p.qty, m.mark.value, m.fundingRate.value, payment)],
                          positions := tables.positions[p.symbol := p']);
      }
    }

    method AdjustWalletBalance(delta: real) returns (balance: real)
      modifies this
      ensures St() == Step(cfg, old(St()), Adjust(delta)) && balance == walletBalance
    {
      walletBalance := walletBalance + delta;
      balance := walletBalance;
    }

    method ResetAccount(start: Option<real>, env: Env)
      modifies this
      ensures St() == BrokerSpec.ResetAccount(old(St()), start, env)
    {
      hide CancelAll, CloseRows;
      CancelAllOrders(None);
      ClearAccount(if start.Some? then start.value else DEFAULT_RESET_BALANCE, env.utcDay);
    }

    method ClearAccount(balance: real, utcDay: int)
      modifies this
      ensures St() == EmptyAccount(old(St()), balance, utcDay)
    {
      hide CloseRows;
      ClearLists();
      ClearTotals(balance, utcDay);
    }

    method ClearLists()
      modifies this
      ensures St() == old(St()).(orders := [], positions := [], fills := [],
                                 db := Db(CloseRows(old(tables).orders), map[], [], []))
    {
      hide CloseRows;
      orders, positions, fills := [], [], [];
      tables := Db(CloseRows(tables.orders), map[], [], []);
    }

    method ClearTotals(balance: real, utcDay: int)
      modifies this
      ensures St() == old(St()).(wallet := balance, totalFees := 0.0, totalFunding := 0.0, totalRealizedPnl := 0.0,
                                 liquidations := 0, dayStartEquity := balance, utcDay := utcDay)
    {
      walletBalance := balance;
      totalFees, totalFunding, totalRealizedPnl := 0.0, 0.0, 0.0;
      liquidations := 0;
      dayStartEquity := balance;
      currentUtcDay := utcDay;
    }
  }
}
