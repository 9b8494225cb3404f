/** Margins on either side of the market, and the mark at which a position is liquidated. */
module LiquidationPrice {
  import opened Prelude
  import opened Decimal
  import opened BrokerTypes
  import opened PositionMath
  import opened BrokerSpec
  import opened BrokerInvariants
  import opened BrokerRuns
  import opened BrokerTheorems
  import opened Broker

  // ----- the price a position is valued at -----

  /** The market's mark, else its last price, else the middle of nonzero bid and ask; without any of them the entry. */
  predicate ValuedAt(book: map<Symbol, Market>, p: Position, price: real) {
    if p.symbol in book && book[p.symbol].mark != None then book[p.symbol].mark == Some(price)
    else if p.symbol in book && book[p.symbol].last != None then book[p.symbol].last == Some(price)
    else if p.symbol in book && Truthy(book[p.symbol].bid) && Truthy(book[p.symbol].ask)
    then price + price == book[p.symbol].bid.value + book[p.symbol].ask.value
    else price == p.entryPrice
  }

  lemma ValuationIs(book: map<Symbol, Market>, p: Position, price: real)
    ensures ValuedAt(book, p, price) <==> ValuationPrice(book, p) == price
  {
  }

  // ----- margins -----

  function InitialTerm(p: Position, price: real): real {
    Abs(p.qty) * price / p.leverage
  }

  function MaintenanceTerm(p: Position, price: real): real {
    Abs(p.qty) * price * p.maintenanceMarginRate
  }

  function ProfitTerm(p: Position, price: real): real {
    p.qty * (price - p.entryPrice)
  }

  /** What a position adds to the sums of the snapshot, at a price. */
  lemma MarginsAre(book: map<Symbol, Market>, p: Position, price: real)
    requires ValuedAt(book, p, price) && price != 0.0
    ensures InitialMargin(book)(p) == InitialTerm(p, price)
    ensures MaintenanceMargin(book)(p) == MaintenanceTerm(p, price)
    ensures Unrealized(book)(p) == ProfitTerm(p, price)
  {
    ValuationIs(book, p, price);
    hide ValuationPrice, ValuedAt;
    if p.qty == 0.0 {
      assert p.qty * (price - p.entryPrice) == 0.0;
      assert Abs(p.qty) * price == 0.0;
      assert 0.0 / p.leverage == 0.0;
    }
  }

  /** Both margins of an open position are positive at a positive price, whichever its side. */
  lemma MarginsArePositive(book: map<Symbol, Market>, p: Position, price: real)
    requires ValuedAt(book, p, price) && price > 0.0 && p.qty != 0.0
    ensures InitialMargin(book)(p) > 0.0
    ensures p.maintenanceMarginRate > 0.0 ==> MaintenanceMargin(book)(p) > 0.0
  {
    MarginsAre(book, p, price);
    hide InitialMargin, MaintenanceMargin, ValuedAt;
    var notional := Abs(p.qty) * price;
    assert notional > 0.0;
    QuotientPositive(notional, p.leverage);
  }

  lemma QuotientPositive(x: real, d: Positive)
    requires x > 0.0
    ensures x / d > 0.0
  {
    DivideBack(x, d);
    Scale(x / d, 0.0, d);
  }

  /** The same position on the other side. */
  function Turned(p: Position): Position {
    p.(qty := -p.qty)
  }

  function TurnedAll(ps: seq<Position>): (r: seq<Position>)
    ensures |r| == |ps| && forall k :: 0 <= k < |ps| ==> r[k] == Turned(ps[k])
  {
    seq(|ps|, k requires 0 <= k < |ps| => Turned(ps[k]))
  }

  lemma TurnedMargins(book: map<Symbol, Market>, p: Position)
    ensures InitialMargin(book)(Turned(p)) == InitialMargin(book)(p)
    ensures MaintenanceMargin(book)(Turned(p)) == MaintenanceMargin(book)(p)
    ensures Unrealized(book)(Turned(p)) == -Unrealized(book)(p)
  {
    var price := ValuationPrice(book, p);
    assert ValuationPrice(book, Turned(p)) == price;
    hide ValuationPrice;
    assert (-p.qty) * (price - p.entryPrice) == -(p.qty * (price - p.entryPrice));
  }

  lemma {:induction false} TurnedSums(book: map<Symbol, Market>, ps: seq<Position>)
    ensures SumOf(InitialMargin(book), TurnedAll(ps)) == SumOf(InitialMargin(book), ps)
    ensures SumOf(MaintenanceMargin(book), TurnedAll(ps)) == SumOf(MaintenanceMargin(book), ps)
    ensures SumOf(Unrealized(book), TurnedAll(ps)) == -SumOf(Unrealized(book), ps)
  {
    hide InitialMargin, MaintenanceMargin, Unrealized, Turned, TurnedAll;
    if ps != [] {
      var n := |ps| - 1;
      TurnedSums(book, ps[..n]);
      TurnedMargins(book, ps[n]);
      assert TurnedAll(ps)[..n] == TurnedAll(ps[..n]);
    }
  }

  /** The snapshot of an account on the other side of every position: the same margins, the opposite unrealized PnL. */
  lemma OtherSideSnapshot(st: State, book: map<Symbol, Market>)
    ensures var a, b := AccountOf(st, book), AccountOf(st.(positions := TurnedAll(st.positions)), book);
      && b.initialMargin == a.initialMargin && b.maintenanceMargin == a.maintenanceMargin
      && b.unrealizedPnl == -a.unrealizedPnl
      && a.equity - a.walletBalance == b.walletBalance - b.equity
  {
    TurnedSums(book, st.positions);
    hide Unrealized, InitialMargin, MaintenanceMargin, TurnedAll, SumOf;
  }

  ghost predicate PricedBy(book: map<Symbol, Market>, ps: seq<Position>, prices: seq<real>) {
    |prices| == |ps| && forall k :: 0 <= k < |ps| ==> prices[k] != 0.0 && ValuedAt(book, ps[k], prices[k])
  }

  /** The left-to-right sums of |qty| * price / leverage, of |qty| * price * rate and of qty * (price - entry). */
  function InitialAt(ps: seq<Position>, prices: seq<real>): real
    requires |prices| == |ps|
  {
    if ps == [] then 0.0
    else
      var n := |ps| - 1;
      InitialAt(ps[..n], prices[..n]) + InitialTerm(ps[n], prices[n])
  }

  function MaintenanceAt(ps: seq<Position>, prices: seq<real>): real
    requires |prices| == |ps|
  {
    if ps == [] then 0.0
    else
      var n := |ps| - 1;
      MaintenanceAt(ps[..n], prices[..n]) + MaintenanceTerm(ps[n], prices[n])
  }

  function ProfitAt(ps: seq<Position>, prices: seq<real>): real
    requires |prices| == |ps|
  {
    if ps == [] then 0.0
    else
      var n := |ps| - 1;
      ProfitAt(ps[..n], prices[..n]) + ProfitTerm(ps[n], prices[n])
  }

  lemma {:induction false} SumsAre(book: map<Symbol, Market>, ps: seq<Position>, prices: seq<real>)
    requires PricedBy(book, ps, prices)
    ensures SumOf(InitialMargin(book), ps) == InitialAt(ps, prices)
    ensures SumOf(MaintenanceMargin(book), ps) == MaintenanceAt(ps, prices)
    ensures SumOf(Unrealized(book), ps) == ProfitAt(ps, prices)
  {
    if ps != [] {
      var n := |ps| - 1;
      hide InitialMargin, MaintenanceMargin, Unrealized, ValuedAt, InitialTerm, MaintenanceTerm, ProfitTerm;
      SumsAre(book, ps[..n], prices[..n]);
      MarginsAre(book, ps[n], prices[n]);
    }
  }

  /** What every snapshot shows, in wallet, quantities, entries, leverages, rates and prices alone. */
  lemma SnapshotIs(st: State, book: map<Symbol, Market>, prices: seq<real>)
    requires PricedBy(book, st.positions, prices)
    ensures var a := AccountOf(st, book);
      && a.walletBalance == st.wallet && a.unrealizedPnl == ProfitAt(st.positions, prices)
      && a.equity == st.wallet + ProfitAt(st.positions, prices)
      && a.initialMargin == InitialAt(st.positions, prices) && a.maintenanceMargin == MaintenanceAt(st.positions, prices)
      && a.availableBalance == Max(0.0, a.equity - a.initialMargin)
  {
    SumsAre(book, st.positions, prices);
    hide Unrealized, InitialMargin, MaintenanceMargin, SumOf, ProfitAt, InitialAt, MaintenanceAt;
  }

  // ----- the liquidation price -----

  /** Position k alone is open. */
  ghost predicate OnlyOpen(ps: seq<Position>, k: nat)
    requires k < |ps|
  {
    ps[k].qty != 0.0 && forall j :: 0 <= j < |ps| && j != k ==> ps[j].qty == 0.0
  }

  lemma {:induction false} SumOfOne(f: Position -> real, ps: seq<Position>, k: nat)
    requires k < |ps| && forall j :: 0 <= j < |ps| && j != k ==> f(ps[j]) == 0.0
    ensures SumOf(f, ps) == f(ps[k])
  {
    var n := |ps| - 1;
    if k == n {
      SumOfNone(f, ps[..n]);
    } else {
      SumOfOne(f, ps[..n], k);
    }
  }

  lemma {:induction false} SumOfNone(f: Position -> real, ps: seq<Position>)
    requires forall j :: 0 <= j < |ps| ==> f(ps[j]) == 0.0
    ensures SumOf(f, ps) == 0.0
  {
    if ps != [] {
      SumOfNone(f, ps[..|ps| - 1]);
    }
  }

  lemma OneOpen(st: State, book: map<Symbol, Market>, k: nat, m: real)
    requires k < |st.positions| && OnlyOpen(st.positions, k) && m > 0.0
    requires var p := st.positions[k]; p.symbol in book && book[p.symbol].mark == Some(m)
    ensures var p := st.positions[k];
      && Equity(st, book) == st.wallet + p.qty * (m - p.entryPrice)
      && SumOf(MaintenanceMargin(book), st.positions) == Abs(p.qty) * m * p.maintenanceMarginRate
  {
    MarginsAre(book, st.positions[k], m);
    SumOfOne(Unrealized(book), st.positions, k);
    SumOfOne(MaintenanceMargin(book), st.positions, k);
    hide Unrealized, MaintenanceMargin, SumOf, OnlyOpen;
  }

  lemma FiresIff(cfg: Config, st: State, book: map<Symbol, Market>)
    ensures CheckLiquidation(cfg, st, book).liquidations == st.liquidations + (if MustLiquidate(st, book) then 1 else 0)
  {
    hide MustLiquidate, LiquidateFirst;
    LiquidationsKept(cfg, st.(liquidations := st.liquidations + 1), book, |st.positions|);
  }

  /** The liquidation price, in wallet, quantity, entry, mark and rate: with one position open, a long of q is liquidated
      exactly at marks m with m*q*(1-rate) <= q*entry - wallet, and a short of s at those with
      m*s*(1+rate) >= wallet + s*entry. */
  lemma LiquidatedIff(cfg: Config, st: State, book: map<Symbol, Market>, k: nat, m: real)
    requires k < |st.positions| && OnlyOpen(st.positions, k) && m > 0.0
    requires var p := st.positions[k];
      p.symbol in book && book[p.symbol].mark == Some(m) && 0.0 < p.maintenanceMarginRate < 1.0
    ensures var p := st.positions[k];
      var rate, size := p.maintenanceMarginRate, if p.qty > 0.0 then p.qty else -p.qty;
      CheckLiquidation(cfg, st, book).liquidations == st.liquidations + 1 <==>
        if p.qty > 0.0 then m * size * (1.0 - rate) <= size * p.entryPrice - st.wallet
        else m * size * (1.0 + rate) >= st.wallet + size * p.entryPrice
  {
    var p := st.positions[k];
    assert p.qty != 0.0;
    hide CheckLiquidation, Equity, MaintenanceMargin, SumOf, OnlyOpen;
    FiresIff(cfg, st, book);
    OneOpen(st, book, k, m);
    BreakEven(st.wallet, p.qty, p.entryPrice, m, p.maintenanceMarginRate);
  }

  lemma BreakEven(wallet: real, q: real, entry: real, m: real, rate: real)
    requires q != 0.0 && m > 0.0 && rate > 0.0
    ensures Abs(q) * m * rate > 0.0
    ensures var size := Abs(q);
      wallet + q * (m - entry) <= size * m * rate <==>
        if q > 0.0 then m * size * (1.0 - rate) <= size * entry - wallet else m * size * (1.0 + rate) >= wallet + size * entry
  {
    var size := Abs(q);
    var notional := m * size;
    assert notional > 0.0 && size * m == notional && size * m * rate == notional * rate;
    assert notional * (1.0 - rate) == notional - notional * rate && notional * (1.0 + rate) == notional + notional * rate;
    assert q * (m - entry) == if q > 0.0 then notional - size * entry else size * entry - notional;
  }

  /** It fires somewhere: a long's losses reach it as the mark falls, a short's as the mark rises, and once reached it
      stays reached. */
  lemma WorseMarkStaysLiquidated(wallet: real, size: real, entry: real, m: real, worse: real, rate: real)
    requires size > 0.0 && 0.0 < rate < 1.0
    ensures worse <= m && m * size * (1.0 - rate) <= size * entry - wallet ==>
      worse * size * (1.0 - rate) <= size * entry - wallet
    ensures worse >= m && m * size * (1.0 + rate) >= wallet + size * entry ==>
      worse * size * (1.0 + rate) >= wallet + size * entry
  {
    Scale(worse, m, size);
    Scale(m, worse, size);
    Scale(worse * size, m * size, 1.0 - rate);
    Scale(m * size, worse * size, 1.0 + rate);
  }
}
