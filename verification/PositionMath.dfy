/** How one fill moves a position, and what a whole sequence of fills is worth. */
module PositionMath {
  import opened Prelude
  import opened Decimal
  import opened BrokerTypes

  datatype FillKind = OPEN | CLOSE | REDUCE | INCREASE | FLIP

  /** The branch applyPositionFill takes, in its order of tests. */
  function KindOf(oldQty: real, newQty: real): FillKind {
    if oldQty == 0.0 then OPEN
    else if newQty == 0.0 then CLOSE
    else if Sign(oldQty) == Sign(newQty) && Abs(newQty) < Abs(oldQty) then REDUCE
    else if Sign(oldQty) == Sign(newQty) && Abs(newQty) > Abs(oldQty) then INCREASE
    else FLIP
  }

  function Direction(qty: real): real {
    if qty > 0.0 then 1.0 else -1.0
  }

  function NewPosition(symbol: Symbol, leverage: Positive, ins: Instrument): Position {
    Position(symbol, true, 0.0, 0.0, leverage, ins.maintenanceMarginRate, 0.0, 0.0, 0.0, None)
  }

  function NewQty(oldQty: real, side: Side, quantity: real, ins: Instrument): real {
    ToFixed(oldQty + SignedQty(side, quantity), ins.quantityPrecision)
  }

  /** PnL of taking `closed` units off the position at `price`. */
  function PnlOnClosing(p: Position, closed: real, price: real): real {
    closed * (price - p.entryPrice) * Direction(p.qty)
  }

  /** PnL realized by a fill: only the part of the position it takes away. */
  function RealizedBy(p: Position, newQty: real, price: real): real {
    match KindOf(p.qty, newQty)
    case OPEN => 0.0
    case INCREASE => 0.0
    case REDUCE => PnlOnClosing(p, Abs(p.qty) - Abs(newQty), price)
    case CLOSE => PnlOnClosing(p, Abs(p.qty), price)
    case FLIP => PnlOnClosing(p, Abs(p.qty), price)
  }

  /** The volume-weighted entry price of an increase, before it is rounded. */
  function WeightedEntry(p: Position, quantity: real, newQty: real, price: real): real
    requires newQty != 0.0
  {
    (Abs(p.qty) * p.entryPrice + Abs(quantity) * price) / Abs(newQty)
  }

  /** The entry price an INCREASE books: the weighted price rounded to the instrument's precision. */
  function AveragedEntry(p: Position, quantity: real, newQty: real, price: real, ins: Instrument): real {
    if newQty == 0.0 then 0.0
    else ToFixed(WeightedEntry(p, quantity, newQty, price), ins.pricePrecision)
  }

  /** The five branches, given the new quantity and the averaged entry price. */
  function MoveTo(
    p: Position, newQty: real, averaged: real, price: real, leverage: Positive, rate: real, at: int
  ): Position
  {
    var realized := p.realizedPnl + RealizedBy(p, newQty, price);
    match KindOf(p.qty, newQty)
    case OPEN =>
      p.(isOpen := true, entryPrice := price, qty := newQty, leverage := leverage, maintenanceMarginRate := rate,
         openedAt := Some(at))
    case CLOSE => p.(qty := 0.0, entryPrice := 0.0, realizedPnl := realized, isOpen := false)
    case REDUCE => p.(qty := newQty, realizedPnl := realized)
    case INCREASE => p.(entryPrice := averaged, qty := newQty, leverage := leverage)
    case FLIP => p.(qty := newQty, entryPrice := price, leverage := leverage, realizedPnl := realized)
  }

  /** The position after a fill; fees are booked separately by the caller. */
  function FillPosition(
    p: Position, side: Side, quantity: real, price: real, leverage: Positive, ins: Instrument, at: int
  ): Position
  {
    var newQty := NewQty(p.qty, side, quantity, ins);
    MoveTo(p, newQty, AveragedEntry(p, quantity, newQty, price, ins), price, leverage, ins.maintenanceMarginRate, at)
  }

  // ----- path independence -----

  datatype Trade = Trade(side: Side, quantity: real, price: real)

  /** What a position is worth at mark m: PnL already realized plus PnL still open. */
  function Worth(p: Position, m: real): real {
    ValueAt(p.realizedPnl, p.qty, p.entryPrice, m)
  }

  function ValueAt(realized: real, qty: real, entry: real, m: real): real {
    realized + qty * (m - entry)
  }

  /** What one trade on its own contributes at mark m. */
  function TradeWorth(t: Trade, m: real): real {
    SignedQty(t.side, t.quantity) * (m - t.price)
  }

  /** What carrying n units at a instead of w adds to their open PnL. */
  function Offset(n: real, w: real, a: real): real {
    n * (w - a)
  }

  /** Value added by rounding the entry price of an INCREASE, and by nothing else. */
  function Residual(p: Position, t: Trade, ins: Instrument): real {
    var newQty := NewQty(p.qty, t.side, t.quantity, ins);
    if KindOf(p.qty, newQty) == INCREASE
    then Offset(newQty, WeightedEntry(p, t.quantity, newQty, t.price), AveragedEntry(p, t.quantity, newQty, t.price, ins))
    else 0.0
  }

  /** |newQty| * half a price tick for an INCREASE, zero for the other branches. */
  function RoundingAllowance(p: Position, t: Trade, ins: Instrument): real {
    var newQty := NewQty(p.qty, t.side, t.quantity, ins);
    if KindOf(p.qty, newQty) == INCREASE then Abs(newQty) * HalfUnit(ins.pricePrecision) else 0.0
  }

  predicate Tradable(t: Trade, ins: Instrument) {
    t.quantity > 0.0 && OnGrid(t.quantity, ins.quantityPrecision)
  }

  lemma NewQtyExact(p: Position, t: Trade, ins: Instrument)
    requires OnGrid(p.qty, ins.quantityPrecision) && Tradable(t, ins)
    ensures NewQty(p.qty, t.side, t.quantity, ins) == p.qty + SignedQty(t.side, t.quantity)
    ensures OnGrid(p.qty + SignedQty(t.side, t.quantity), ins.quantityPrecision)
  {
    var n := ins.quantityPrecision;
    GridSum(t.quantity, t.quantity, n);
    GridSum(p.qty, SignedQty(t.side, t.quantity), n);
    ToFixedFixesGrid(p.qty + SignedQty(t.side, t.quantity), n);
  }

  lemma WeightedEntryExact(p: Position, quantity: real, newQty: real, price: real)
    requires newQty != 0.0
    ensures Abs(newQty) * WeightedEntry(p, quantity, newQty, price)
         == Abs(p.qty) * p.entryPrice + Abs(quantity) * price
  {
    DivideBack(Abs(p.qty) * p.entryPrice + Abs(quantity) * price, Abs(newQty));
  }

  lemma IncreaseAverages(q: real, s: real, n: real, e: real, x: real, w: real)
    requires n == q + s && KindOf(q, n) == INCREASE
    requires Abs(n) * w == Abs(q) * e + Abs(s) * x
    ensures n * w == q * e + s * x
  {
  }

  /** Moving to n = q + s by one trade adds the trade's worth, plus n times the averaging error of an INCREASE. */
  lemma MoveAddsWorth(
    p: Position, t: Trade, n: real, w: real, a: real, leverage: Positive, rate: real, at: int, m: real
  )
    requires n == p.qty + SignedQty(t.side, t.quantity)
    requires KindOf(p.qty, n) == INCREASE ==> n * w == p.qty * p.entryPrice + (n - p.qty) * t.price
    ensures Worth(MoveTo(p, n, a, t.price, leverage, rate, at), m)
         == Worth(p, m) + TradeWorth(t, m) + if KindOf(p.qty, n) == INCREASE then Offset(n, w, a) else 0.0
  {
  }

  /** One fill, in any of the five branches, adds exactly its own worth plus the rounding residual. */
  lemma FillAddsItsWorth(p: Position, t: Trade, leverage: Positive, ins: Instrument, at: int, m: real)
    requires OnGrid(p.qty, ins.quantityPrecision) && Tradable(t, ins)
    ensures Worth(FillPosition(p, t.side, t.quantity, t.price, leverage, ins, at), m)
         == Worth(p, m) + TradeWorth(t, m) + Residual(p, t, ins)
  {
    hide NewQty, WeightedEntry, AveragedEntry, OnGrid, MoveTo, Worth, TradeWorth, Offset, SignedQty;
    NewQtyExact(p, t, ins);
    var n := NewQty(p.qty, t.side, t.quantity, ins);
    var w := if n == 0.0 then 0.0 else WeightedEntry(p, t.quantity, n, t.price);
    if KindOf(p.qty, n) == INCREASE {
      IncreaseIsWeighted(p, t, n);
    }
    MoveAddsWorth(p, t, n, w, AveragedEntry(p, t.quantity, n, t.price, ins), leverage, ins.maintenanceMarginRate, at, m);
  }

  lemma IncreaseIsWeighted(p: Position, t: Trade, n: real)
    requires n == p.qty + SignedQty(t.side, t.quantity) && KindOf(p.qty, n) == INCREASE && t.quantity > 0.0
    ensures n * WeightedEntry(p, t.quantity, n, t.price) == p.qty * p.entryPrice + (n - p.qty) * t.price
  {
    WeightedEntryExact(p, t.quantity, n, t.price);
    hide WeightedEntry;
    IncreaseAverages(p.qty, n - p.qty, n, p.entryPrice, t.price, WeightedEntry(p, t.quantity, n, t.price));
  }

  lemma AbsProduct(a: real, b: real, bound: real)
    requires Abs(b) <= bound
    ensures Abs(a * b) <= Abs(a) * bound
  {
    Scale(Abs(b), bound, Abs(a) + 1.0);
    assert Abs(a * b) == Abs(a) * Abs(b);
  }

  lemma AveragedEntryError(p: Position, quantity: real, newQty: real, price: real, ins: Instrument)
    requires newQty != 0.0
    ensures Abs(WeightedEntry(p, quantity, newQty, price) - AveragedEntry(p, quantity, newQty, price, ins))
         <= HalfUnit(ins.pricePrecision)
  {
    hide WeightedEntry, ToFixed, HalfUnit;
    ToFixedError(WeightedEntry(p, quantity, newQty, price), ins.pricePrecision);
  }

  lemma ResidualBounded(p: Position, t: Trade, ins: Instrument)
    ensures Abs(Residual(p, t, ins)) <= RoundingAllowance(p, t, ins)
  {
    hide NewQty, WeightedEntry, AveragedEntry, HalfUnit;
    var n := NewQty(p.qty, t.side, t.quantity, ins);
    if KindOf(p.qty, n) == INCREASE {
      AveragedEntryError(p, t.quantity, n, t.price, ins);
      AbsProduct(n, WeightedEntry(p, t.quantity, n, t.price) - AveragedEntry(p, t.quantity, n, t.price, ins),
                 HalfUnit(ins.pricePrecision));
    }
  }

  /** The position reached from nothing by a sequence of trades on one instrument. */
  function Replay(ts: seq<Trade>, ins: Instrument): Position {
    if ts == [] then NewPosition("", 1.0, ins)
    else
      var t := ts[|ts| - 1];
      FillPosition(Replay(ts[..|ts| - 1], ins), t.side, t.quantity, t.price, 1.0, ins, 0)
  }

  function WorthAt(m: real): Trade -> real {
    t => TradeWorth(t, m)
  }

  /** Net quantity bought by a trade. */
  function NetQty(t: Trade): real {
    SignedQty(t.side, t.quantity)
  }

  function TotalResidual(ts: seq<Trade>, ins: Instrument): real {
    if ts == [] then 0.0
    else TotalResidual(ts[..|ts| - 1], ins) + Residual(Replay(ts[..|ts| - 1], ins), ts[|ts| - 1], ins)
  }

  /** Half a price tick for every unit held after each INCREASE. */
  function TotalAllowance(ts: seq<Trade>, ins: Instrument): real {
    if ts == [] then 0.0
    else TotalAllowance(ts[..|ts| - 1], ins) + RoundingAllowance(Replay(ts[..|ts| - 1], ins), ts[|ts| - 1], ins)
  }

  lemma ZeroOnGrid(places: nat)
    ensures OnGrid(0.0, places)
  {
    assert 0.0 * Pow10(places) == 0.0;
  }

  /** The position's quantity is the exact sum of its trades. */
  lemma {:induction false} ReplayQty(ts: seq<Trade>, ins: Instrument)
    requires forall t :: t in ts ==> Tradable(t, ins)
    ensures Replay(ts, ins).qty == SumOf(NetQty, ts)
    ensures OnGrid(Replay(ts, ins).qty, ins.quantityPrecision)
  {
    if ts == [] {
      ZeroOnGrid(ins.quantityPrecision);
    } else {
      hide NewQty, OnGrid, AveragedEntry, RealizedBy;
      var n := |ts| - 1;
      ReplayQty(ts[..n], ins);
      NewQtyExact(Replay(ts[..n], ins), ts[n], ins);
    }
  }

  /** Realized plus open PnL is the sum of the trades' own worths, up to the entry rounding of
      INCREASE fills; without that rounding the two are equal. */
  lemma {:induction false} WorthIsSumOfTrades(ts: seq<Trade>, ins: Instrument, m: real)
    requires forall t :: t in ts ==> Tradable(t, ins)
    ensures Worth(Replay(ts, ins), m) == SumOf(WorthAt(m), ts) + TotalResidual(ts, ins)
    ensures Abs(TotalResidual(ts, ins)) <= TotalAllowance(ts, ins)
  {
    if ts != [] {
      hide Worth, TradeWorth, Residual, RoundingAllowance, FillPosition, OnGrid;
      var n := |ts| - 1;
      var p := Replay(ts[..n], ins);
      WorthIsSumOfTrades(ts[..n], ins, m);
      ReplayQty(ts[..n], ins);
      FillAddsItsWorth(p, ts[n], 1.0, ins, 0, m);
      ResidualBounded(p, ts[n], ins);
    }
  }

  /** Path independence: the order in which the same trades arrive changes what the position is worth
      by no more than the entry rounding along the two paths. */
  lemma PathIndependence(ts: seq<Trade>, us: seq<Trade>, ins: Instrument, m: real)
    requires forall t :: t in ts ==> Tradable(t, ins)
    requires multiset(ts) == multiset(us)
    ensures Replay(ts, ins).qty == Replay(us, ins).qty
    ensures Abs(Worth(Replay(ts, ins), m) - Worth(Replay(us, ins), m))
         <= TotalAllowance(ts, ins) + TotalAllowance(us, ins)
  {
    hide Worth, TradeWorth, Replay, Tradable;
    forall t | t in us ensures Tradable(t, ins) {
      assert t in multiset(us);
    }
    WorthIsSumOfTrades(ts, ins, m);
    WorthIsSumOfTrades(us, ins, m);
    SumPermutation(WorthAt(m), ts, us);
    ReplayQty(ts, ins);
    ReplayQty(us, ins);
    SumPermutation(NetQty, ts, us);
  }
}
