/** What every reachable state of the broker satisfies, and why each kind of edit keeps it. */
module BrokerInvariants {
  import opened Prelude
  import opened Decimal
  import opened BrokerTypes
  import opened PositionMath
  import opened BrokerSpec

  // ----- the invariant -----

  /** The fills booked for one order, oldest first. */
  function FillsOf(fs: seq<Fill>, id: nat): seq<Fill> {
    if fs == [] then []
    else
      var rest := FillsOf(fs[..|fs| - 1], id);
      if fs[|fs| - 1].orderId == id then rest + [fs[|fs| - 1]] else rest
  }

  /** f is the complete execution of o. */
  predicate Executes(f: Fill, o: Order) {
    f.orderId == o.id && f.symbol == o.symbol && f.side == o.side &&
    f.quantity == o.quantity == o.filledQty && f.price == o.avgFillPrice
  }

  predicate NoWorseThanLimit(o: Order) {
    o.typ == LIMIT ==>
      o.limitPrice.Some? &&
      if o.side == BUY then o.avgFillPrice <= o.limitPrice.value else o.avgFillPrice >= o.limitPrice.value
  }

  /** FILLED means one fill of the whole quantity; every other status means no fill at all. */
  predicate OrderOk(o: Order, fs: seq<Fill>) {
    && o.status in {NEW, FILLED, CANCELED, REJECTED}
    && (o.Live() ==> o.quantity > 0.0)
    && (o.status == FILLED ==> |FillsOf(fs, o.id)| == 1 && Executes(FillsOf(fs, o.id)[0], o) && NoWorseThanLimit(o))
    && (o.status != FILLED ==> FillsOf(fs, o.id) == [] && o.filledQty == 0.0)
  }

  ghost predicate OrdersOk(os: seq<Order>, fs: seq<Fill>) {
    forall k :: 0 <= k < |os| ==> OrderOk(os[k], fs)
  }

  ghost predicate IdsOk(os: seq<Order>, fs: seq<Fill>, rows: map<nat, Order>, nextId: nat) {
    && (forall k :: 0 <= k < |os| ==> os[k].id < nextId)
    && (forall j, k :: 0 <= j < k < |os| ==> os[j].id != os[k].id)
    && (forall k :: 0 <= k < |fs| ==> fs[k].orderId < nextId)
    && (forall id :: id in rows ==> id < nextId && rows[id].id == id)
  }

  ghost predicate KnownSymbols(cfg: Config, os: seq<Order>, ps: seq<Position>) {
    && (forall k :: 0 <= k < |os| ==> os[k].symbol in cfg.instruments)
    && (forall k :: 0 <= k < |ps| ==> ps[k].symbol in cfg.instruments)
  }

  predicate Guards(o: Order, qty: real) {
    if o.side == SELL then qty > 0.0 else qty < 0.0
  }

  /** A live reduce-only stop or take-profit always has a position to protect, on the other side. */
  ghost predicate BracketsOk(os: seq<Order>, ps: seq<Position>) {
    forall k :: 0 <= k < |os| && os[k].LiveBracket() ==> Guards(os[k], QtyOf(ps, os[k].symbol))
  }

  ghost predicate DistinctSymbols(ps: seq<Position>) {
    forall j, k :: 0 <= j < k < |ps| ==> ps[j].symbol != ps[k].symbol
  }

  predicate PositionOk(cfg: Config, p: Position) {
    OnGrid(p.qty, InstrumentOf(cfg, p.symbol).quantityPrecision) && (p.qty != 0.0 ==> p.isOpen && p.openedAt.Some?)
  }

  ghost predicate PositionsOk(cfg: Config, ps: seq<Position>) {
    DistinctSymbols(ps) && forall k :: 0 <= k < |ps| ==> PositionOk(cfg, ps[k])
  }

  /** The orders table agrees with the book on every order but (possibly) number `skip`. */
  ghost predicate OrderRowsOk(rows: map<nat, Order>, os: seq<Order>, skip: int) {
    && (forall k :: 0 <= k < |os| && k != skip ==> os[k].id in rows && rows[os[k].id] == os[k])
    && (forall id :: id in rows && rows[id].Live() ==> rows[id] in os)
  }

  /** A saved position differs from the live one at most by the re-rounding of a past restart. */
  predicate SameRow(cfg: Config, row: Position, p: Position) {
    var n := InstrumentOf(cfg, p.symbol).pricePrecision;
    row == p.(entryPrice := row.entryPrice) && ToFixed(row.entryPrice, n) == ToFixed(p.entryPrice, n)
  }

  ghost predicate PositionRowsOk(cfg: Config, rows: map<Symbol, Position>, ps: seq<Position>) {
    && (forall k :: 0 <= k < |ps| ==> ps[k].symbol in rows && SameRow(cfg, rows[ps[k].symbol], ps[k]))
    && (forall s :: s in rows ==> rows[s].symbol == s)
    && (forall s :: s in rows && Reloadable(rows[s]) ==> FindPosition(ps, s) < |ps|)
  }

  /** Money that did not come from trading: deposits, and what positions no longer listed had booked.
      `complete` says that the fill list reaches back to the empty account, with no restart since. */
  datatype Books = Books(base: real, oldFees: real, oldFunding: real, oldRealized: real, complete: bool)

  function PosFees(p: Position): real { p.totalFees }
  function PosFunding(p: Position): real { p.totalFunding }
  function PosRealized(p: Position): real { p.realizedPnl }

  predicate LedgerOk(st: State, b: Books) {
    && st.wallet == b.base + st.totalRealizedPnl - st.totalFees - st.totalFunding
    && st.totalFees == SumOf(FeeOf, st.fills)
    && st.totalRealizedPnl == SumOf(RealizedOf, st.fills)
    && st.totalFunding == SumOf(PaymentOf, st.db.funding)
    && multiset(st.db.fills) == multiset(st.fills)
    && st.totalFees == b.oldFees + SumOf(PosFees, st.positions)
    && st.totalFunding == b.oldFunding + SumOf(PosFunding, st.positions)
    && st.totalRealizedPnl == b.oldRealized + SumOf(PosRealized, st.positions)
  }

  /** Lot steps are whole numbers of the quantity precision, so no quantity is ever rounded away. */
  ghost predicate StepsFit(cfg: Config) {
    forall s :: s in cfg.instruments ==> OnGrid(cfg.instruments[s].stepSize, cfg.instruments[s].quantityPrecision)
  }

  /** The part of a position that its trades determine. */
  datatype Exposure = Exposure(qty: real, entryPrice: real, realizedPnl: real)

  function ExposureOf(p: Position): Exposure {
    Exposure(p.qty, p.entryPrice, p.realizedPnl)
  }

  function ExposureIn(ps: seq<Position>, symbol: Symbol): Exposure {
    var k := FindPosition(ps, symbol);
    if k < |ps| then ExposureOf(ps[k]) else Exposure(0.0, 0.0, 0.0)
  }

  function TradeOf(f: Fill): Trade {
    Trade(f.side, f.quantity, f.price)
  }

  /** The trades booked on one symbol, oldest first. */
  function TradesOn(fs: seq<Fill>, symbol: Symbol): seq<Trade> {
    if fs == [] then []
    else
      var rest := TradesOn(fs[..|fs| - 1], symbol);
      if fs[|fs| - 1].symbol == symbol then rest + [TradeOf(fs[|fs| - 1])] else rest
  }

  /** Every position is what replaying its symbol's fills gives. */
  ghost predicate LogOk(cfg: Config, ps: seq<Position>, fs: seq<Fill>) {
    && StepsFit(cfg)
    && (forall k :: 0 <= k < |fs| ==> Tradable(TradeOf(fs[k]), InstrumentOf(cfg, fs[k].symbol)))
    && (forall s :: ExposureIn(ps, s) == ExposureOf(Replay(TradesOn(fs, s), InstrumentOf(cfg, s))))
  }

  /** When lot steps fit the precision, every order's quantity is on the precision grid. */
  ghost predicate OrdersOnGrid(cfg: Config, os: seq<Order>) {
    StepsFit(cfg) ==>
      forall k :: 0 <= k < |os| ==> OnGrid(os[k].quantity, InstrumentOf(cfg, os[k].symbol).quantityPrecision)
  }

  /** The invariant, except that order `skip` (if any) need not be saved yet. */
  ghost predicate GoodBut(cfg: Config, st: State, b: Books, skip: int) {
    && OrdersOk(st.orders, st.fills)
    && IdsOk(st.orders, st.fills, st.db.orders, st.nextId)
    && KnownSymbols(cfg, st.orders, st.positions)
    && BracketsOk(st.orders, st.positions)
    && PositionsOk(cfg, st.positions)
    && OrderRowsOk(st.db.orders, st.orders, skip)
    && PositionRowsOk(cfg, st.db.positions, st.positions)
    && LedgerOk(st, b)
    && OrdersOnGrid(cfg, st.orders)
    && (b.complete ==> LogOk(cfg, st.positions, st.fills))
  }

  ghost predicate Good(cfg: Config, st: State, b: Books) {
    GoodBut(cfg, st, b, -1)
  }

  /** Saved orders that are finished never change again. */
  ghost predicate Frozen(before: map<nat, Order>, after: map<nat, Order>) {
    forall id :: id in before && !before[id].Live() ==> id in after && after[id] == before[id]
  }

  // ----- lists -----

  lemma FillsOfAppend(fs: seq<Fill>, f: Fill, id: nat)
    ensures FillsOf(fs + [f], id) == if f.orderId == id then FillsOf(fs, id) + [f] else FillsOf(fs, id)
  {
    assert (fs + [f])[..|fs|] == fs;
  }

  lemma {:induction false} FillsOfNone(fs: seq<Fill>, id: nat)
    ensures FillsOf(fs, id) == [] <==> forall f :: f in fs ==> f.orderId != id
  {
    if fs != [] {
      FillsOfNone(fs[..|fs| - 1], id);
      assert fs == fs[..|fs| - 1] + [fs[|fs| - 1]];
    }
  }

  lemma FindPositionIs(ps: seq<Position>, k: nat)
    requires DistinctSymbols(ps) && k < |ps|
    ensures FindPosition(ps, ps[k].symbol) == k
  {
    assert FindPosition(ps, ps[k].symbol) <= k;
  }

  lemma FindPositionAbsent(ps: seq<Position>, s: Symbol)
    requires forall k :: 0 <= k < |ps| ==> ps[k].symbol != s
    ensures FindPosition(ps, s) == |ps|
  {
  }

  lemma PutKeepsDistinct(ps: seq<Position>, p: Position)
    requires DistinctSymbols(ps)
    ensures DistinctSymbols(PutPosition(ps, p))
  {
    var k := FindPosition(ps, p.symbol);
    if k < |ps| {
      assert ps[k].symbol == p.symbol;
    }
  }

  lemma PutFindsOwn(ps: seq<Position>, p: Position)
    requires DistinctSymbols(ps)
    ensures FindPosition(PutPosition(ps, p), p.symbol) == FindPosition(ps, p.symbol) < |PutPosition(ps, p)|
  {
    PutKeepsDistinct(ps, p);
    PutAt(ps, p);
    hide PutPosition, DistinctSymbols, FindPosition;
    FindPositionIs(PutPosition(ps, p), FindPosition(ps, p.symbol));
  }

  lemma PutFindsOther(ps: seq<Position>, p: Position, s: Symbol)
    requires DistinctSymbols(ps) && s != p.symbol && FindPosition(ps, s) < |ps|
    ensures var j := FindPosition(ps, s); FindPosition(PutPosition(ps, p), s) == j && PutPosition(ps, p)[j] == ps[j]
  {
    var j := FindPosition(ps, s);
    PutKeepsDistinct(ps, p);
    PutAt(ps, p);
    hide PutPosition, DistinctSymbols, FindPosition;
    FindPositionIs(PutPosition(ps, p), j);
  }

  lemma PutFindsNone(ps: seq<Position>, p: Position, s: Symbol)
    requires s != p.symbol && FindPosition(ps, s) == |ps|
    ensures FindPosition(PutPosition(ps, p), s) == |PutPosition(ps, p)|
  {
    FindPositionAbsent(PutPosition(ps, p), s);
  }

  lemma PutPositionFind(ps: seq<Position>, p: Position, s: Symbol)
    requires DistinctSymbols(ps)
    ensures var r := PutPosition(ps, p);
      && DistinctSymbols(r)
      && FindPosition(r, p.symbol) == FindPosition(ps, p.symbol) < |r|
      && (s != p.symbol ==>
           if FindPosition(ps, s) < |ps|
           then FindPosition(r, s) == FindPosition(ps, s) && r[FindPosition(ps, s)] == ps[FindPosition(ps, s)]
           else FindPosition(r, s) == |r|)
  {
    hide PutPosition, DistinctSymbols, FindPosition;
    PutKeepsDistinct(ps, p);
    PutFindsOwn(ps, p);
    if s != p.symbol && FindPosition(ps, s) < |ps| {
      PutFindsOther(ps, p, s);
    } else if s != p.symbol {
      PutFindsNone(ps, p, s);
    }
  }

  lemma PutAt(ps: seq<Position>, p: Position)
    ensures var k, r := FindPosition(ps, p.symbol), PutPosition(ps, p);
      && k < |r| && r[k] == p && |r| == (if k < |ps| then |ps| else |ps| + 1)
      && forall j :: 0 <= j < |ps| && j != k ==> r[j] == ps[j]
  {
  }

  /** Storing a position changes the quantity of its own symbol and of no other. */
  lemma PutPositionQty(ps: seq<Position>, p: Position, s: Symbol)
    requires DistinctSymbols(ps)
    ensures DistinctSymbols(PutPosition(ps, p))
    ensures FindPosition(PutPosition(ps, p), p.symbol) == FindPosition(ps, p.symbol) < |PutPosition(ps, p)|
    ensures QtyOf(PutPosition(ps, p), s) == if s == p.symbol then p.qty else QtyOf(ps, s)
    ensures FindPosition(ps, s) < |ps| ==> FindPosition(PutPosition(ps, p), s) < |PutPosition(ps, p)|
  {
    PutPositionFind(ps, p, s);
  }

  ghost predicate DistinctIds(os: seq<Order>) {
    forall j, k :: 0 <= j < k < |os| ==> os[j].id != os[k].id
  }

  lemma FindOrderIs(os: seq<Order>, k: nat)
    requires DistinctIds(os) && k < |os|
    ensures FindOrder(os, os[k].id) == k
  {
    assert FindOrder(os, os[k].id) <= k;
  }

  /** Saving the canceled orders writes their rows and no others. */
  lemma {:induction false} CanceledRowIs(rows: map<nat, Order>, os: seq<Order>, f: Filter, id: nat)
    requires DistinctIds(os)
    ensures var j, r := FindOrder(os, id), CanceledRows(rows, os, f);
      if j < |os| && Hits(f, os[j]) then id in r && r[id] == CancelIf(f, os[j])
      else (id in r <==> id in rows) && (id in rows ==> r[id] == rows[id])
  {
    hide Hits, CancelIf;
    if os != [] {
      var n := |os| - 1;
      CanceledRowIs(rows, os[..n], f, id);
      FindOrderIs(os, n);
    }
  }

  ghost predicate RowsKeyed(rows: map<nat, Order>, nextId: nat) {
    forall id :: id in rows ==> id < nextId && rows[id].id == id
  }

  /** Order `skip` may be unsaved, or saved while still live. */
  predicate SkipIsLive(rows: map<nat, Order>, os: seq<Order>, skip: int) {
    0 <= skip < |os| && os[skip].id in rows ==> rows[os[skip].id].Live()
  }

  lemma CancelKeepsRows(rows: map<nat, Order>, os: seq<Order>, f: Filter, skip: int, nextId: nat)
    requires DistinctIds(os) && OrderRowsOk(rows, os, skip) && SkipIsLive(rows, os, skip)
    requires RowsKeyed(rows, nextId) && forall k :: 0 <= k < |os| ==> os[k].id < nextId
    ensures var rows' := CanceledRows(rows, os, f);
      OrderRowsOk(rows', Canceled(os, f), skip) && Frozen(rows, rows') && RowsKeyed(rows', nextId)
  {
    hide CanceledRows;
    var rows', os' := CanceledRows(rows, os, f), Canceled(os, f);
    forall k | 0 <= k < |os| && k != skip ensures os'[k].id in rows' && rows'[os'[k].id] == os'[k] {
      FindOrderIs(os, k);
      CanceledRowIs(rows, os, f, os[k].id);
    }
    forall id | id in rows' && rows'[id].Live() ensures rows'[id] in os' {
      CanceledRowIs(rows, os, f, id);
      var k :| 0 <= k < |os| && os[k] == rows[id];
      FindOrderIs(os, k);
      assert os'[k] == os[k];
    }
    forall id | id in rows && !rows[id].Live() ensures id in rows' && rows'[id] == rows[id] {
      CanceledRowIs(rows, os, f, id);
    }
    forall id | id in rows' ensures id < nextId && rows'[id].id == id {
      CanceledRowIs(rows, os, f, id);
    }
  }

  /** Finishing order i and saving it makes every row agree again. */
  lemma FinishKeepsRows(rows: map<nat, Order>, os: seq<Order>, i: nat, o: Order, skip: int, nextId: nat)
    requires i < |os| && o.id == os[i].id && !o.Live() && (skip == i || skip == -1)
    requires DistinctIds(os) && OrderRowsOk(rows, os, skip)
    requires RowsKeyed(rows, nextId) && forall k :: 0 <= k < |os| ==> os[k].id < nextId
    ensures OrderRowsOk(rows[o.id := o], os[i := o], -1) && RowsKeyed(rows[o.id := o], nextId)
  {
    var rows', os' := rows[o.id := o], os[i := o];
    forall id | id in rows' && rows'[id].Live() ensures rows'[id] in os' {
      var k :| 0 <= k < |os| && os[k] == rows[id];
      assert os'[k] == os[k];
    }
  }

  // ----- one complete fill -----

  /** Order i executed in full at `price`: what both fillOrder and liquidation do. */
  function Filled(cfg: Config, st: State, i: nat, price: real, liquidity: Liquidity): State
    requires i < |st.orders|
  {
    var s := ExecuteFill(cfg, st, i, st.orders[i].quantity, price, liquidity);
    SaveOrder(s, i, s.orders[i].(status := FILLED))
  }

  function Swept(f: Fill, o: Order): Order {
    if KindOf(f.positionQtyBefore, f.positionQtyAfter) in {CLOSE, FLIP}
    then CancelIf(StaleBrackets(f.symbol), o) else o
  }

  function Executed(o: Order, price: real): Order {
    o.(status := FILLED, filledQty := o.quantity, avgFillPrice := price)
  }

  function FillAt(cfg: Config, st: State, i: nat, price: real, liquidity: Liquidity): Fill
    requires i < |st.orders|
  {
    FillRecord(cfg, st, st.orders[i], st.orders[i].quantity, price, liquidity)
  }

  function PositionAt(cfg: Config, st: State, i: nat, price: real, liquidity: Liquidity): Position
    requires i < |st.orders|
  {
    PositionAfter(cfg, st, st.orders[i], st.orders[i].quantity, price, FillAt(cfg, st, i, price, liquidity).fee)
  }

  predicate Fillable(o: Order, price: real) {
    && o.Live() && o.quantity > 0.0 && o.filledQty == 0.0
    && NoWorseThanLimit(o.(avgFillPrice := price))
  }

  lemma FirstAverage(o: Order, price: real)
    requires o.quantity > 0.0 && o.filledQty == 0.0
    ensures AverageWith(o, o.quantity, price) == price
  {
    DivideBack(price * o.quantity, o.quantity);
  }

  /** A fill moves an order's progress and status, not what was ordered. */
  predicate SameTerms(a: Order, b: Order) {
    a.id == b.id && a.symbol == b.symbol && a.quantity == b.quantity
  }

  lemma FilledOrdersAre(cfg: Config, st: State, i: nat, price: real, liquidity: Liquidity)
    requires i < |st.orders| && Fillable(st.orders[i], price)
    ensures var r, f := Filled(cfg, st, i, price, liquidity), FillAt(cfg, st, i, price, liquidity);
      && |r.orders| == |st.orders|
      && r.orders[i] == Executed(st.orders[i], price)
      && (forall k :: 0 <= k < |st.orders| && k != i ==> r.orders[k] == Swept(f, st.orders[k]))
      && (forall k :: 0 <= k < |st.orders| ==> SameTerms(r.orders[k], st.orders[k]))
      && r.orders == AfterBracketSweep(st, f).orders[i := r.orders[i]]
      && r.db.orders == AfterBracketSweep(st, f).db.orders[st.orders[i].id := r.orders[i]]
  {
    hide PositionAfter, FillRecord, AverageWith;
    FirstAverage(st.orders[i], price);
  }

  lemma FilledMoneyIs(cfg: Config, st: State, i: nat, price: real, liquidity: Liquidity)
    requires i < |st.orders|
    ensures var r, f, p := Filled(cfg, st, i, price, liquidity), FillAt(cfg, st, i, price, liquidity),
                           PositionAt(cfg, st, i, price, liquidity);
      && r.fills == st.fills + [f] && r.db.fills == st.db.fills + [f] && r.db.funding == st.db.funding
      && r.positions == PutPosition(st.positions, p)
      && r.db.positions == st.db.positions[p.symbol := p]
      && r.wallet == st.wallet - f.fee + f.realizedPnl
      && r.totalFees == st.totalFees + f.fee && r.totalRealizedPnl == st.totalRealizedPnl + f.realizedPnl
      && r.totalFunding == st.totalFunding && r.nextId == st.nextId && r.markets == st.markets
  {
    hide PositionAfter, FillRecord, AverageWith;
  }

  lemma FilledKeepsOrders(cfg: Config, st: State, i: nat, price: real, liquidity: Liquidity)
    requires i < |st.orders| && Fillable(st.orders[i], price)
    requires OrdersOk(st.orders, st.fills) && IdsOk(st.orders, st.fills, st.db.orders, st.nextId)
    ensures var r := Filled(cfg, st, i, price, liquidity); OrdersOk(r.orders, r.fills)
  {
    var r, f := Filled(cfg, st, i, price, liquidity), FillAt(cfg, st, i, price, liquidity);
    hide Filled, FillAt, PositionAt, AfterBracketSweep, QtyOf, KindOf;
    FilledOrdersAre(cfg, st, i, price, liquidity);
    FilledMoneyIs(cfg, st, i, price, liquidity);
    FillIsFor(cfg, st, i, price, liquidity);
    forall k | 0 <= k < |r.orders| ensures OrderOk(r.orders[k], r.fills) {
      FillsOfAppend(st.fills, f, st.orders[k].id);
      assert OrderOk(st.orders[k], st.fills);
      assert OrderOk(st.orders[i], st.fills);
    }
  }

  lemma SweepKeepsRows(st: State, f: Fill, i: nat)
    requires i < |st.orders| && IdsOk(st.orders, st.fills, st.db.orders, st.nextId)
    requires OrderRowsOk(st.db.orders, st.orders, i) && SkipIsLive(st.db.orders, st.orders, i)
    ensures var s := AfterBracketSweep(st, f);
      && |s.orders| == |st.orders| && (forall k :: 0 <= k < |s.orders| ==> s.orders[k].id == st.orders[k].id)
      && OrderRowsOk(s.db.orders, s.orders, i) && RowsKeyed(s.db.orders, st.nextId)
      && Frozen(st.db.orders, s.db.orders)
  {
    CancelKeepsRows(st.db.orders, st.orders, StaleBrackets(f.symbol), i, st.nextId);
  }

  lemma FilledKeepsRows(cfg: Config, st: State, i: nat, price: real, liquidity: Liquidity)
    requires i < |st.orders| && Fillable(st.orders[i], price)
    requires IdsOk(st.orders, st.fills, st.db.orders, st.nextId)
    requires OrderRowsOk(st.db.orders, st.orders, i) && SkipIsLive(st.db.orders, st.orders, i)
    ensures var r := Filled(cfg, st, i, price, liquidity);
      && IdsOk(r.orders, r.fills, r.db.orders, r.nextId)
      && OrderRowsOk(r.db.orders, r.orders, -1)
      && Frozen(st.db.orders, r.db.orders)
  {
    var r, f := Filled(cfg, st, i, price, liquidity), FillAt(cfg, st, i, price, liquidity);
    var s := AfterBracketSweep(st, f);
    hide Filled, FillAt, PositionAt, AfterBracketSweep, OrderRowsOk, Swept, NoWorseThanLimit, Frozen, QtyOf;
    FilledOrdersAre(cfg, st, i, price, liquidity);
    FilledMoneyIs(cfg, st, i, price, liquidity);
    FillIsFor(cfg, st, i, price, liquidity);
    SweepKeepsRows(st, f, i);
    assert r.orders == s.orders[i := r.orders[i]];
    FinishKeepsRows(s.db.orders, s.orders, i, r.orders[i], i, st.nextId);
    hide RowsKeyed, IdsOk;
    FilledIds(st, r.orders, f, r.db.orders);
  }

  lemma FilledIds(st: State, rs: seq<Order>, f: Fill, rows: map<nat, Order>)
    requires IdsOk(st.orders, st.fills, st.db.orders, st.nextId) && RowsKeyed(rows, st.nextId) && f.orderId < st.nextId
    requires |rs| == |st.orders| && forall k :: 0 <= k < |rs| ==> rs[k].id == st.orders[k].id
    ensures IdsOk(rs, st.fills + [f], rows, st.nextId)
  {
  }

  lemma FillIsFor(cfg: Config, st: State, i: nat, price: real, liquidity: Liquidity)
    requires i < |st.orders|
    ensures var f, o := FillAt(cfg, st, i, price, liquidity), st.orders[i];
      && f.orderId == o.id && f.symbol == o.symbol && f.side == o.side && f.quantity == o.quantity && f.price == price
      && f.positionQtyBefore == QtyOf(st.positions, o.symbol)
  {
    hide NewQty, RealizedBy;
  }

  /** The position a fill leaves: quantity, identity, and what it has booked so far. */
  lemma PositionAtIs(cfg: Config, st: State, i: nat, price: real, liquidity: Liquidity)
    requires i < |st.orders|
    ensures var p, f, o := PositionAt(cfg, st, i, price, liquidity), FillAt(cfg, st, i, price, liquidity), st.orders[i];
      var before := PositionBefore(cfg, st, o);
      && p.symbol == o.symbol && p.qty == f.positionQtyAfter
      && p.totalFees == before.totalFees + f.fee && p.totalFunding == before.totalFunding
      && p.realizedPnl == before.realizedPnl + f.realizedPnl
  {
    hide NewQty, WeightedEntry, AveragedEntry;
  }

  lemma PositionAtOk(cfg: Config, st: State, i: nat, price: real, liquidity: Liquidity)
    requires i < |st.orders| && PositionsOk(cfg, st.positions)
    ensures PositionOk(cfg, PositionAt(cfg, st, i, price, liquidity))
  {
    hide WeightedEntry, AveragedEntry, ToFixed, RealizedBy;
    var o := st.orders[i];
    var before := PositionBefore(cfg, st, o);
    var ins := InstrumentOf(cfg, o.symbol);
    ToFixedFixesGrid(before.qty + SignedQty(o.side, o.quantity), ins.quantityPrecision);
    var k := FindPosition(st.positions, o.symbol);
    assert k < |st.positions| ==> PositionOk(cfg, st.positions[k]);
  }

  lemma PutPositionAt(ps: seq<Position>, p: Position, j: nat)
    requires j < |PutPosition(ps, p)|
    ensures PutPosition(ps, p)[j] == p || (j < |ps| && PutPosition(ps, p)[j] == ps[j] && j != FindPosition(ps, p.symbol))
  {
  }

  /** Storing and saving one position keeps the list and its rows in agreement. */
  lemma PutKeepsPositions(cfg: Config, ps: seq<Position>, rows: map<Symbol, Position>, p: Position)
    requires PositionsOk(cfg, ps) && PositionOk(cfg, p) && PositionRowsOk(cfg, rows, ps)
    ensures PositionsOk(cfg, PutPosition(ps, p)) && PositionRowsOk(cfg, rows[p.symbol := p], PutPosition(ps, p))
    ensures forall q :: q in PutPosition(ps, p) ==> q == p || q in ps
  {
    var r, rows' := PutPosition(ps, p), rows[p.symbol := p];
    hide PositionOk, SameRow, Reloadable, PutPosition;
    PutPositionQty(ps, p, p.symbol);
    forall s | s in rows' && Reloadable(rows'[s]) ensures FindPosition(r, s) < |r| {
      PutPositionQty(ps, p, s);
      PutPositionAt(ps, p, FindPosition(ps, p.symbol));
    }
    forall j | 0 <= j < |r|
      ensures r[j] == p || r[j] in ps
      ensures PositionOk(cfg, r[j]) && r[j].symbol in rows' && SameRow(cfg, rows'[r[j].symbol], r[j])
    {
      PutPositionAt(ps, p, j);
      SameRowSelf(cfg, p);
      if r[j] != p {
        FindPositionIs(ps, j);
      }
    }
  }

  lemma SameRowSelf(cfg: Config, p: Position)
    ensures SameRow(cfg, p, p)
  {
  }

  lemma FilledKeepsPositions(cfg: Config, st: State, i: nat, price: real, liquidity: Liquidity)
    requires i < |st.orders| && PositionsOk(cfg, st.positions) && KnownSymbols(cfg, st.orders, st.positions)
    requires PositionRowsOk(cfg, st.db.positions, st.positions) && Fillable(st.orders[i], price)
    ensures var r := Filled(cfg, st, i, price, liquidity);
      && PositionsOk(cfg, r.positions) && KnownSymbols(cfg, r.orders, r.positions)
      && PositionRowsOk(cfg, r.db.positions, r.positions)
  {
    var r, p := Filled(cfg, st, i, price, liquidity), PositionAt(cfg, st, i, price, liquidity);
    hide Filled, PositionAt, FillAt, PositionsOk, PositionOk, PositionRowsOk, PutPosition, Fillable, KnownSymbols, PositionBefore;
    FilledOrdersAre(cfg, st, i, price, liquidity);
    FilledMoneyIs(cfg, st, i, price, liquidity);
    PositionAtIs(cfg, st, i, price, liquidity);
    PositionAtOk(cfg, st, i, price, liquidity);
    PutKeepsPositions(cfg, st.positions, st.db.positions, p);
    PutKeepsKnown(cfg, st.orders, r.orders, st.positions, p, i);
  }

  lemma PutKeepsKnown(cfg: Config, os: seq<Order>, rs: seq<Order>, ps: seq<Position>, p: Position, i: nat)
    requires KnownSymbols(cfg, os, ps) && i < |os| && p.symbol == os[i].symbol
    requires |rs| == |os| && forall k :: 0 <= k < |os| ==> rs[k].symbol == os[k].symbol
    ensures KnownSymbols(cfg, rs, PutPosition(ps, p))
  {
    hide FindPosition;
  }

  lemma FilledKeepsBrackets(cfg: Config, st: State, i: nat, price: real, liquidity: Liquidity)
    requires i < |st.orders| && PositionsOk(cfg, st.positions) && Fillable(st.orders[i], price)
    requires BracketsOk(st.orders, st.positions)
    ensures var r := Filled(cfg, st, i, price, liquidity); BracketsOk(r.orders, r.positions)
  {
    var r, f := Filled(cfg, st, i, price, liquidity), FillAt(cfg, st, i, price, liquidity);
    var p, o := PositionAt(cfg, st, i, price, liquidity), st.orders[i];
    hide Filled, PositionAt, FillAt, PositionBefore, QtyOf, PositionOk, NoWorseThanLimit;
    FilledOrdersAre(cfg, st, i, price, liquidity);
    FilledMoneyIs(cfg, st, i, price, liquidity);
    PositionAtIs(cfg, st, i, price, liquidity);
    FillIsFor(cfg, st, i, price, liquidity);
    forall k | 0 <= k < |r.orders| && r.orders[k].LiveBracket()
      ensures Guards(r.orders[k], QtyOf(r.positions, r.orders[k].symbol))
    {
      assert k != i && r.orders[k] == st.orders[k];
      PutPositionQty(st.positions, p, st.orders[k].symbol);
    }
  }

  /** Storing a position moves a sum over positions by that position's own change. */
  lemma PutSum(g: Position -> real, ps: seq<Position>, p: Position, fallback: Position)
    requires g(fallback) == 0.0
    ensures SumOf(g, PutPosition(ps, p)) == SumOf(g, ps) + g(p) - g(PositionOr(ps, p.symbol, fallback))
  {
    var k := FindPosition(ps, p.symbol);
    if k < |ps| {
      SumUpdate(g, ps, k, p);
    } else {
      SumAppend(g, ps, p);
    }
  }

  lemma FilledKeepsLedger(cfg: Config, st: State, b: Books, i: nat, price: real, liquidity: Liquidity)
    requires i < |st.orders| && LedgerOk(st, b)
    ensures LedgerOk(Filled(cfg, st, i, price, liquidity), b)
  {
    var f, p, o := FillAt(cfg, st, i, price, liquidity), PositionAt(cfg, st, i, price, liquidity), st.orders[i];
    var fallback := NewPosition(o.symbol, o.leverage, InstrumentOf(cfg, o.symbol));
    hide Filled, PositionAt, FillAt, PutPosition, PositionOr, SumOf, InstrumentOf;
    FilledMoneyIs(cfg, st, i, price, liquidity);
    PositionAtIs(cfg, st, i, price, liquidity);
    SumAppend(FeeOf, st.fills, f);
    SumAppend(RealizedOf, st.fills, f);
    PutSum(PosFees, st.positions, p, fallback);
    PutSum(PosFunding, st.positions, p, fallback);
    PutSum(PosRealized, st.positions, p, fallback);
  }

  lemma TradesOnAppend(fs: seq<Fill>, f: Fill, s: Symbol)
    ensures TradesOn(fs + [f], s) == if f.symbol == s then TradesOn(fs, s) + [TradeOf(f)] else TradesOn(fs, s)
  {
    assert (fs + [f])[..|fs|] == fs;
  }

  lemma SameAverage(p: Position, q: Position, quantity: real, n: real, price: real, ins: Instrument)
    requires ExposureOf(p) == ExposureOf(q)
    ensures AveragedEntry(p, quantity, n, price, ins) == AveragedEntry(q, quantity, n, price, ins)
  {
    hide ToFixed;
    assert p.qty == q.qty && p.entryPrice == q.entryPrice;
    if n != 0.0 {
      assert WeightedEntry(p, quantity, n, price) == WeightedEntry(q, quantity, n, price);
    }
  }

  lemma SameRealized(p: Position, q: Position, n: real, price: real)
    requires ExposureOf(p) == ExposureOf(q)
    ensures RealizedBy(p, n, price) == RealizedBy(q, n, price)
  {
  }

  /** What a fill does to the exposure depends on the exposure alone. */
  lemma FillExposure(p: Position, q: Position, side: Side, quantity: real, price: real, x: Positive, y: Positive, ins: Instrument,
                     at: int, bt: int)
    requires ExposureOf(p) == ExposureOf(q)
    ensures ExposureOf(FillPosition(p, side, quantity, price, x, ins, at))
         == ExposureOf(FillPosition(q, side, quantity, price, y, ins, bt))
  {
    var n := NewQty(p.qty, side, quantity, ins);
    hide NewQty, AveragedEntry, RealizedBy;
    SameAverage(p, q, quantity, n, price, ins);
    SameRealized(p, q, n, price);
  }

  lemma ReplayAppend(ts: seq<Trade>, t: Trade, ins: Instrument)
    ensures Replay(ts + [t], ins) == FillPosition(Replay(ts, ins), t.side, t.quantity, t.price, 1.0, ins, 0)
  {
    assert (ts + [t])[..|ts|] == ts;
  }

  lemma PutExposure(ps: seq<Position>, p: Position, s: Symbol)
    requires DistinctSymbols(ps)
    ensures ExposureIn(PutPosition(ps, p), s) == if s == p.symbol then ExposureOf(p) else ExposureIn(ps, s)
  {
    PutPositionFind(ps, p, s);
  }

  lemma FilledExposure(cfg: Config, st: State, i: nat, price: real, liquidity: Liquidity)
    requires i < |st.orders|
    ensures var o, p := st.orders[i], PositionAt(cfg, st, i, price, liquidity);
      && ExposureOf(p) == ExposureOf(FillPosition(PositionBefore(cfg, st, o), o.side, o.quantity, price, o.leverage,
                                                  InstrumentOf(cfg, o.symbol), st.clock))
      && ExposureOf(PositionBefore(cfg, st, o)) == ExposureIn(st.positions, o.symbol)
  {
    hide FillPosition;
  }

  /** After the fill, its symbol's position is again the replay of its symbol's trades. */
  lemma FilledIsReplayed(cfg: Config, st: State, i: nat, price: real, liquidity: Liquidity, s: Symbol)
    requires i < |st.orders| && PositionsOk(cfg, st.positions)
    requires ExposureIn(st.positions, s) == ExposureOf(Replay(TradesOn(st.fills, s), InstrumentOf(cfg, s)))
    ensures var f, p := FillAt(cfg, st, i, price, liquidity), PositionAt(cfg, st, i, price, liquidity);
      ExposureIn(PutPosition(st.positions, p), s)
        == ExposureOf(Replay(TradesOn(st.fills + [f], s), InstrumentOf(cfg, s)))
  {
    var f, p, o := FillAt(cfg, st, i, price, liquidity), PositionAt(cfg, st, i, price, liquidity), st.orders[i];
    var before, ins := PositionBefore(cfg, st, o), InstrumentOf(cfg, o.symbol);
    FilledExposure(cfg, st, i, price, liquidity);
    PositionAtIs(cfg, st, i, price, liquidity);
    FillIsFor(cfg, st, i, price, liquidity);
    hide FillAt, PositionAt, PositionBefore, FillPosition, InstrumentOf, PositionOk, PutPosition, TradesOn, Replay, ExposureIn;
    PutExposure(st.positions, p, s);
    TradesOnAppend(st.fills, f, s);
    var ts := TradesOn(st.fills, o.symbol);
    ReplayAppend(ts, TradeOf(f), ins);
    if s == o.symbol {
      FillExposure(before, Replay(ts, ins), o.side, o.quantity, price, o.leverage, 1.0, ins, st.clock, 0);
    }
  }

  lemma FillIsTradable(cfg: Config, st: State, i: nat, f: Fill, price: real)
    requires i < |st.orders| && Fillable(st.orders[i], price) && LogOk(cfg, st.positions, st.fills)
    requires OrdersOnGrid(cfg, st.orders)
    requires f.symbol == st.orders[i].symbol && f.quantity == st.orders[i].quantity
    ensures forall k :: 0 <= k < |st.fills + [f]| ==>
      Tradable(TradeOf((st.fills + [f])[k]), InstrumentOf(cfg, (st.fills + [f])[k].symbol))
  {
    hide InstrumentOf, OnGrid, ExposureIn, Replay, StepsFit, ExposureOf;
  }

  lemma FilledKeepsLog(cfg: Config, st: State, i: nat, price: real, liquidity: Liquidity)
    requires i < |st.orders| && Fillable(st.orders[i], price) && PositionsOk(cfg, st.positions)
    requires LogOk(cfg, st.positions, st.fills) && OrdersOnGrid(cfg, st.orders)
    ensures var r := Filled(cfg, st, i, price, liquidity); LogOk(cfg, r.positions, r.fills)
  {
    var r, f := Filled(cfg, st, i, price, liquidity), FillAt(cfg, st, i, price, liquidity);
    FilledOrdersAre(cfg, st, i, price, liquidity);
    FilledMoneyIs(cfg, st, i, price, liquidity);
    FillIsFor(cfg, st, i, price, liquidity);
    hide Filled, FillAt, PositionAt, OnGrid, InstrumentOf, PositionOk, PutPosition, TradesOn, Replay, ExposureIn, StepsFit, Swept, AfterBracketSweep,
      NoWorseThanLimit, QtyOf, ExposureOf, DistinctSymbols, PositionsOk, Tradable, Executed;
    FillIsTradable(cfg, st, i, f, price);
    forall s ensures ExposureIn(r.positions, s) == ExposureOf(Replay(TradesOn(r.fills, s), InstrumentOf(cfg, s))) {
      FilledIsReplayed(cfg, st, i, price, liquidity, s);
    }
  }

  lemma SameTermsOnGrid(cfg: Config, os: seq<Order>, rs: seq<Order>)
    requires OrdersOnGrid(cfg, os) && |rs| == |os| && forall k :: 0 <= k < |os| ==> SameTerms(rs[k], os[k])
    ensures OrdersOnGrid(cfg, rs)
  {
    hide OnGrid, InstrumentOf, StepsFit;
  }

  lemma FilledKeepsGrid(cfg: Config, st: State, i: nat, price: real, liquidity: Liquidity)
    requires i < |st.orders| && Fillable(st.orders[i], price) && OrdersOnGrid(cfg, st.orders)
    ensures OrdersOnGrid(cfg, Filled(cfg, st, i, price, liquidity).orders)
  {
    hide Filled, FillAt, AfterBracketSweep, Swept, Executed, OrdersOnGrid, SameTerms;
    FilledOrdersAre(cfg, st, i, price, liquidity);
    SameTermsOnGrid(cfg, st.orders, Filled(cfg, st, i, price, liquidity).orders);
  }

  /** A complete fill keeps the whole invariant, and also saves the order it filled. */
  lemma FilledKeepsGood(cfg: Config, st: State, b: Books, i: nat, price: real, liquidity: Liquidity)
    requires i < |st.orders| && Fillable(st.orders[i], price)
    requires GoodBut(cfg, st, b, i) && SkipIsLive(st.db.orders, st.orders, i)
    ensures Good(cfg, Filled(cfg, st, i, price, liquidity), b)
    ensures Frozen(st.db.orders, Filled(cfg, st, i, price, liquidity).db.orders)
  {
    hide Filled, OrdersOk, KnownSymbols, BracketsOk, PositionsOk, PositionRowsOk, LedgerOk, OrderRowsOk, IdsOk, Fillable, LogOk, OrdersOnGrid;
    FilledKeepsGrid(cfg, st, i, price, liquidity);
    if b.complete {
      FilledKeepsLog(cfg, st, i, price, liquidity);
    }
    FilledKeepsOrders(cfg, st, i, price, liquidity);
    FilledKeepsRows(cfg, st, i, price, liquidity);
    FilledKeepsPositions(cfg, st, i, price, liquidity);
    FilledKeepsBrackets(cfg, st, i, price, liquidity);
    FilledKeepsLedger(cfg, st, b, i, price, liquidity);
  }
}
