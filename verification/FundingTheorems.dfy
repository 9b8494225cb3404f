/** What funding charges: longs pay a positive rate and shorts receive it. */
module FundingTheorems {
  import opened Prelude
  import opened Decimal
  import opened BrokerTypes
  import opened PositionMath
  import opened BrokerSpec
  import opened BrokerInvariants
  import opened BrokerRuns

  // ----- every recorded payment -----

  /** Signed quantity times mark times rate, for an open position at a nonzero mark. */
  predicate Charged(x: FundingPayment) {
    x.payment == x.qty * x.markPrice * x.fundingRate && x.qty != 0.0 && x.markPrice != 0.0
  }

  ghost predicate AllCharged(xs: seq<FundingPayment>) {
    forall k :: 0 <= k < |xs| ==> Charged(xs[k])
  }

  /** Executions leave the funding table and the market data alone. */
  lemma FillOrderLeaves(cfg: Config, st: State, i: nat, m: Market, liquidity: Liquidity)
    requires i < |st.orders|
    ensures var r := FillOrder(cfg, st, i, m, liquidity); r.db.funding == st.db.funding && r.markets == st.markets
  {
    hide ExecutionPrice, FillRecord, PositionAfter, AverageWith;
  }

  lemma {:induction false} MatchingLeaves(cfg: Config, st: State, i: nat, symbol: Symbol, m: Market)
    requires i <= |st.orders|
    ensures var r := EvaluateFrom(cfg, st, i, symbol, m); r.db.funding == st.db.funding && r.markets == st.markets
    decreases |st.orders| - i
  {
    hide FillOrder, LimitMarketable, StopTriggered;
    if i < |st.orders| {
      FillOrderLeaves(cfg, st, i, m, MAKER);
      FillOrderLeaves(cfg, st, i, m, TAKER);
      MatchingLeaves(cfg, EvaluateOrder(cfg, st, i, symbol, m), i + 1, symbol, m);
    }
  }

  lemma {:induction false} LiquidatingLeaves(cfg: Config, st: State, book: map<Symbol, Market>, n: nat)
    requires n <= |st.positions|
    ensures var r := LiquidateFirst(cfg, st, book, n); r.db.funding == st.db.funding && r.markets == st.markets
  {
    hide FillRecord, PositionAfter, AverageWith;
    if n > 0 {
      LiquidatingLeaves(cfg, st, book, n - 1);
    }
  }

  lemma SubmitLeaves(cfg: Config, st: State, env: Env, cmd: OrderCommand)
    ensures var r := Submit(cfg, st, env, cmd); r.db.funding == st.db.funding && r.markets == st.markets
  {
    hide NewOrder, RiskReason, FillOrder, RouteOf, Equity;
    if cmd.symbol in cfg.instruments {
      var s := Place(st, NewOrder(cfg, st, cmd));
      var m := if s.orders[|st.orders|].symbol in Book(s, env) then Book(s, env)[s.orders[|st.orders|].symbol]
               else Market(None, None, None, None, None, 0, true);
      FillOrderLeaves(cfg, RollDay(s, env), |st.orders|, m, TAKER);
    }
  }

  lemma {:induction false} FundFirstCharges(st: State, book: map<Symbol, Market>, n: nat)
    requires n <= |st.positions| && AllCharged(st.db.funding)
    ensures AllCharged(FundFirst(st, book, n).db.funding)
  {
    if n > 0 {
      FundFirstCharges(st, book, n - 1);
    }
  }

  lemma StepCharges(cfg: Config, st: State, ev: Event)
    requires AllCharged(st.db.funding)
    ensures AllCharged(Step(cfg, st, ev).db.funding)
  {
    hide AllCharged;
    match ev {
      case SubmitOrder(env, cmd) =>
        hide Submit;
        SubmitLeaves(cfg, AtTime(st, env), env, cmd);
      case CancelOrder(id) =>
      case CancelAllOrders(symbol) =>
      case MarketTick(env, u) =>
        hide EvaluateFrom, LiquidateFirst, MergedMarket, MustLiquidate;
        if u.symbol in cfg.instruments {
          var s := WithMarket(AtTime(st, env), env, u);
          var t := EvaluateFrom(cfg, s, 0, u.symbol, Book(s, env)[u.symbol]);
          MatchingLeaves(cfg, s, 0, u.symbol, Book(s, env)[u.symbol]);
          LiquidatingLeaves(cfg, t.(liquidations := t.liquidations + 1), Book(s, env), |t.positions|);
        }
      case Funding(env) =>
        hide FundFirst;
        FundFirstCharges(st, Book(st, env), |st.positions|);
      case Adjust(delta) =>
      case Reset(start, env) =>
        NothingCharged();
      case Restart(load, env) =>
    }
  }

  lemma NothingCharged()
    ensures AllCharged([])
  {
  }

  /** After every run, each recorded payment is its quantity times its mark times its rate. */
  lemma {:induction false} PaymentsAreCharged(cfg: Config, utcDay: int, evs: seq<Event>)
    ensures AllCharged(After(cfg, utcDay, evs).db.funding)
  {
    if evs == [] {
      NothingCharged();
    } else {
      hide AllCharged, Step;
      PaymentsAreCharged(cfg, utcDay, evs[..|evs| - 1]);
      StepCharges(cfg, After(cfg, utcDay, evs[..|evs| - 1]), evs[|evs| - 1]);
    }
  }

  // ----- one funding of the whole account -----

  /** The position is open, and its symbol has a nonzero mark and a rate. */
  predicate Rated(book: map<Symbol, Market>, p: Position) {
    p.qty != 0.0 && p.symbol in book
    && book[p.symbol].mark.Some? && book[p.symbol].mark.value != 0.0 && book[p.symbol].fundingRate.Some?
  }

  /** What a position owes. */
  function Owed(book: map<Symbol, Market>): Position -> real {
    p => if Rated(book, p) then p.qty * book[p.symbol].mark.value * book[p.symbol].fundingRate.value else 0.0
  }

  /** Position k after funding: only its funding total has moved. */
  predicate Funded(book: map<Symbol, Market>, before: Position, after: Position) {
    after == before.(totalFunding := before.totalFunding + Owed(book)(before))
  }

  lemma FundAtIs(st: State, book: map<Symbol, Market>, k: nat)
    requires k < |st.positions|
    ensures var r, p := FundAt(st, book, k), st.positions[k];
      && r.positions == st.positions[k := p.(totalFunding := p.totalFunding + Owed(book)(p))]
      && Funded(book, p, r.positions[k])
      && r.wallet == st.wallet - Owed(book)(p) && r.totalFunding == st.totalFunding + Owed(book)(p)
  {
  }

  ghost predicate FundedFirst(st: State, r: State, book: map<Symbol, Market>, n: nat)
    requires n <= |st.positions|
  {
    && |r.positions| == |st.positions|
    && (forall k :: 0 <= k < n ==> Funded(book, st.positions[k], r.positions[k]))
    && (forall k :: n <= k < |st.positions| ==> r.positions[k] == st.positions[k])
  }

  lemma NothingOwed(book: map<Symbol, Market>)
    ensures SumOf(Owed(book), []) == 0.0
  {
  }

  /** The next position is funded, and the others are as they were. */
  lemma FundedNext(st: State, r: State, book: map<Symbol, Market>, n: nat)
    requires n < |st.positions| && FundedFirst(st, r, book, n)
    ensures var s := FundAt(r, book, n);
      && FundedFirst(st, s, book, n + 1)
      && s.wallet == r.wallet - Owed(book)(st.positions[n]) && s.totalFunding == r.totalFunding + Owed(book)(st.positions[n])
  {
    hide FundAt, Funded, Owed;
    FundAtIs(r, book, n);
  }

  lemma NoneFunded(st: State, book: map<Symbol, Market>)
    ensures FundedFirst(st, FundFirst(st, book, 0), book, 0) && FundFirst(st, book, 0) == st
  {
  }

  lemma OwedNext(st: State, book: map<Symbol, Market>, n: nat)
    requires n < |st.positions|
    ensures SumOf(Owed(book), st.positions[..n + 1]) == SumOf(Owed(book), st.positions[..n]) + Owed(book)(st.positions[n])
  {
    assert st.positions[..n + 1] == st.positions[..n] + [st.positions[n]];
    SumAppend(Owed(book), st.positions[..n], st.positions[n]);
  }

  lemma {:induction false} FundFirstPays(st: State, book: map<Symbol, Market>, n: nat)
    requires n <= |st.positions|
    ensures var r, owed := FundFirst(st, book, n), SumOf(Owed(book), st.positions[..n]);
      FundedFirst(st, r, book, n) && r.wallet == st.wallet - owed && r.totalFunding == st.totalFunding + owed
  {
    hide FundAt, Owed, Funded, SumOf, FundedFirst;
    if n == 0 {
      NothingOwed(book);
      NoneFunded(st, book);
      assert st.positions[..0] == [];
    } else {
      FundFirstPays(st, book, n - 1);
      FundedNext(st, FundFirst(st, book, n - 1), book, n - 1);
      OwedNext(st, book, n - 1);
    }
  }

  /** A funding step moves the wallet by minus the sum of quantity times mark times rate over the open positions that
      have both, books the same on each position, and changes nothing else about them. */
  lemma FundingPays(cfg: Config, st: State, env: Env)
    ensures var r, book := Step(cfg, st, Funding(env)), st.markets + env.external;
      var owed := SumOf(Owed(book), st.positions);
      && r.wallet == st.wallet - owed && r.totalFunding == st.totalFunding + owed
      && |r.positions| == |st.positions|
      && forall k :: 0 <= k < |st.positions| ==> Funded(book, st.positions[k], r.positions[k])
  {
    hide Owed, Funded, FundFirst;
    FundFirstPays(st, Book(st, env), |st.positions|);
    assert st.positions[..|st.positions|] == st.positions;
  }

  // ----- the other side -----

  predicate OppositePosition(p: Position, q: Position) {
    q.symbol == p.symbol && q.qty == -p.qty
  }

  /** The same symbols in the same order, every quantity negated. */
  ghost predicate Opposite(ps: seq<Position>, qs: seq<Position>) {
    |qs| == |ps| && forall k :: 0 <= k < |ps| ==> OppositePosition(ps[k], qs[k])
  }

  lemma OppositeOwes(book: map<Symbol, Market>, p: Position, q: Position)
    requires OppositePosition(p, q)
    ensures Owed(book)(q) == -Owed(book)(p)
  {
    if Rated(book, p) {
      var m, f := book[p.symbol].mark.value, book[p.symbol].fundingRate.value;
      assert (-p.qty) * m == -(p.qty * m);
      assert (-(p.qty * m)) * f == -(p.qty * m * f);
    }
  }

  lemma {:induction false} OppositesOwe(book: map<Symbol, Market>, ps: seq<Position>, qs: seq<Position>)
    requires Opposite(ps, qs)
    ensures SumOf(Owed(book), qs) == -SumOf(Owed(book), ps)
  {
    if ps != [] {
      var n := |ps| - 1;
      hide Owed, OppositePosition;
      OppositesOwe(book, ps[..n], qs[..n]);
      assert OppositePosition(ps[n], qs[n]);
      OppositeOwes(book, ps[n], qs[n]);
    }
  }

  /** Funding is zero-sum: an account on the other side of every position receives exactly what this one pays. */
  lemma FundingIsZeroSum(cfg: Config, st: State, other: State, env: Env)
    requires Opposite(st.positions, other.positions) && other.markets == st.markets
    ensures var r, r' := Step(cfg, st, Funding(env)), Step(cfg, other, Funding(env));
      r'.wallet - other.wallet == st.wallet - r.wallet
  {
    hide Owed, Step, Opposite, Funded;
    FundingPays(cfg, st, env);
    FundingPays(cfg, other, env);
    OppositesOwe(st.markets + env.external, st.positions, other.positions);
  }

  /** Who pays: with a positive mark and rate a long pays and a short receives, and a negative rate turns that around. */
  lemma LongsPayPositiveRates(cfg: Config, st: State, env: Env, k: nat)
    requires k < |st.positions| && Rated(st.markets + env.external, st.positions[k])
    requires (st.markets + env.external)[st.positions[k].symbol].mark.value > 0.0
    ensures var p, q := st.positions[k], Step(cfg, st, Funding(env)).positions[k];
      var rate := (st.markets + env.external)[p.symbol].fundingRate.value;
      && k < |Step(cfg, st, Funding(env)).positions|
      && (q.totalFunding > p.totalFunding <==> (p.qty > 0.0 && rate > 0.0) || (p.qty < 0.0 && rate < 0.0))
  {
    hide Step;
    FundingPays(cfg, st, env);
    var p, book := st.positions[k], st.markets + env.external;
    ProductSign(p.qty, book[p.symbol].mark.value, book[p.symbol].fundingRate.value);
  }

  lemma ProductSign(q: real, m: real, f: real)
    requires m > 0.0
    ensures q * m * f > 0.0 <==> (q > 0.0 && f > 0.0) || (q < 0.0 && f < 0.0)
  {
    assert q > 0.0 <==> q * m > 0.0;
    assert q < 0.0 <==> q * m < 0.0;
    var x := q * m;
    assert x > 0.0 && f > 0.0 ==> x * f > 0.0;
    assert x < 0.0 && f < 0.0 ==> x * f > 0.0;
    assert x > 0.0 && f <= 0.0 ==> x * f <= 0.0;
    assert x < 0.0 && f >= 0.0 ==> x * f <= 0.0;
  }
}
