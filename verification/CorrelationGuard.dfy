/** The cap on the margin a candidate may add to positions that move with it. */
module CorrelationGuard {
  import opened Prelude
  import opened Decimal
  import Correlation

  datatype Config = Config(enabled: bool, correlationFloor: real, maxCorrelatedExposurePct: real, minCandlesForEstimate: int)

  /** side is the exchange's position side; only SHORT decides by itself. */
  datatype Position = Position(symbol: string, isOpen: bool, sideShort: bool, qty: real, entryPrice: real,
                               initialMargin: real, leverage: real)

  datatype Candidate = Candidate(symbol: string, long: bool, notional: real, leverage: real)

  /** The returns the guard can compute for each symbol, and the square root it divides by. */
  datatype Market = Market(history: string -> seq<real>, root: real -> real)

  /** One evaluation's fixed inputs. */
  datatype Query = Query(config: Config, market: Market, candidate: Candidate, equity: real, includeSameSymbol: bool)

  datatype Counted = Counted(symbol: string, correlation: real, long: bool, exposurePct: real)

  datatype Check = Check(allowed: bool, correlatedExposurePct: real, correlatedPositions: seq<Counted>,
                         candidateExposurePct: real, insufficientData: bool)

  /** What the loop decides about one open position. */
  datatype Verdict = Skipped | NoData | Counts(entry: Counted)

  predicate IsLong(p: Position) {
    !(p.sideShort || p.qty < 0.0)
  }

  function Margin(p: Position): real {
    if p.initialMargin > 0.0 then p.initialMargin else Abs(p.qty) * p.entryPrice / Max(1.0, p.leverage)
  }

  predicate EnoughData(q: Query, symbol: string) {
    |q.market.history(symbol)| >= q.config.minCandlesForEstimate
  }

  function CorrelationWith(q: Query, p: Position): real {
    if p.symbol == q.candidate.symbol then 1.0
    else Correlation.Pearson(q.market.history(q.candidate.symbol), q.market.history(p.symbol), q.market.root)
  }

  function Judge(q: Query, p: Position): Verdict
    requires q.equity > 0.0
  {
    var same := p.symbol == q.candidate.symbol;
    if !p.isOpen || (same && !q.includeSameSymbol) then Skipped
    else if !same && !(EnoughData(q, q.candidate.symbol) && EnoughData(q, p.symbol)) then NoData
    else
      var rho := CorrelationWith(q, p);
      var effective := if IsLong(p) == q.candidate.long then rho else -rho;
      if effective < q.config.correlationFloor then Skipped
      else Counts(Counted(p.symbol, rho, IsLong(p), Margin(p) / q.equity))
  }

  function ExposureOf(c: Counted): real {
    c.exposurePct
  }

  function Contribution(q: Query, p: Position): real
    requires q.equity > 0.0
  {
    var v := Judge(q, p);
    if v.Counts? then v.entry.exposurePct else 0.0
  }

  function Cluster(q: Query, ps: seq<Position>): seq<Counted>
    requires q.equity > 0.0
  {
    if ps == [] then []
    else
      var rest, v := Cluster(q, ps[..|ps| - 1]), Judge(q, ps[|ps| - 1]);
      if v.Counts? then rest + [v.entry] else rest
  }

  predicate Inert(q: Query) {
    !q.config.enabled || q.equity <= 0.0 || q.candidate.leverage <= 0.0
  }

  function CandidateExposure(q: Query): real
    requires !Inert(q)
  {
    q.candidate.notional / q.candidate.leverage / q.equity
  }

  /** Some pair had too little history and was taken to be uncorrelated. */
  predicate LacksData(q: Query, ps: seq<Position>)
    requires q.equity > 0.0
  {
    exists p :: p in ps && Judge(q, p).NoData?
  }

  lemma LacksDataNext(q: Query, ps: seq<Position>, p: Position)
    requires q.equity > 0.0
    ensures LacksData(q, ps + [p]) <==> LacksData(q, ps) || Judge(q, p).NoData?
  {
    hide Judge;
    assert forall x :: x in ps + [p] <==> x in ps || x == p;
  }

  function Evaluate(q: Query, ps: seq<Position>): Check {
    if Inert(q) then Check(true, 0.0, [], 0.0, false)
    else
      var cluster := Cluster(q, ps);
      var exposure := CandidateExposure(q) + SumOf(ExposureOf, cluster);
      Check(exposure <= q.config.maxCorrelatedExposurePct + 0.000000001, exposure, cluster, CandidateExposure(q),
            LacksData(q, ps))
  }

  /** The loop over the open positions, accumulating exposure, cluster and the data flag. */
  method EvaluateLoop(q: Query, ps: seq<Position>) returns (r: Check)
    ensures r == Evaluate(q, ps)
  {
    if !q.config.enabled {
      return Check(true, 0.0, [], 0.0, false);
    }
    if q.equity <= 0.0 || q.candidate.leverage <= 0.0 {
      return Check(true, 0.0, [], 0.0, false);
    }
    var own := CandidateExposure(q);
    var exposure, counted, insufficient := own, [], false;
    for i := 0 to |ps|
      invariant counted == Cluster(q, ps[..i]) && exposure == own + SumOf(ExposureOf, counted)
      invariant insufficient <==> LacksData(q, ps[..i])
    {
      hide Judge, LacksData, CandidateExposure;
      LacksDataNext(q, ps[..i], ps[i]);
      assert ps[..i + 1] == ps[..i] + [ps[i]] && ps[..i + 1][..i] == ps[..i];
      var v := Judge(q, ps[i]);
      match v
      case Skipped =>
      case NoData => insufficient := true;
      case Counts(entry) =>
        SumAppend(ExposureOf, counted, entry);
        exposure := exposure + entry.exposurePct;
        counted := counted + [entry];
    }
    assert ps[..|ps|] == ps;
    r := Check(exposure <= q.config.maxCorrelatedExposurePct + 0.000000001, exposure, counted, own, insufficient);
  }

  // ----- what the verdict depends on -----

  lemma {:induction false} ClusterSum(q: Query, ps: seq<Position>)
    requires q.equity > 0.0
    ensures SumOf(ExposureOf, Cluster(q, ps)) == SumOf((p: Position) => if q.equity > 0.0 then Contribution(q, p) else 0.0, ps)
  {
    if ps != [] {
      hide Judge;
      ClusterSum(q, ps[..|ps| - 1]);
      var v := Judge(q, ps[|ps| - 1]);
      if v.Counts? {
        SumAppend(ExposureOf, Cluster(q, ps[..|ps| - 1]), v.entry);
      }
    }
  }

  /** The order in which the broker lists its positions does not matter. */
  lemma OrderDoesNotMatter(q: Query, ps: seq<Position>, rs: seq<Position>)
    requires multiset(ps) == multiset(rs)
    ensures Evaluate(q, ps).allowed == Evaluate(q, rs).allowed
    ensures Evaluate(q, ps).correlatedExposurePct == Evaluate(q, rs).correlatedExposurePct
    ensures Evaluate(q, ps).insufficientData == Evaluate(q, rs).insufficientData
  {
    if !Inert(q) {
      hide Judge;
      ClusterSum(q, ps);
      ClusterSum(q, rs);
      SumPermutation((p: Position) => if q.equity > 0.0 then Contribution(q, p) else 0.0, ps, rs);
      assert forall p :: p in ps <==> p in multiset(ps);
      assert forall p :: p in rs <==> p in multiset(rs);
    }
  }

  lemma MarginIsPositive(p: Position)
    requires p.entryPrice >= 0.0
    ensures Margin(p) >= 0.0
  {
    assert Abs(p.qty) * p.entryPrice >= 0.0;
  }

  lemma ContributionIsPositive(q: Query, p: Position)
    requires q.equity > 0.0 && p.entryPrice >= 0.0
    ensures Contribution(q, p) >= 0.0
  {
    MarginIsPositive(p);
  }

  /** One more open position, wherever it is listed, never turns a rejection into an acceptance. */
  lemma MorePositionsNeverHelp(q: Query, ps: seq<Position>, i: nat, p: Position)
    requires i <= |ps| && p.entryPrice >= 0.0 && !Evaluate(q, ps).allowed
    ensures !Evaluate(q, ps[..i] + [p] + ps[i..]).allowed
  {
    var f := (x: Position) => if q.equity > 0.0 then Contribution(q, x) else 0.0;
    var more := ps[..i] + [p] + ps[i..];
    hide Judge, Contribution;
    ContributionIsPositive(q, p);
    ClusterSum(q, ps);
    ClusterSum(q, more);
    assert more[..i] + more[i + 1..] == ps;
    SumRemove(f, more, i);
  }

  /** A position that offsets the candidate is never counted: opposite sides of symbols that move together,
      or the same side of symbols that move apart. */
  lemma HedgesAreNotCounted(q: Query, p: Position)
    requires q.equity > 0.0 && q.config.correlationFloor > 0.0
    requires (IsLong(p) != q.candidate.long && CorrelationWith(q, p) >= 0.0)
          || (IsLong(p) == q.candidate.long && CorrelationWith(q, p) <= 0.0)
    ensures !Judge(q, p).Counts?
  {
    hide CorrelationWith;
  }

  /** A position on a symbol whose returns follow the candidate's on a rising line always counts when it is on
      the same side, whatever floor up to 1 is configured. */
  lemma PerfectFollowersCount(q: Query, p: Position, slope: real, shift: real)
    requires q.equity > 0.0 && p.isOpen && p.symbol != q.candidate.symbol && IsLong(p) == q.candidate.long
    requires q.config.correlationFloor <= 1.0 && Correlation.SquareRoot(q.market.root)
    requires EnoughData(q, q.candidate.symbol) && EnoughData(q, p.symbol)
    requires var xs := q.market.history(q.candidate.symbol);
      |xs| >= 2 && !Correlation.Constant(xs) && slope > 0.0 && Correlation.OnLine(xs, q.market.history(p.symbol), slope, shift)
    ensures Judge(q, p) == Counts(Counted(p.symbol, 1.0, IsLong(p), Margin(p) / q.equity))
  {
    Correlation.PerfectLine(q.market.history(q.candidate.symbol), q.market.history(p.symbol), slope, shift, q.market.root);
  }

  // ----- the verdict in money -----

  /** The position loses when the candidate does: its correlation with it, turned around when they are on opposite sides,
      reaches the floor. A symbol correlates 1 with itself; too little history counts as no correlation. */
  predicate MovesWith(q: Query, p: Position) {
    var rho := if p.symbol == q.candidate.symbol then 1.0
               else Correlation.Pearson(q.market.history(q.candidate.symbol), q.market.history(p.symbol), q.market.root);
    var long := !p.sideShort && p.qty >= 0.0;
    && p.isOpen
    && (if p.symbol == q.candidate.symbol then q.includeSameSymbol
        else |q.market.history(q.candidate.symbol)| >= q.config.minCandlesForEstimate
             && |q.market.history(p.symbol)| >= q.config.minCandlesForEstimate)
    && q.config.correlationFloor <= (if long == q.candidate.long then rho else -rho)
  }

  /** The margin booked on the position, or what its entry notional takes at its leverage, at least 1. */
  function MarginHeld(p: Position): real {
    if p.initialMargin > 0.0 then p.initialMargin
    else (if p.qty < 0.0 then -p.qty else p.qty) * p.entryPrice / (if p.leverage > 1.0 then p.leverage else 1.0)
  }

  function ClusterMargin(q: Query): Position -> real {
    p => if MovesWith(q, p) then MarginHeld(p) else 0.0
  }

  /** A share of equity, in money. */
  function InMoney(share: real, equity: real): real {
    share * equity
  }

  lemma MoneyAdds(x: real, y: real, equity: real)
    ensures InMoney(x + y, equity) == InMoney(x, equity) + InMoney(y, equity)
    ensures InMoney(0.0, equity) == 0.0
  {
  }

  lemma ContributionIs(q: Query, p: Position)
    requires q.equity > 0.0
    ensures InMoney(Contribution(q, p), q.equity) == ClusterMargin(q)(p)
  {
    hide Correlation.Pearson;
    if MovesWith(q, p) {
      assert Margin(p) == MarginHeld(p);
      DivideBack(MarginHeld(p), q.equity);
    }
  }

  lemma ClusterNext(q: Query, ps: seq<Position>)
    requires q.equity > 0.0 && ps != []
    ensures SumOf(ExposureOf, Cluster(q, ps)) == SumOf(ExposureOf, Cluster(q, ps[..|ps| - 1])) + Contribution(q, ps[|ps| - 1])
  {
    hide Judge;
    var v := Judge(q, ps[|ps| - 1]);
    if v.Counts? {
      SumAppend(ExposureOf, Cluster(q, ps[..|ps| - 1]), v.entry);
    }
  }

  lemma {:induction false} ClusterInMoney(q: Query, ps: seq<Position>)
    requires q.equity > 0.0
    ensures InMoney(SumOf(ExposureOf, Cluster(q, ps)), q.equity) == SumOf(ClusterMargin(q), ps)
  {
    hide Judge, MovesWith, ClusterMargin, Contribution, InMoney;
    if ps == [] {
      MoneyAdds(0.0, 0.0, q.equity);
    } else {
      var n := |ps| - 1;
      ClusterNext(q, ps);
      ClusterInMoney(q, ps[..n]);
      ContributionIs(q, ps[n]);
      MoneyAdds(SumOf(ExposureOf, Cluster(q, ps[..n])), Contribution(q, ps[n]), q.equity);
    }
  }

  lemma MoneyOrder(x: real, y: real, equity: real)
    requires equity > 0.0
    ensures x <= y <==> InMoney(x, equity) <= InMoney(y, equity)
  {
    Scale(x, y, equity);
  }

  lemma OwnInMoney(q: Query)
    requires !Inert(q)
    ensures InMoney(CandidateExposure(q), q.equity) == q.candidate.notional / q.candidate.leverage
  {
    DivideBack(q.candidate.notional / q.candidate.leverage, q.equity);
  }

  /** A candidate is allowed exactly when the margin it takes and the margins of the positions that move with it are together
      at most the configured share of equity, give or take a billionth of it; or when the guard has nothing to judge by. */
  lemma AllowedIff(q: Query, ps: seq<Position>)
    ensures Evaluate(q, ps).allowed <==>
      || !q.config.enabled || q.equity <= 0.0 || q.candidate.leverage <= 0.0
      || q.candidate.notional / q.candidate.leverage + SumOf(ClusterMargin(q), ps)
           <= InMoney(q.config.maxCorrelatedExposurePct + 0.000000001, q.equity)
  {
    if !Inert(q) {
      var own, others := CandidateExposure(q), SumOf(ExposureOf, Cluster(q, ps));
      ClusterInMoney(q, ps);
      OwnInMoney(q);
      hide Cluster, ClusterMargin, SumOf, LacksData, InMoney, CandidateExposure;
      MoneyAdds(own, others, q.equity);
      MoneyOrder(own + others, q.config.maxCorrelatedExposurePct + 0.000000001, q.equity);
    }
  }
}
