# Verified model of a futures paper-trading engine

A Dafny model of the stateful core of the trading engine, with proofs about every run of it. Each component is
written in the form the engine has: objects with fields updated in place are classes, loops are loops, and each
method is proved to take the state where a pure specification says; the theorems are about those specifications.

## The components

- **Paper broker** (`Decimal`, `BrokerTypes`, `PositionMath`, `BrokerSpec`, `BrokerInvariants`, `BrokerRuns`,
  `BrokerTheorems`, `OversizedStop`, `OrphanedLimit`, `PaperBroker`, and the terms of trade in `FundingTheorems`,
  `Triggers`, `FillPrices`, `LiquidationPrice`, `OrderLimits` and `AccountRules`). `BrokerSpec` gives one pure function per
  public call, and a run is a sequence of calls with restarts between them at any step boundary; a restart reads whatever
  the tables then hold, in any row order. `BrokerInvariants.Good` is the inductive invariant, `BrokerRuns` shows that every
  step keeps it, and `BrokerTheorems` reads the promises off it. `Broker.PaperBroker` is the object itself. Money, prices
  and quantities are exact reals, and every rounding the code performs on purpose (`toFixed`, lot step, price tick) is
  explicit.
- **Candles** (`Sorting`, `Candles`, `CandleSeries`, `KlineStore`, `BacktestReplay`). Bucketing, aggregation, bounded
  series and the replay cut.
- **Throttles** (`RateLimiting`, `ClientCap`, `IdleSweep`, `LimiterAnswers`, `RateLimiter`, `SignalLoopDetector`). Each
  bounded-memory machine against the unbounded history it stands for, and what its answers promise.
- **Portfolio mathematics** (`Correlation`, `CorrelationGuard`, `Zones`, `ZoneRanking`, `ZoneStrength`). The Pearson loop,
  the correlated-exposure cap, the greedy zone merge and its display order.
- **Run-level protocols** (`ExitManager`, `ExitThresholds`, `ScalingKeys`, `EventLog`, `SafeMode`). Step relations with
  the outcome of every outside call as an input, and the thresholds in closed form.

## What the code does and its comments do not say

- A reduce-only order is clamped when it is submitted, not when it fills. A resting one that has become larger than its
  position opens a position on the other side, and a resting limit order stays in the book when its position closes, so
  that it can open one from flat: `OversizedStop.OversizedStopFlips`, `OrphanedLimit.OrphanedLimitOpens`.
  `BrokerTheorems.RestingReduceOnlyCrossesIff` gives the exact condition for every order type and configuration.
- `resetAccount()` without an argument credits 10000, while a restart rebuilds the wallet from the configured start:
  `BrokerTheorems.DefaultResetIsUndoneByRestart`. Wallet adjustments are lost by a restart in the same way, which is the
  other half of the condition in `BrokerTheorems.RestartRefinesLedger`.
- `KlineStore` with a cap of zero keeps every candle and with a negative cap none (`Klines.ZeroCapIsNoCap`,
  `Klines.NegativeCapKeepsNothing`); it keeps the newest ones exactly for caps of at least one
  (`Klines.CacheHoldsNewestIff`).
- An accepted scale-out is recorded only after the event log and the broadcast have returned. If either throws, the
  position can be de-risked again: `Scaling.RepeatsOnlyUnreported`, with a run in `Scaling.DeRiskedTwice`.
- A position's open time is set only when it opens from flat (src/broker/PaperBroker.ts:779), so a flipped position keeps
  its scaling key and budget, although the comment at src/agent/ExitManager.ts:187-189 counts it as a new one:
  `ScalingKeys.FlipKeepsBudget`. `ScalingKeys.BudgetSurvivesIffNotReopened` says when the budget starts afresh.
- A live-mode profile routed to the paper venue has its orders simulated (`SafeMode.LiveModeSimulates`).
- Merged zones are ordered by strength and then lower edge; the timeframe dominance that the comment at
  src/analysis/ZoneAggregationEngine.ts:191 names in between is not compared (`Zones.ShortTimeframeFirst`). The
  documented order comes out exactly under the conditions of `ZoneRanking.DocumentedOrderIff` and, for separate zones,
  `ZoneRanking.SeparateOrderIff`.
- The rate limiter's idle sweep is invisible to clients (`RateLimiting.IdleEvictionIsInvisible`) where the idle limit
  refills the bucket, and its client cap to at most as many clients as the cap allows. For whole capacities, such as the
  default ones, `IdleSweep.EvictionUnseenIff` says exactly when neither can be noticed.
- The order being checked is already in the book when the open orders are counted (src/broker/PaperBroker.ts:265 and
  996), so a limit of n admits one only while at most n - 2 others are live: `OrderLimits.OneOrderFewer`.
- Bars that do not open on the minute can be shown before they have closed: `BacktestReplay.AggregationLeaksIff` gives
  the exact condition on the open times.

## Conditions the theorems name

- `StepsFit`: every lot step is a multiple of the instrument's quantity precision, so no quantity is rounded away. The
  path-independence theorems over runs need it.
- `Unbroken`: no restart since the account was last empty. A restart drops closed positions, so per-position subledgers
  and replayed positions are claimed only up to it; the ledger itself is claimed for every run.
- `NoStraddle`: no minute bar straddles the end of its bucket. By `BacktestReplay.AggregationLeaksIff` it is exactly what
  the claims need; `Aligned`, bars that open on the minute, implies it.
- `EvictsOnlyFull` and `NeverCapped`: the shortest idle period that is swept refills the bucket, and the client cap
  never dropped it.
- `Truthful` and `InTime`: an add is made on the position as it then is, and fills come in time order.
- `StaysLive`: the position key is seen by every exit cycle of the run.

## Model

| member | source | states |
|---|---|---|
| Decimal.ToFixedError | src/broker/PaperBroker.ts:820-822 | rounding to n places moves a value by at most half a unit of the last place |
| Decimal.ToFixedFixesGrid | src/broker/PaperBroker.ts:119-120 | a value already on the precision grid is left alone, so re-rounding a loaded row is idempotent |
| Decimal.GridSum | src/broker/PaperBroker.ts:766-770 | sums, differences and negations of grid values are grid values, so quantities never drift |
| Decimal.StepsOnGrid | src/broker/PaperBroker.ts:27-29 | flooring to a lot step lands on the quantity grid whenever the step itself does |
| Decimal.ToFixedBetween | src/broker/PaperBroker.ts:770 | rounding keeps a value lying between zero and a grid value between them |
| Decimal.RoundStepBelow | src/broker/PaperBroker.ts:27-29 | flooring to a step never exceeds the value it floors |
| Decimal.EachPlaceIsATenth | src/broker/PaperBroker.ts:766-770 | each further decimal place divides the unit by ten |
| Decimal.HalvesRoundAway | src/broker/PaperBroker.ts:766-770 | halves round away from zero on either side |
| PositionMath.NewQtyExact | src/broker/PaperBroker.ts:766-770 | for quantities on the grid the rounded new quantity is the exact sum |
| PositionMath.MoveAddsWorth | src/broker/PaperBroker.ts:773-846 | in each of the five branches, realized plus open PnL at any mark moves by the trade's own worth plus, on an INCREASE only, quantity times the averaging error |
| PositionMath.FillAddsItsWorth | src/broker/PaperBroker.ts:732-847 | one fill adds exactly signedQty*(mark-price) plus the entry-rounding residual, in all five branches |
| PositionMath.ResidualBounded | src/broker/PaperBroker.ts:817-829 | the residual is at most newQty times half a price unit, and zero outside INCREASE |
| PositionMath.ReplayQty | src/broker/PaperBroker.ts:766-770 | after any sequence of fills the quantity is exactly the sum of the signed quantities |
| PositionMath.WorthIsSumOfTrades | src/broker/PaperBroker.ts:765-847 | after any sequence of fills from flat, worth equals the sum of the trades' worths plus the residuals, which stay within the stated rounding allowance |
| PositionMath.PathIndependence | src/broker/PaperBroker.ts:765-847 | two orderings of the same trades end with the same quantity and with worths that differ by at most their two rounding allowances |
| BrokerInvariants.CanceledRowIs | src/broker/PaperBroker.ts:333-357 | saving a sweep of cancellations rewrites the rows of exactly the orders it hit |
| BrokerInvariants.CancelKeepsRows | src/broker/PaperBroker.ts:333-357 | after any sweep the orders table and the book still agree, and finished rows are untouched |
| BrokerInvariants.PutPositionQty | src/broker/PaperBroker.ts:743-763 | storing a position changes the quantity of its own symbol and of no other |
| BrokerInvariants.FilledKeepsOrders | src/broker/PaperBroker.ts:536-564 | after a fill every order still has one whole fill or none |
| BrokerInvariants.FilledKeepsBrackets | src/broker/PaperBroker.ts:787-846 | a fill in any branch leaves no live bracket without its position |
| BrokerInvariants.FilledKeepsLedger | src/broker/PaperBroker.ts:577-600 | a fill keeps wallet, totals and per-position subledgers in balance |
| BrokerInvariants.FilledKeepsLog | src/broker/PaperBroker.ts:732-847 | after a fill each position is still the replay of its symbol's fill log |
| BrokerInvariants.FilledKeepsRows | src/broker/PaperBroker.ts:553-563 | after a fill the saved orders agree with the book |
| BrokerInvariants.FilledKeepsPositions | src/broker/PaperBroker.ts:593-597 | after a fill the saved positions agree with the live ones up to the re-rounding of a past restart |
| BrokerInvariants.FilledKeepsGood | src/broker/PaperBroker.ts:536-647 | a complete fill keeps the whole invariant |
| BrokerRuns.ExecutionPriceKeepsLimit | src/broker/PaperBroker.ts:867-903 | a marketable limit order executes no worse than its limit |
| BrokerRuns.FillOrderIsFilled | src/broker/PaperBroker.ts:536-564 | fillOrder at a valid price executes the whole remaining quantity and ends FILLED, never PARTIALLY_FILLED |
| BrokerRuns.FillOrderKeepsGood | src/broker/PaperBroker.ts:536-564 | filling a live order keeps the invariant whatever the market, including the rejection for an invalid price |
| BrokerRuns.RiskAdmitsOnlyGuards | src/broker/PaperBroker.ts:971-980 | a reduce-only order that passes the risk check stands against an open position on the other side |
| BrokerRuns.SubmitKeepsGood | src/broker/PaperBroker.ts:197-331 | submitOrder keeps the invariant on every path: rejected, resting, cancelled, filled |
| BrokerRuns.CancelMatchingKeepsGood | src/broker/PaperBroker.ts:350-357 | cancelling every order a filter hits keeps the invariant |
| BrokerRuns.EvaluateKeepsGood | src/broker/PaperBroker.ts:512-534 | the matching loop keeps the invariant even when one fill cancels orders later in the same loop |
| BrokerRuns.LiquidateFirstKeepsGood | src/broker/PaperBroker.ts:1117-1161 | the forced-close loop keeps the invariant after each position |
| BrokerRuns.OnMarketKeepsGood | src/broker/PaperBroker.ts:171-191 | a market update with its matching and liquidation keeps the invariant |
| BrokerRuns.FundFirstKeepsGood | src/broker/PaperBroker.ts:363-446 | the funding loop keeps the invariant after each payment |
| BrokerRuns.ResetKeepsGood | src/broker/PaperBroker.ts:1252-1274 | a reset leaves an empty, balanced account and closed rows |
| BrokerRuns.RestartTotals | src/broker/PaperBroker.ts:134-162 | replaying the saved fills and payments, in any row order, gives the live totals |
| BrokerRuns.ReloadedPosition | src/broker/PaperBroker.ts:111-124 | reloading changes no quantity and brings back every open position with its entry re-rounded |
| BrokerRuns.RestartKeepsGood | src/broker/PaperBroker.ts:77-165 | construction from the tables re-establishes the invariant |
| BrokerRuns.StepKeepsGood | src/broker/PaperBroker.ts:171-1274 | every public step, and a restart, keeps the invariant and changes no finished order's row |
| BrokerRuns.RunsAreGood | src/broker/PaperBroker.ts:171-1274 | the invariant holds after every feasible run |
| BrokerTheorems.LedgerConservation | src/broker/PaperBroker.ts:577-600 | for every run, wallet = deposits + realized PnL - fees - funding, and the totals are the sums over fills and payments |
| BrokerTheorems.SubledgersAddUp | src/broker/PaperBroker.ts:370-402 | until a restart, the three totals are also the sums of the positions' own |
| BrokerTheorems.BracketsAlwaysProtect | src/broker/PaperBroker.ts:853-861 | no reachable state has a live reduce-only stop or take-profit without an open position on the other side |
| BrokerTheorems.OnlyKnownSymbols | src/broker/PaperBroker.ts:740-741 | every order and position is on a configured instrument, so that throw is unreachable |
| BrokerTheorems.FilledMeansOneWholeFill | src/broker/PaperBroker.ts:536-564 | at step boundaries an order is FILLED exactly when one fill executed its whole quantity at its average price, otherwise it has none; limits are never worse than the limit |
| BrokerTheorems.FinishedOrdersStay | src/broker/PaperBroker.ts:333-357 | FILLED, CANCELED and REJECTED are absorbing across all later steps, resets and restarts |
| BrokerTheorems.BookIsSaved | src/broker/PaperBroker.ts:1171-1176 | every order in the book is saved exactly as it stands |
| BrokerTheorems.RestartRefinesLedger | src/broker/PaperBroker.ts:134-162 | a restart at any step boundary reproduces fees, funding and realized PnL, and the wallet if and only if the deposits equal the configured start |
| BrokerTheorems.RestartRefinesPositions | src/broker/PaperBroker.ts:111-124 | a restart keeps every quantity, and every open position up to half a price unit of entry |
| BrokerTheorems.RestartRefinesBook | src/broker/PaperBroker.ts:126-132 | a restart brings back exactly the live orders |
| BrokerTheorems.DefaultResetIsUndoneByRestart | src/broker/PaperBroker.ts:1252-1259 | a concrete account on which a reset without an argument credits 10000 and the next restart takes it back to 1000 |
| BrokerTheorems.ReduceOnlyNeverCrosses | src/broker/PaperBroker.ts:220-225 | in any reachable state, submitting a reduce-only order of any size moves the position toward zero, never across, and touches no other symbol |
| Decimal.ToFixedPast | src/broker/PaperBroker.ts:766-770 | from a grid value, rounding a reduction or an increase stays on its side of zero, or where it was, unless the surplus is half a unit or more |
| BrokerTheorems.ReductionCrossesIff | src/broker/PaperBroker.ts:766-770 | a fill takes a position across zero or away from it if and only if what the order has beyond the position is half a unit of the quantity precision or more |
| BrokerTheorems.MatchCrossesIff | src/broker/PaperBroker.ts:517-533 | the same for matching one live order in any state with the invariant: if and only if it fires, has a price and has that much too much |
| BrokerTheorems.TickIsMatching | src/broker/PaperBroker.ts:171-191 | a market update is the matching loop over the orders one by one, then the liquidation check |
| BrokerTheorems.RestingReduceOnlyCrossesIff | src/broker/PaperBroker.ts:512-534 | in any run, restarts included, and at any order of a tick's loop: a resting reduce-only order of any type takes its position across zero or away from it if and only if it fires, has a price and exceeds what the position can give up by half a unit or more |
| OversizedStop.OversizedStopFlips | src/broker/PaperBroker.ts:528-533 | a concrete run from a fresh account: buy 10, a reduce-only stop for 10, a reduce-only sell of 6, and a fall through the stop end 6 short |
| OrphanedLimit.OrphanedLimitOpens | src/broker/PaperBroker.ts:521-526 | a concrete run from a fresh account: buy 10, a reduce-only limit sell of 10 at 110, a market close, and a rise to the limit end 10 short |
| BrokerTheorems.LiquidateAtCosts | src/broker/PaperBroker.ts:1117-1161 | one forced close settles its position flat and costs equity exactly its taker fee |
| BrokerTheorems.LiquidationCost | src/broker/PaperBroker.ts:1107-1165 | when a liquidation fires every marked position ends flat, the others are untouched, and equity falls by exactly takerFeeRate times the closed notional |
| BrokerTheorems.LiquidationClearsBrackets | src/broker/PaperBroker.ts:853-861 | after a liquidation no bracket is live on a closed symbol |
| BrokerTheorems.PositionsAreTheirLog | src/broker/PaperBroker.ts:732-847 | until a restart each position is exactly the replay of its symbol's recorded fills |
| BrokerTheorems.PnlIsPathIndependent | src/broker/PaperBroker.ts:765-847 | in any run without a restart, a symbol's PnL at any mark is the sum over its fills, within the rounding allowance |
| BrokerTheorems.EquityIsPathIndependent | src/broker/PaperBroker.ts:1036-1067 | equity is deposits less fees and funding plus the worth of every recorded trade, within the total allowance |
| FundingTheorems.PaymentsAreCharged | src/broker/PaperBroker.ts:370-373 | after every run each recorded payment is its signed quantity times its mark times its rate, on an open position at a nonzero mark |
| FundingTheorems.FundingPays | src/broker/PaperBroker.ts:363-385 | a funding step moves the wallet by minus the sum of quantity times mark times rate over the open, marked, rated positions, and books it on each |
| FundingTheorems.FundingIsZeroSum | src/broker/PaperBroker.ts:363-385 | an account on the other side of every position receives exactly what this one pays |
| FundingTheorems.LongsPayPositiveRates | src/broker/PaperBroker.ts:370-373 | at a positive mark a position pays exactly when it is long and the rate positive, or short and the rate negative |
| Triggers.TriggeredIff | src/broker/PaperBroker.ts:905-928 | a buy stop and a sell take-profit wait for the reference price to rise to the trigger, a sell stop and a buy take-profit for it to fall there |
| Triggers.BracketMatchedIff | src/broker/PaperBroker.ts:512-534 | in any run and at any order of a tick's loop a live bracket is matched exactly when the price has reached its trigger: on its position's profit side for a take-profit, on the loss side for a stop |
| Triggers.StopMatchedIff | src/broker/PaperBroker.ts:512-534 | the same for any live stop or take-profit, by its own side |
| Triggers.LimitMatchedIff | src/broker/PaperBroker.ts:521-526 | a live limit order is matched exactly when its side's own quote has crossed its limit |
| Triggers.SubmittedBracketRestsIff | src/broker/PaperBroker.ts:313-323 | an admitted bracket rests unless the price has already reached its trigger, seen from the position it reduces |
| Triggers.SubmittedStopRestsIff | src/broker/PaperBroker.ts:313-323 | the same for any admitted stop or take-profit, by its own side |
| Triggers.SubmittedLimitEnds | src/broker/PaperBroker.ts:286-311 | an admitted limit order that crosses fills at a positive quote or, post-only, is refused; otherwise it rests, or is cancelled as IOC or refused as FOK |
| FillPrices.FillOrderExecutes | src/broker/PaperBroker.ts:536-564 | a ready order adds one execution of its whole quantity, at its side's own quote for a limit order and otherwise at the quote slipped by the configured basis points, or nothing without a positive price |
| FillPrices.TickExecutes | src/broker/PaperBroker.ts:512-534 | in any run each order of a tick's loop adds nothing or one such execution at the tick's quotes, as maker for a limit order and as taker otherwise |
| FillPrices.SubmissionExecutes | src/broker/PaperBroker.ts:197-331 | in any run a submitted order adds nothing or one such taker execution at the quotes it met |
| FillPrices.NeverBetterThanQuote | src/broker/PaperBroker.ts:868-884 | with non-negative slippage no market or stop order executes better than the quote it faces |
| FillPrices.RoundTripCosts | src/broker/PaperBroker.ts:536-600 | taking a quantity and giving it back at unchanged quotes, either way round, loses exactly the spread, both slippages and both fees |
| FillPrices.FeesAreCharged | src/broker/PaperBroker.ts:566-580 | after every run each fill has paid quantity times price times the maker or taker rate |
| LiquidationPrice.SnapshotIs | src/broker/PaperBroker.ts:1036-1093 | the snapshot's profit, equity, margins and available balance are the sums of qty*(price-entry), |qty|*price/leverage and |qty|*price*rate at the written-out valuation prices |
| LiquidationPrice.MarginsArePositive | src/broker/PaperBroker.ts:1060-1064 | both margins of an open position are positive at a positive price, on either side |
| LiquidationPrice.OtherSideSnapshot | src/broker/PaperBroker.ts:1036-1093 | negating every quantity leaves both margins as they are and turns the unrealized PnL around |
| LiquidationPrice.LiquidatedIff | src/broker/PaperBroker.ts:1107-1112 | with one position open, a long of q is liquidated exactly at marks m with m*q*(1-rate) <= q*entry - wallet, a short of s at those with m*s*(1+rate) >= wallet + s*entry |
| LiquidationPrice.WorseMarkStaysLiquidated | src/broker/PaperBroker.ts:1107-1112 | a mark that is worse for the position than a liquidating one liquidates it too |
| OrderLimits.AcceptedIff | src/broker/PaperBroker.ts:935-1028 | an order passes the risk check exactly when it has a price to be judged at, is well formed, keeps to the caps or only reduces, and leaves its margin and fee in the available balance when it grows the position |
| OrderLimits.AcceptedKeepsCaps | src/broker/PaperBroker.ts:959-1016 | an accepted order that is not reduce-only, and the position it results in, are within their notional caps, and the order count, daily loss and free margin within theirs |
| OrderLimits.OneOrderFewer | src/broker/PaperBroker.ts:265-276 | an order that is not reduce-only counts itself among the open ones: under a limit of n it is admitted only while at most n - 2 are live |
| OrderLimits.RefusalsHold | src/broker/PaperBroker.ts:959-1016 | every refusal on account of position or account names a limit that is exceeded |
| AccountRules.OrderedQuantityIs | src/broker/PaperBroker.ts:208-225 | an order is for the most lot steps that fit the quantity asked for and, when reduce-only, the open position |
| AccountRules.OrderedPricesAre | src/broker/PaperBroker.ts:227-233 | the prices of an order are the nearest ticks to those asked for |
| AccountRules.UnfitMarketRefused | src/broker/PaperBroker.ts:265-274 | an order without market data, or with stale data, is stored as rejected and nothing else happens |
| AccountRules.TickUpdates | src/broker/PaperBroker.ts:171-191 | a market update replaces the fields it names, keeps the others, stamps the market fresh and leaves other symbols alone |
| AccountRules.CancelAllCancels | src/broker/PaperBroker.ts:350-357 | cancelling all cancels the live orders of the named symbol, or all of them, and changes nothing else |
| AccountRules.ResetEmpties | src/broker/PaperBroker.ts:1252-1274 | a reset of a reachable account leaves the balance, nothing open or recorded, and every saved order as it was but for the live ones, which are cancelled |
| Broker.ExecuteFillIsBooked | src/broker/PaperBroker.ts:566-647 | paying the fee, moving the position and booking the rest, in executeFill's order, amounts to the one-step fill |
| Broker.PaperBroker.constructor | src/broker/PaperBroker.ts:77-165 | a constructed broker is the state rebuilt from the loaded tables |
| Broker.PaperBroker.ReplayFills | src/broker/PaperBroker.ts:134-146 | the loop sums realized PnL and fees over the loaded fills |
| Broker.PaperBroker.SumPositions | src/broker/PaperBroker.ts:1036-1065 | the account loop computes unrealized PnL and both margins as sums over positions, and counts the open ones |
| Broker.PaperBroker.CalculateAccountState | src/broker/PaperBroker.ts:1036-1093 | the snapshot's equity, margins, margin ratio, available balance, totals and open-position and open-order counts |
| Broker.LiquidationAtRatioOne | src/broker/PaperBroker.ts:1068-1112 | a liquidation fires exactly when the snapshot's margin ratio has reached 1, or no equity is left while margin is needed |
| Broker.PaperBroker.CancelWhere | src/broker/PaperBroker.ts:350-357 | the cancellation loop cancels and saves exactly the live orders the filter hits |
| Broker.PaperBroker.CancelOrder | src/broker/PaperBroker.ts:333-348 | cancels a live order, leaves a finished or unknown one alone |
| Broker.PaperBroker.ApplyPositionFill | src/broker/PaperBroker.ts:732-847 | moves, saves and sweeps as the five branches do and returns the realized PnL |
| Broker.PaperBroker.ExecuteFill | src/broker/PaperBroker.ts:566-647 | refines the one-step fill |
| Broker.PaperBroker.FillOrder | src/broker/PaperBroker.ts:536-564 | refines fillOrder with its rejection path |
| Broker.PaperBroker.CheckOrderRisk | src/broker/PaperBroker.ts:935-1018 | returns the first reason to refuse, after rolling the day |
| Broker.PaperBroker.SubmitOrder | src/broker/PaperBroker.ts:197-331 | refines submitOrder on every path; an unknown instrument stores nothing |
| Broker.PaperBroker.EvaluateOpenOrders | src/broker/PaperBroker.ts:512-534 | the matching loop refines the specification, iterating over orders that fills may cancel |
| Broker.PaperBroker.CheckLiquidation | src/broker/PaperBroker.ts:1107-1165 | the liquidation loop refines the specification |
| Broker.PaperBroker.OnMarket | src/broker/PaperBroker.ts:171-191 | refines onMarket |
| Broker.PaperBroker.ApplyFunding | src/broker/PaperBroker.ts:363-446 | the funding loop refines the specification |
| Broker.PaperBroker.AdjustWalletBalance | src/broker/PaperBroker.ts:456-460 | moves the wallet and nothing else |
| Broker.PaperBroker.ResetAccount | src/broker/PaperBroker.ts:1252-1274 | refines resetAccount |
| ScalingKeys.KeyChangesIff | src/broker/PaperBroker.ts:773-846 | a fill changes the position's scaling key if and only if it opens from flat at a new time; never by reducing, increasing, closing or flipping |
| ScalingKeys.OnlyReopeningChangesKey | src/broker/PaperBroker.ts:773-846 | over any later fills an open position keeps its key if and only if it was never flat in between |
| ScalingKeys.FlipKeepsBudget | src/agent/ExitManager.ts:187-195 | a flip leaves the position's add budget, cooldown and de-risk mark to the position on the other side |
| ScalingKeys.NothingTrackedEarly | src/agent/ExitManager.ts:397-399 | in any history of fills, cycles and adds, the manager tracks no position that has not been opened yet |
| ScalingKeys.BudgetSurvivesIffNotReopened | src/agent/ExitManager.ts:187-195 | after any such history the next cycle finds the earlier add count exactly unless the position was closed and opened anew, and then none |
| ScalingKeys.OpenPositionsAreTimed | src/broker/PaperBroker.ts:773-786 | every open position a run can reach carries its open time, so the entry-price key is never needed for one |
| ScalingKeys.RestartKeepsKeys | src/broker/PaperBroker.ts:111-124 | a restart brings every open position back under the same key |
| Candles.BucketOfBucket | src/backtest/BacktestRunner.ts:324-327 | the coarse bucket of a fine bucket is the coarse bucket of the time itself |
| Candles.BuildFuses | src/backtest/BacktestRunner.ts:316-355 | building bars from bars is building them directly, for nested intervals |
| Candles.BuildIsBatchFold | src/backtest/BacktestRunner.ts:316-355 | on a sorted series each bar is first open, last close, extreme high and low and summed volume of its bucket, in order |
| Candles.BuildCovers | src/backtest/BacktestRunner.ts:316-355 | every source bar is summarised in some bar |
| Candles.VisibleIsPrefix | src/backtest/BacktestRunner.ts:254-264 | on a sorted series the closed bars are exactly a prefix |
| Candles.OnlyThePastShows | src/backtest/BacktestRunner.ts:245-264 | when no minute bar straddles the end of its bucket, what is visible after aggregation depends only on minute bars closed by then |
| Candles.AlignedNeverStraddles | src/backtest/BacktestRunner.ts:324-327 | bars that open on the minute never straddle the end of a bucket |
| Sorting.SortIsSort | src/market/Klines.ts:125-127 | the sort returns its input in order, losing and adding nothing |
| Sorting.SortRespectsIff | src/analysis/ZoneAggregationEngine.ts:192-196 | the sorted list is in another order exactly when that order agrees with every choice a stable sort makes |
| CandleSeries.UpsertSplits | src/market/Klines.ts:120-127 | an upsert into a sorted series overwrites the one equal time or inserts in order, and stays strictly sorted |
| CandleSeries.UpsertInto | src/backtest/BacktestRunner.ts:300-314 | the find-then-replace-or-push-and-sort code computes the upsert |
| BacktestReplay.LoadedIsSorted | src/backtest/BacktestRunner.ts:300-314 | a loaded series is strictly sorted whatever order the rows come in |
| BacktestReplay.SeriesAreSorted | src/backtest/BacktestRunner.ts:255-262 | every cached series is strictly sorted after any loads, as the binary search needs |
| BacktestReplay.LoadMerges | src/backtest/BacktestRunner.ts:270-298 | loading a symbol, cached already or not, merges its rows into the minute series and touches no other symbol |
| BacktestReplay.LoadKeepsStep | src/backtest/BacktestRunner.ts:270-298 | repeated loads keep the 5- and 15-minute series equal to the aggregation of the minute series |
| BacktestReplay.FifteenIsDirect | src/backtest/BacktestRunner.ts:296-298 | 1m to 5m to 15m equals 1m to 15m |
| BacktestReplay.NoLookAhead | src/backtest/BacktestRunner.ts:245-298 | two datasets without straddling bars that agree on every bar closed by the replay time show a strategy the same candles at every interval and limit |
| BacktestReplay.AlignedBarsShowNoFuture | src/backtest/BacktestRunner.ts:245-298 | the same for any bars that open on the minute |
| BacktestReplay.AggregationLeaksIff | src/backtest/BacktestRunner.ts:316-355 | for given open times, no dataset shows a bar's content at any replay time before it has closed if and only if no minute bar straddles the end of its bucket |
| BacktestReplay.BacktestRunner.FoldBars | src/backtest/BacktestRunner.ts:316-355 | the aggregation loop computes the fold |
| BacktestReplay.BacktestRunner.BuildHigherIntervals | src/backtest/BacktestRunner.ts:316-355 | stores the aggregated series, and nothing for an empty source |
| BacktestReplay.BacktestRunner.LoadKlines | src/backtest/BacktestRunner.ts:270-298 | merges the rows and rebuilds the two longer series, on a first and on any later load |
| BacktestReplay.BacktestRunner.GetCandles | src/backtest/BacktestRunner.ts:245-264 | the binary search returns exactly the last `limit` bars closed by the replay time |
| BacktestReplay.PushClosedBars | src/backtest/BacktestRunner.ts:414-442 | hands over the bars of the buckets left, each at the time it was left |
| BacktestReplay.OnlyLeftBucketsHanded | src/backtest/BacktestRunner.ts:414-442 | exactly the buckets just left are handed over, at the first time outside them |
| BacktestReplay.EachBucketHandedOnce | src/backtest/BacktestRunner.ts:414-442 | each bucket is handed over once, oldest first, and only after its bar has closed |
| BacktestReplay.NextBucketIsLater | src/backtest/BacktestRunner.ts:414-442 | entering another bucket means the previous one has closed |
| Klines.CacheHoldsNewest | src/market/Klines.ts:110-132 | after any upserts a series is exactly the newest N open times of the unbounded last-writer-wins map, strictly sorted |
| Klines.NewestIsUnique | src/market/Klines.ts:110-132 | that description determines the series |
| Klines.CacheHoldsNewestIff | src/market/Klines.ts:129-131 | that holds for every run if and only if the cap is at least one |
| Klines.ZeroCapIsNoCap | src/market/Klines.ts:129-131 | with a cap of zero the series is, after any run, the whole unbounded store |
| Klines.NegativeCapKeepsNothing | src/market/Klines.ts:129-131 | with a negative cap the series is empty after any run |
| Klines.TickKeepsNewest | src/market/Klines.ts:134-170 | one tick keeps the bounded series the newest bars of the full build |
| Klines.TicksBuildBars | src/market/Klines.ts:134-170 | ticks in time order give, for each retained bucket, the batch fold of its ticks |
| Klines.KlineStore.UpsertCandle | src/market/Klines.ts:110-132 | refines the bounded upsert; a rejected candle changes nothing |
| Klines.KlineStore.ApplyTick | src/market/Klines.ts:134-170 | refines the tick fold on its own series only |
| Klines.KlineStore.GetCandlesAsOf | src/market/Klines.ts:98-104 | returns the last candles opened by the given time |
| RateLimiting.CheckGets | src/api/RateLimiter.ts:71-99 | a check changes a bucket only by serving it or by dropping it |
| RateLimiting.WaitingAdmits | src/api/RateLimiter.ts:95-98 | waiting the returned retryAfterSec admits the bucket's next request, whatever other buckets do meanwhile |
| RateLimiting.WaitIsTight | src/api/RateLimiter.ts:95-98 | one second less leaves a kept bucket short of a token |
| LimiterAnswers.RemainingIsExact | src/api/RateLimiter.ts:90-98 | an allowed request told that m remain is followed by exactly m more allowed at the same moment |
| LimiterAnswers.WaitIsTold | src/api/RateLimiter.ts:90-98 | an allowed request has no wait, a refused one at least a second, or for ever where nothing is refilled |
| LimiterAnswers.FirstAnswer | src/api/RateLimiter.ts:71-99 | a client not tracked has the whole capacity of its own scope's tier |
| RateLimiting.IdleEvictionIsInvisible | src/api/RateLimiter.ts:110-121 | a client never dropped by the cap gets the answers of a limiter that never evicts and serves nobody else |
| RateLimiting.WindowBound | src/api/RateLimiter.ts:71-99 | in any window a bucket admits at most its capacity plus the refill of the window |
| RateLimiting.FewClientsNeverCapped | src/api/RateLimiter.ts:123-132 | with no more clients than the cap allows, the cap drops nobody |
| RateLimiting.CapRespected | src/api/RateLimiter.ts:86-88 | after every check of a monotone run the map respects the cap and still holds the bucket just used |
| ClientCap.CapEvictionForgives | src/api/RateLimiter.ts:123-132 | for any cap of at least one and any capacity of at least one: one client more than the cap gives a run that lets a spent client in again, where a limiter serving it alone refuses |
| ClientCap.EmptyCapForgives | src/api/RateLimiter.ts:123-132 | with a cap of zero or less a single client suffices for that |
| ClientCap.CapUnseenIff | src/api/RateLimiter.ts:123-132 | where an idle period refills the bucket, the cap changes no answer in any run of a set of clients if and only if they number at most the cap |
| IdleSweep.SweepShows | src/api/RateLimiter.ts:110-121 | for any capacity of at least one: where the shortest idle period does not bring back every whole token of a burst, 128 clients, or one more than the cap, give a run that shows the sweep |
| IdleSweep.EvictionUnseenIff | src/api/RateLimiter.ts:110-132 | for whole capacities, no run of a set of clients shows one of them any eviction if and only if they number at most the cap, and either fewer than 128 or the idle limit plus one millisecond refills the capacity |
| LimiterAnswers.DefaultsUnseenIff | src/api/RateLimiter.ts:42-50 | with the default limits a client can tell that buckets are forgotten exactly when there are more than 10000 clients |
| Limiter.RateLimiter.Check | src/api/RateLimiter.ts:71-99 | refines the check, including spending a bucket the sweep has just dropped |
| Limiter.RateLimiter.EvictIdle | src/api/RateLimiter.ts:110-132 | the two deletion loops refine the sweep |
| LoopDetection.TrailingIsLongest | src/strategy/SignalLoopDetector.ts:63-93 | the trailing run has length n exactly when the last n outcomes form a streak |
| LoopDetection.AnswerIsTheHistory | src/strategy/SignalLoopDetector.ts:42-50 | isLooping holds exactly when the last maxRepeats outcomes are one young streak of same-reason rejections; pruning and delete-on-read never change an answer |
| LoopDetection.SuppressionExpires | src/strategy/SignalLoopDetector.ts:42-50 | forgetAfterMs after a key's last outcome its suppression is gone, whatever happens to other keys |
| LoopDetection.OnlyYoungTracked | src/strategy/SignalLoopDetector.ts:105-109 | after a rejection is recorded only young streaks are kept |
| LoopDetection.SignalLoopDetector.IsLooping | src/strategy/SignalLoopDetector.ts:42-50 | answers and forgets as specified |
| LoopDetection.SignalLoopDetector.ReasonFor | src/strategy/SignalLoopDetector.ts:53-57 | gives the count and reason exactly when suppressed |
| LoopDetection.SignalLoopDetector.Record | src/strategy/SignalLoopDetector.ts:63-93 | refines the streak update |
| LoopDetection.SignalLoopDetector.PruneExpired | src/strategy/SignalLoopDetector.ts:105-109 | the deletion loop keeps exactly the unexpired streaks |
| Correlation.CauchySchwarz | src/risk/PortfolioCorrelationGuard.ts:260-266 | num squared is at most dx times dy for any two vectors |
| Correlation.AccumulatorsBounded | src/risk/PortfolioCorrelationGuard.ts:260-266 | the loop's accumulators satisfy num^2 <= dx*dy |
| Correlation.ClampNeverBinds | src/risk/PortfolioCorrelationGuard.ts:267-269 | in exact arithmetic the clamp to [-1, 1] changes nothing |
| Correlation.SelfCorrelation | src/risk/PortfolioCorrelationGuard.ts:244-270 | a series correlates 1 with itself unless it is constant, when the result is 0 |
| Correlation.PerfectLine | src/risk/PortfolioCorrelationGuard.ts:244-270 | series on an exact line correlate +1 or -1 by the sign of the slope |
| Correlation.PearsonIsSymmetric | src/risk/PortfolioCorrelationGuard.ts:244-270 | the estimate does not depend on the argument order |
| Correlation.SpreadMeans | src/risk/PortfolioCorrelationGuard.ts:260-266 | dx is zero exactly for a constant series |
| Correlation.OlderReturnsIgnored | src/risk/PortfolioCorrelationGuard.ts:244-249 | series are aligned at their newest ends; older returns than the shorter one has do not count |
| Correlation.WithinOne | src/risk/PortfolioCorrelationGuard.ts:267-269 | whatever the square root returns, the estimate is within [-1, 1] |
| Correlation.PearsonLoop | src/risk/PortfolioCorrelationGuard.ts:244-270 | the loops compute the coefficient of the shared tails |
| Correlation.Accumulate | src/risk/PortfolioCorrelationGuard.ts:257-266 | the accumulator loop computes the three dot products |
| CorrelationGuard.EvaluateLoop | src/risk/PortfolioCorrelationGuard.ts:123-223 | the loop computes the cluster, its exposure, the data flag and the verdict |
| CorrelationGuard.ClusterSum | src/risk/PortfolioCorrelationGuard.ts:153-199 | the cluster's exposure is the sum of what each position contributes on its own |
| CorrelationGuard.AllowedIff | src/risk/PortfolioCorrelationGuard.ts:148-205 | a candidate is allowed exactly when its margin and the margins of the positions that move with it are at most the configured share of equity, within a billionth of it |
| CorrelationGuard.OrderDoesNotMatter | src/risk/PortfolioCorrelationGuard.ts:153-199 | verdict, exposure and data flag do not depend on the order of positions |
| CorrelationGuard.MorePositionsNeverHelp | src/risk/PortfolioCorrelationGuard.ts:153-205 | adding an open position never turns a rejection into an acceptance |
| CorrelationGuard.HedgesAreNotCounted | src/risk/PortfolioCorrelationGuard.ts:183-190 | with a positive floor a position that offsets the candidate is never counted |
| CorrelationGuard.PerfectFollowersCount | src/risk/PortfolioCorrelationGuard.ts:153-199 | a same-side position whose returns follow the candidate's on a rising line is always counted |
| Zones.MakeZone | src/analysis/ZoneAggregationEngine.ts:119-154 | a zone's strength is between 1 and 100 and it starts with one touch |
| Zones.StrengthOnlyFades | src/analysis/ZoneAggregationEngine.ts:134-137 | a detection never grows stronger as it ages |
| ZoneStrength.TimeframeSteps | src/analysis/ZoneAggregationEngine.ts:126-137 | what each step to a longer timeframe adds to a detection |
| ZoneStrength.KindAndHeight | src/analysis/ZoneAggregationEngine.ts:126-137 | what an order block and a usual height add |
| ZoneStrength.StrongerDetections | src/analysis/ZoneAggregationEngine.ts:119-154 | a longer timeframe, an order block and an unbroken status each make a zone no weaker |
| ZoneStrength.MemberBonus | src/analysis/ZoneAggregationEngine.ts:228-232 | below the ceilings each further member adds ten and three per touch to the merged strength |
| ZoneStrength.BonusIsCapped | src/analysis/ZoneAggregationEngine.ts:228-232 | merging adds at most 40, and exactly 40 once both bonuses are full |
| Zones.ClusterSpanWith | src/analysis/ZoneAggregationEngine.ts:203-213 | the loop computes the lowest low and highest high with a candidate member |
| Zones.ClustersPartition | src/analysis/ZoneAggregationEngine.ts:162-190 | every usable zone lands in exactly one cluster and nothing else does |
| Zones.ClustersAreSound | src/analysis/ZoneAggregationEngine.ts:171-187 | clusters respect the member limit, merged ones the span cap, and none has a gap |
| Zones.FirstMemberDominates | src/analysis/ZoneAggregationEngine.ts:168-187 | a cluster's members are strongest first |
| Zones.MergedIsStrongest | src/analysis/ZoneAggregationEngine.ts:228-232 | the merged strength is at least every member's and at most 100 |
| Zones.MergedZonesAreGrounded | src/analysis/ZoneAggregationEngine.ts:189-232 | each merged zone lists usable members, covers only prices some member covers, is at least as strong as each, and respects the member limit |
| Zones.MergedZonesAreRanked | src/analysis/ZoneAggregationEngine.ts:192-196 | the result is ordered by strength, then lower edge, one zone per cluster |
| ZoneRanking.DominantIsHeaviest | src/analysis/ZoneAggregationEngine.ts:217-238 | the dominant timeframe is the heaviest among the members |
| ZoneRanking.MergedSpeaksForAll | src/analysis/ZoneAggregationEngine.ts:217-260 | a merged zone has its members' common direction or none, their best status, the first creation and last confirmation, and the middle of its edges |
| ZoneRanking.ListsEachOnce | src/analysis/ZoneAggregationEngine.ts:223-227 | it lists each timeframe and each type of a member once |
| ZoneRanking.DocumentedOrderIff | src/analysis/ZoneAggregationEngine.ts:191-196 | for any zones, the result is in the documented order if and only if, of any two equally strong clusters, the one listed first is at least as heavy |
| ZoneRanking.SeparateOrderIff | src/analysis/ZoneAggregationEngine.ts:191-196 | for any pairwise separate zones, if and only if, of any two equally strong usable ones, the lower has at least as heavy a timeframe |
| Zones.TimeframesAreNotCompared | src/analysis/ZoneAggregationEngine.ts:192-196 | two separate zones that come out equally strong are listed by lower edge whatever their timeframes |
| Zones.ShortTimeframeFirst | src/analysis/ZoneAggregationEngine.ts:191-196 | two concrete zones, equal but for edges and timeframe, with the 5-minute one ahead of the 4-hour one |
| Zones.MemberCountsAddUp | src/analysis/ZoneAggregationEngine.ts:192-196 | the merged zones' member counts add up to the number of usable zones |
| Zones.PlaceInto | src/analysis/ZoneAggregationEngine.ts:172-186 | the inner loop joins the first cluster that fits or starts a new one |
| Zones.MergeZones | src/analysis/ZoneAggregationEngine.ts:162-196 | the clustering loop computes the specified result |
| Scaling.DeRiskStaysBelowBreach | src/agent/ExitManager.ts:297-322 | a de-risk trigger at or beyond the full-breach threshold never fires |
| ExitThresholds.LossExitIff | src/agent/ExitManager.ts:216-226 | an open position is closed for its loss exactly when qty*(last-entry) is at most minus the configured share of a positive equity, on either side |
| ExitThresholds.DeRiskIff | src/agent/ExitManager.ts:297-322 | a position not to be closed is de-risked exactly when that product is at most minus the de-risk share and it has not been de-risked yet |
| ExitThresholds.RegimeExitIff | src/agent/ExitManager.ts:233-264 | which regime changes close a long and which a short |
| ExitThresholds.ProfitGateIff | src/agent/ExitManager.ts:553-563 | an add is refused as unprofitable exactly when qty*(last-entry) is below the required share of equity |
| ExitThresholds.SubmittedAddsAreEarned | src/agent/ExitManager.ts:540-640 | an add is submitted exactly when every gate is passed, and then adds the configured fraction of the position's size |
| ExitThresholds.ExitsOnRealizableLoss | src/agent/ExitManager.ts:770-776 | a position is closed for its loss exactly when closing it at the last price would realize that loss |
| Scaling.ConfirmedMeans | src/agent/ExitManager.ts:566-580 | an add is confirmed exactly when some aligned READY setup reaches the required confluence |
| Scaling.StepCountsAdds | src/agent/ExitManager.ts:681-684 | each step moves a live position's add count by the adds it accepted |
| Scaling.AddsStayInBudget | src/agent/ExitManager.ts:594-604 | while a position lives, accepted adds never exceed scaleInMaxAdds |
| Scaling.SubmissionsKeepApart | src/agent/ExitManager.ts:606-617 | two add submissions are at least the cooldown apart unless the first threw |
| Scaling.AddIsTheFraction | src/agent/ExitManager.ts:619-623 | an accepted add raises the position it was sized from by at most the configured fraction of it |
| Scaling.SizeStaysBounded | src/agent/ExitManager.ts:619-623 | if only this manager adds, and no more than the quantities it submitted, size stays within (1 + fraction)^budget of the start |
| Scaling.AtMostOneScaleOut | src/agent/ExitManager.ts:413-486 | a living position is de-risked at most once, apart from de-risks accepted but not reported |
| Scaling.RepeatsOnlyUnreported | src/agent/ExitManager.ts:449-486 | in any run, a living position whose loss calls for it is de-risked again if and only if every de-risk accepted so far went unreported |
| Scaling.DeRiskedTwice | src/agent/ExitManager.ts:449-486 | a concrete run of two cycles in which one living position is de-risked twice, the first unreported |
| Scaling.ExitManager.EvaluateExits | src/agent/ExitManager.ts:158-197 | the cycle loop refines the specification, each decision seeing the de-risks before it |
| Scaling.ExitManager.SubmitScaleOut | src/agent/ExitManager.ts:413-486 | the de-risk is recorded only when accepted and reported |
| Scaling.ExitManager.PruneTo | src/agent/ExitManager.ts:187-195 | both deletion loops keep exactly the live keys |
| Scaling.ExitManager.EvaluateScaleIn | src/agent/ExitManager.ts:517-757 | refines the gates, the tracker update and the returned decision |
| EventLogging.MaxSeq | src/persistence/EventLog.ts:70-73 | an upper bound of every row's number that some row attains |
| EventLogging.StepKeepsSound | src/persistence/EventLog.ts:115-168 | each step of the dual write keeps the rows numbered in order and the lines a subsequence of them |
| EventLogging.RunsAreSound | src/persistence/EventLog.ts:50-168 | the same for every run, from any table the log is opened on |
| EventLogging.LogSurvivesCrashes | src/persistence/EventLog.ts:50-168 | across failures, crashes and restarts the rows' numbers strictly increase in append order and the lines pick rows in that order |
| EventLogging.LostLinesAreCounted | src/persistence/EventLog.ts:162-168 | a line is missing exactly for each failed write or crash between the two writes |
| EventLogging.NewestFirst | src/persistence/EventLog.ts:277 | ordering by descending number reads the table newest append first |
| EventLogging.EventLog.constructor | src/persistence/EventLog.ts:50-62 | opening recovers the highest number |
| EventLogging.EventLog.Append | src/persistence/EventLog.ts:115-168 | one append is the corresponding steps of the protocol |
| Reconciliation.IndexIsNet | src/execution/ExchangeReconciler.ts:73-80 | the index holds each held symbol once, with its net quantity |
| Reconciliation.MismatchesAreExact | src/execution/ExchangeReconciler.ts:143-157 | one discrepancy for each held symbol whose nets differ by more than the tolerance, and no other |
| Reconciliation.CleanIsAgreement | src/execution/ExchangeReconciler.ts:159 | a comparison is clean exactly when both sides agree on every symbol |
| SafeMode.SafeModeMeans | src/execution/ExchangeReconciler.ts:108-201 | safe mode is on exactly while some failed or mismatched reconciliation has not been cleared since |
| SafeMode.NothingFlowsWhileUnreconciled | src/execution/ExchangeReconciler.ts:108-201 | after such a reconciliation no broker is handed an order until a clean reconcileAndResume |
| SafeMode.OrdersGoWhereTheProfileSays | src/execution/ExecutionRouter.ts:33-101 | live orders need an armed real-order profile with an adapter; a profile wanting real orders without one forwards nothing, ever |
| SafeMode.LiveModeSimulates | src/execution/ExecutionRouter.ts:33-101 | exactly when an order under a live-mode profile reaches the paper broker |
| SafeMode.LiveVenueReached | src/execution/ExecutionRouter.ts:33-101 | exactly when an order reaches the live venue, and that it is then handed over once |
| SafeMode.LiveTradingGuard.CanExecute | src/execution/LiveTradingGuard.ts:26-50 | refuses in safe mode, and in live mode unless armed with real orders |
| SafeMode.LiveTradingGuard.TriggerSafeMode | src/execution/LiveTradingGuard.ts:16-19 | safe mode is on afterwards, with the reason |
| SafeMode.LiveTradingGuard.ClearSafeMode | src/execution/LiveTradingGuard.ts:21-24 | safe mode is off afterwards, without a reason |
| SafeMode.ExecutionRouter.SubmitOrder | src/execution/ExecutionRouter.ts:62-101 | hands the order once to the one broker the profile selects, or refuses and hands it to none, also when one object serves as both brokers |
| SafeMode.ExchangeReconciler.IndexPositions | src/execution/ExchangeReconciler.ts:73-80 | the loop computes the index |
| SafeMode.ExchangeReconciler.ComparePositions | src/execution/ExchangeReconciler.ts:143-157 | the loop computes the discrepancies in order |
| SafeMode.ExchangeReconciler.Reconcile | src/execution/ExchangeReconciler.ts:108-188 | reports as specified and only ever turns safe mode on |
| SafeMode.ExchangeReconciler.ReconcileAndResume | src/execution/ExchangeReconciler.ts:194-201 | safe mode is off afterwards exactly when the report is clean |

## Left out

- IEEE-754 rounding, NaN and infinities: arithmetic is exact, `decimal.js` values and `number` values are reals, and the
  square root of the correlation is any function with the defining property of one.
- Non-positive leverage, lot steps and ticks: these are positive by type.
- Record identity in the broker: orders and positions are values in lists kept in insertion order, so a caller that
  holds on to a returned record and sees it change is not modelled.
- Ids: ULIDs are a counter of fresh numbers in the broker and parameters elsewhere.
- Broker.PaperBroker.CalculateAccountState: does not model peak equity and drawdown, which every snapshot updates.
- IdleSweep.EvictionUnseenIff: for a tier whose capacity is not a whole number the two directions leave a gap of less
  than two tokens: nothing shows where the idle limit refills the capacity (`ClientCap.CapUnseenIff`), and something does
  where it falls short of a burst's whole tokens by more than the fraction left over (`IdleSweep.SweepShows`). In
  between it depends on which fractions of a token the refill per millisecond reaches.
- Accounts other than the default one, and the stored copies of mark price and unrealized PnL on positions.
- Ledger-entry, transaction and event records of the broker, its onFill listener and its logging.
- The external market provider, the clock and the calendar day: inputs of each step. One call reads the clock once.
- SQLite: tables are maps and sequences with insert, delete and load; a torn JSONL line is not modelled.
- Colliding string keys: map keys built from strings are tuples.
- Candle metadata (close time, closed flag, receipt time), gap detection and HTTP fetches.
- The log returns behind the correlation estimate: the guard takes each symbol's returns as given.
- The detector and status tables before zone merging, beyond the strength formula.
- Interleaving of asynchronous calls on one object: each call of the exit manager, the reconciler and the router is one step.
- Signal execution: a submission is accepted, rejected or throws, as an input.
- Telemetry, configuration parsing, HTTP routes, dashboards, exchange clients and the language-model agents.
- Circuit breaker, setup, thesis, scenario, health and sizing engines: stateless scoring and threshold checks.
