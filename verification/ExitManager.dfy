/** Position scaling: how often a position may be added to or de-risked while it lives. */
module Scaling {
  import opened Prelude
  import opened Sorting

  /** Identity of a position lifecycle: the symbol and its open time, or its entry price when no time is known. */
  datatype Key = Opened(symbol: string, at: int) | Entered(symbol: string, price: real)

  datatype Position = Position(symbol: string, isOpen: bool, qty: real, entryPrice: real, openedAt: Option<int>) {
    function Key(): Key {
      if openedAt.Some? then Opened(symbol, openedAt.value) else Entered(symbol, entryPrice)
    }

    predicate Live() {
      isOpen && qty != 0.0
    }
  }

  datatype ScalingConfig = ScalingConfig(enabled: bool, minProfitPct: real, sizeFraction: real, maxAdds: int,
                                         cooldownMs: int, outTriggerPct: real)

  datatype Config = Config(exitOnRegimeFlip: bool, maxUnrealizedLossPct: real, scaling: Option<ScalingConfig>)

  // ----- what the manager looks at -----

  datatype Regime = TrendingStrong | TrendingNormal | RangingLowVol | RangingHighVol | VolatileBreakout | Transitioning

  datatype Trend = Bullish | Bearish | Flat

  datatype SetupState = Invalidated | Expired | Alive

  /** The agent's state for the symbol: the regime at entry and now, how far the risk multiplier has dropped
      between them, and the setup it is tracking. */
  datatype SymbolView = SymbolView(entryRegime: Regime, currentRegime: Regime, htfTrend: Option<Trend>,
                                   riskMultDrop: real, trackingSetup: Option<SetupState>)

  /** How a submitted signal ended. `reported` says whether the event log and the broadcast that follow it
      returned normally; when they throw, the rest of the bookkeeping is skipped. */
  datatype Submission = Accepted(reported: bool) | Rejected(reported: bool) | Threw

  datatype ExitReason = RegimeFlip | UnrealizedLossBreach | SetupInvalidated

  datatype Decision = ExitNow(reason: ExitReason) | Hold | ScaleOut

  /** One position of a cycle, with what the manager reads about it and how its signal, if any, ends. */
  datatype Case = Case(position: Position, last: Option<real>, view: Option<SymbolView>, submission: Submission)

  function UnrealizedPct(p: Position, last: real, equity: real): real {
    if equity <= 0.0 then 0.0
    else (if p.qty > 0.0 then last - p.entryPrice else p.entryPrice - last) * Abs(p.qty) / equity
  }

  predicate Trending(r: Regime) {
    r == TrendingStrong || r == TrendingNormal
  }

  predicate RegimeFlipped(v: SymbolView, long: bool) {
    || v.riskMultDrop >= 0.3
    || (Trending(v.entryRegime) && (v.currentRegime == RangingHighVol || v.currentRegime == Transitioning))
    || (long && v.currentRegime == RangingHighVol)
    || (long && Trending(v.currentRegime) && v.htfTrend == Some(Bearish))
    || (!long && Trending(v.currentRegime) && v.htfTrend == Some(Bullish))
  }

  predicate LossBreached(cfg: Config, c: Case, equity: real) {
    c.last.Some? && cfg.maxUnrealizedLossPct > 0.0 && equity > 0.0
    && UnrealizedPct(c.position, c.last.value, equity) <= -cfg.maxUnrealizedLossPct
  }

  /** evaluateOne */
  function Decide(cfg: Config, scaledOut: set<Key>, c: Case, equity: real): Decision {
    if !Truthy(c.last) then Hold
    else if LossBreached(cfg, c, equity) then ExitNow(UnrealizedLossBreach)
    else if c.view.Some? && cfg.exitOnRegimeFlip && RegimeFlipped(c.view.value, c.position.qty > 0.0) then ExitNow(RegimeFlip)
    else if c.view.Some? && c.view.value.trackingSetup.Some? && c.view.value.trackingSetup.value != Alive
    then ExitNow(SetupInvalidated)
    else if cfg.scaling.Some? && cfg.scaling.value.enabled && cfg.scaling.value.outTriggerPct > 0.0 && equity > 0.0
            && UnrealizedPct(c.position, c.last.value, equity) <= -cfg.scaling.value.outTriggerPct
            && c.position.Key() !in scaledOut
    then ScaleOut
    else Hold
  }

  /** A de-risk band at or beyond the full-breach threshold is empty: the whole position goes instead. */
  lemma DeRiskStaysBelowBreach(cfg: Config, scaledOut: set<Key>, c: Case, equity: real)
    requires cfg.maxUnrealizedLossPct > 0.0
    requires cfg.scaling.Some? && cfg.scaling.value.outTriggerPct >= cfg.maxUnrealizedLossPct
    ensures Decide(cfg, scaledOut, c, equity) != ScaleOut
  {
    hide UnrealizedPct;
  }

  // ----- one cycle of exits -----

  /** The de-risks already taken, after this case. An accepted one whose report throws is not recorded. */
  function Derisked(cfg: Config, scaledOut: set<Key>, c: Case, equity: real): set<Key> {
    if c.position.Live() && Decide(cfg, scaledOut, c, equity) == ScaleOut && c.submission == Accepted(true)
    then scaledOut + {c.position.Key()}
    else scaledOut
  }

  function DeriskedAll(cfg: Config, scaledOut: set<Key>, cases: seq<Case>, equity: real): set<Key> {
    if cases == [] then scaledOut
    else Derisked(cfg, DeriskedAll(cfg, scaledOut, cases[..|cases| - 1], equity), cases[|cases| - 1], equity)
  }

  function LiveKeys(cases: seq<Case>): set<Key> {
    set c | c in cases && c.position.Live() :: c.position.Key()
  }

  // ----- one pyramid add -----

  datatype Setup = Setup(ready: bool, long: bool, score: real)

  datatype Add = Add(position: Position, last: Option<real>, equity: real, allowNewEntries: bool, setups: seq<Setup>,
                     minConfluence: real, hasPlan: bool, correlationAllows: Option<bool>, now: int)

  datatype Tracker = Tracker(adds: int, lastAt: int)

  datatype Gate =
    | NoState | BreakerTripped | NotProfitable | NoSetup | NoPlan | BudgetExhausted | CoolingDown | NothingToAdd | Correlated
    | Submits(addQty: real, addNumber: int)

  predicate Stronger(a: Setup, b: Setup) {
    a.score >= b.score
  }

  function Aligned(setups: seq<Setup>, long: bool): seq<Setup> {
    if setups == [] then []
    else
      var rest := Aligned(setups[..|setups| - 1], long);
      var s := setups[|setups| - 1];
      if s.ready && s.long == long then rest + [s] else rest
  }

  /** The strongest aligned READY setup clears the bar. */
  predicate Confirmed(a: Add) {
    var aligned := SortBy(Stronger, Aligned(a.setups, a.position.qty > 0.0));
    aligned != [] && aligned[0].score >= a.minConfluence
  }

  lemma {:induction false} AlignedMembers(setups: seq<Setup>, long: bool)
    ensures forall s :: s in Aligned(setups, long) <==> s in setups && s.ready && s.long == long
  {
    if setups != [] {
      AlignedMembers(setups[..|setups| - 1], long);
    }
  }

  /** An add is confirmed exactly when some READY setup in its direction reaches the required confluence. */
  lemma ConfirmedMeans(a: Add)
    ensures Confirmed(a) <==>
      exists s :: s in a.setups && s.ready && s.long == (a.position.qty > 0.0) && s.score >= a.minConfluence
  {
    hide SortBy, Aligned;
    var aligned := Aligned(a.setups, a.position.qty > 0.0);
    AlignedMembers(a.setups, a.position.qty > 0.0);
    SortMembers(Stronger, aligned);
    if aligned != [] {
      assert SortBy(Stronger, aligned)[0] in SortBy(Stronger, aligned);
    }
    forall s | s in aligned && s.score >= a.minConfluence ensures Confirmed(a) {
      SortHead(Stronger, aligned, s);
    }
  }

  function TrackerOf(tracker: map<Key, Tracker>, k: Key): Tracker {
    if k in tracker then tracker[k] else Tracker(0, 0)
  }

  function GateOf(s: ScalingConfig, t: Tracker, a: Add): Gate {
    if !Truthy(a.last) || a.equity <= 0.0 then NoState
    else if !a.allowNewEntries then BreakerTripped
    else if UnrealizedPct(a.position, a.last.value, a.equity) < s.minProfitPct then NotProfitable
    else if !Confirmed(a) then NoSetup
    else if !a.hasPlan then NoPlan
    else if t.adds >= s.maxAdds then BudgetExhausted
    else if t.lastAt > 0 && a.now - t.lastAt < s.cooldownMs then CoolingDown
    else if Abs(a.position.qty) * s.sizeFraction <= 0.0 then NothingToAdd
    else if a.correlationAllows == Some(false) then Correlated
    else Submits(Abs(a.position.qty) * s.sizeFraction, t.adds + 1)
  }

  // ----- runs -----

  datatype Step = Exits(cases: seq<Case>, equity: real) | ScaleIn(add: Add, submission: Submission)

  datatype State = State(tracker: map<Key, Tracker>, scaledOut: set<Key>)

  /** The add, if any, that evaluateScaleIn submits. */
  function Submitted(cfg: Config, s: State, a: Add): Option<Gate> {
    if cfg.scaling.None? || !cfg.scaling.value.enabled then None
    else
      var g := GateOf(cfg.scaling.value, TrackerOf(s.tracker, a.position.Key()), a);
      if g.Submits? then Some(g) else None
  }

  function Tracked(cfg: Config, s: State, a: Add, outcome: Submission): map<Key, Tracker> {
    var k := a.position.Key();
    if Submitted(cfg, s, a).None? || outcome == Threw then s.tracker
    else
      var adds := TrackerOf(s.tracker, k).adds;
      s.tracker[k := Tracker(if outcome.Accepted? then adds + 1 else adds, a.now)]
  }

  function After(cfg: Config, s: State, x: Step): State {
    match x
    case Exits(cases, equity) =>
      var live := LiveKeys(cases);
      State(map k | k in s.tracker && k in live :: s.tracker[k],
            set k | k in DeriskedAll(cfg, s.scaledOut, cases, equity) && k in live)
    case ScaleIn(a, outcome) => s.(tracker := Tracked(cfg, s, a, outcome))
  }

  function Final(cfg: Config, s: State, run: seq<Step>): State {
    if run == [] then s else After(cfg, Final(cfg, s, run[..|run| - 1]), run[|run| - 1])
  }

  /** Every cycle of the run still sees the position. */
  ghost predicate StaysLive(run: seq<Step>, k: Key) {
    forall i :: 0 <= i < |run| && run[i].Exits? ==> k in LiveKeys(run[i].cases)
  }

  predicate SubmitsAdd(cfg: Config, s: State, x: Step, k: Key) {
    x.ScaleIn? && x.add.position.Key() == k && Submitted(cfg, s, x.add).Some?
  }

  predicate AcceptsAdd(cfg: Config, s: State, x: Step, k: Key) {
    SubmitsAdd(cfg, s, x, k) && x.submission.Accepted?
  }

  function Adds(cfg: Config, s: State, run: seq<Step>, k: Key): nat {
    if run == [] then 0
    else
      var before := run[..|run| - 1];
      Adds(cfg, s, before, k) + (if AcceptsAdd(cfg, Final(cfg, s, before), run[|run| - 1], k) then 1 else 0)
  }

  // ----- the add budget -----

  lemma StepCountsAdds(cfg: Config, s: State, x: Step, k: Key)
    requires x.Exits? ==> k in LiveKeys(x.cases)
    ensures TrackerOf(After(cfg, s, x).tracker, k).adds
         == TrackerOf(s.tracker, k).adds + if AcceptsAdd(cfg, s, x, k) then 1 else 0
    ensures AcceptsAdd(cfg, s, x, k) ==> cfg.scaling.Some? && TrackerOf(s.tracker, k).adds < cfg.scaling.value.maxAdds
  {
    hide Confirmed, UnrealizedPct, DeriskedAll;
  }

  /** While a position lives, the adds accepted on top of those already tracked never pass the budget. */
  lemma {:induction false} AddsStayInBudget(cfg: Config, s: State, run: seq<Step>, k: Key)
    requires StaysLive(run, k) && cfg.scaling.Some?
    ensures TrackerOf(Final(cfg, s, run).tracker, k).adds == TrackerOf(s.tracker, k).adds + Adds(cfg, s, run, k)
    ensures Adds(cfg, s, run, k) > 0 ==> TrackerOf(s.tracker, k).adds + Adds(cfg, s, run, k) <= cfg.scaling.value.maxAdds
  {
    if run != [] {
      var n := |run| - 1;
      AddsStayInBudget(cfg, s, run[..n], k);
      StepCountsAdds(cfg, Final(cfg, s, run[..n]), run[n], k);
    }
  }

  // ----- the cooldown -----

  lemma StepKeepsLastAt(cfg: Config, s: State, x: Step, k: Key, at: int)
    requires x.Exits? ==> k in LiveKeys(x.cases)
    requires cfg.scaling.Some? && cfg.scaling.value.cooldownMs >= 0
    requires 0 < at <= TrackerOf(s.tracker, k).lastAt
    ensures at <= TrackerOf(After(cfg, s, x).tracker, k).lastAt
    ensures SubmitsAdd(cfg, s, x, k) ==> x.add.now - at >= cfg.scaling.value.cooldownMs
  {
    hide Confirmed, UnrealizedPct, DeriskedAll;
  }

  lemma SubmittingSetsLastAt(cfg: Config, s: State, x: Step, k: Key)
    requires SubmitsAdd(cfg, s, x, k) && x.submission != Threw
    ensures TrackerOf(After(cfg, s, x).tracker, k).lastAt == x.add.now
  {
    hide GateOf;
  }

  lemma {:induction false} LastAtRemembers(cfg: Config, s: State, run: seq<Step>, k: Key, p: nat, q: nat)
    requires StaysLive(run, k) && cfg.scaling.Some? && cfg.scaling.value.cooldownMs >= 0
    requires p < q <= |run| && SubmitsAdd(cfg, Final(cfg, s, run[..p]), run[p], k)
    requires run[p].submission != Threw && run[p].add.now > 0
    ensures run[p].add.now <= TrackerOf(Final(cfg, s, run[..q]).tracker, k).lastAt
  {
    hide GateOf, After, TrackerOf, Submitted;
    assert run[..q][..q - 1] == run[..q - 1];
    if q == p + 1 {
      SubmittingSetsLastAt(cfg, Final(cfg, s, run[..p]), run[p], k);
    } else {
      LastAtRemembers(cfg, s, run, k, p, q - 1);
      StepKeepsLastAt(cfg, Final(cfg, s, run[..q - 1]), run[q - 1], k, run[p].add.now);
    }
  }

  /** Two add submissions of a living position are at least the cooldown apart, unless the first one threw. */
  lemma SubmissionsKeepApart(cfg: Config, s: State, run: seq<Step>, k: Key, p: nat, q: nat)
    requires StaysLive(run, k) && cfg.scaling.Some? && cfg.scaling.value.cooldownMs >= 0
    requires p < q < |run| && SubmitsAdd(cfg, Final(cfg, s, run[..p]), run[p], k)
    requires SubmitsAdd(cfg, Final(cfg, s, run[..q]), run[q], k)
    requires run[p].submission != Threw && run[p].add.now > 0
    ensures run[q].add.now - run[p].add.now >= cfg.scaling.value.cooldownMs
  {
    LastAtRemembers(cfg, s, run, k, p, q);
    StepKeepsLastAt(cfg, Final(cfg, s, run[..q]), run[q], k, run[p].add.now);
  }

  // ----- the size bound -----

  function Growth(f: real, n: nat): real {
    if n == 0 then 1.0 else Growth(f, n - 1) * (1.0 + f)
  }

  lemma ProductKeepsOrder(x: real, a: real, b: real)
    requires x >= 0.0 && a <= b
    ensures x * a <= x * b
  {
  }

  lemma {:induction false} GrowthMonotone(f: real, m: nat, n: nat)
    requires f >= 0.0 && m <= n
    ensures 1.0 <= Growth(f, m) <= Growth(f, n)
  {
    if n > 0 {
      GrowthMonotone(f, if m == n then m - 1 else m, n - 1);
      var g := Growth(f, n - 1);
      assert g >= 1.0;
      ProductKeepsOrder(g, 1.0, 1.0 + f);
    }
  }

  /** The quantity the step adds to position k: what evaluateScaleIn submitted, if it was accepted. */
  function AddedBy(cfg: Config, s: State, x: Step, k: Key): real {
    if AcceptsAdd(cfg, s, x, k) then Submitted(cfg, s, x.add).value.addQty else 0.0
  }

  /** sizes[i] is the position's size before step i, and what an add there is sized from. A step raises it by
      no more than the quantity the manager submitted. */
  ghost predicate GrowsOnlyByAdds(cfg: Config, s: State, run: seq<Step>, k: Key, sizes: seq<real>) {
    && |sizes| == |run| + 1
    && forall i :: 0 <= i < |run| ==> GrowsAt(cfg, Final(cfg, s, run[..i]), run[i], k, sizes[i], sizes[i + 1])
  }

  predicate GrowsAt(cfg: Config, s: State, x: Step, k: Key, size: real, next: real) {
    && (AcceptsAdd(cfg, s, x, k) ==> Abs(x.add.position.qty) == size)
    && next <= size + AddedBy(cfg, s, x, k)
  }

  /** q0 · (1 + f)^adds */
  function SizeCap(q0: real, f: real, adds: nat): real {
    q0 * Growth(f, adds)
  }

  function Grown(size: real, f: real, added: bool): real {
    if added then size * (1.0 + f) else size
  }

  /** An accepted add is the configured fraction of the position it was sized from. */
  lemma AddIsTheFraction(cfg: Config, s: State, x: Step, k: Key, size: real, next: real)
    requires cfg.scaling.Some? && GrowsAt(cfg, s, x, k, size, next)
    ensures next <= Grown(size, cfg.scaling.value.sizeFraction, AcceptsAdd(cfg, s, x, k))
  {
    hide Confirmed, UnrealizedPct;
    if AcceptsAdd(cfg, s, x, k) {
      assert AddedBy(cfg, s, x, k) == size * cfg.scaling.value.sizeFraction;
    }
  }

  lemma GrownStep(size: real, next: real, q0: real, f: real, n: nat, added: bool)
    requires f >= 0.0 && size <= SizeCap(q0, f, n) && next <= Grown(size, f, added)
    ensures next <= SizeCap(q0, f, n + if added then 1 else 0)
  {
    if added {
      var bound := SizeCap(q0, f, n);
      ProductKeepsOrder(1.0 + f, size, bound);
      assert bound * (1.0 + f) == SizeCap(q0, f, n + 1);
    }
  }

  lemma SizeCapMonotone(q0: real, f: real, m: nat, n: nat)
    requires q0 >= 0.0 && f >= 0.0 && m <= n
    ensures SizeCap(q0, f, m) <= SizeCap(q0, f, n)
  {
    GrowthMonotone(f, m, n);
    ProductKeepsOrder(q0, Growth(f, m), Growth(f, n));
  }

  lemma {:induction false} SizeFollowsAdds(cfg: Config, s: State, run: seq<Step>, k: Key, sizes: seq<real>)
    requires cfg.scaling.Some? && cfg.scaling.value.sizeFraction >= 0.0 && GrowsOnlyByAdds(cfg, s, run, k, sizes)
    ensures sizes[|run|] <= SizeCap(sizes[0], cfg.scaling.value.sizeFraction, Adds(cfg, s, run, k))
  {
    var f, n := cfg.scaling.value.sizeFraction, |run| - 1;
    hide Grown, Final, AcceptsAdd, GrowsAt, Growth;
    if run == [] {
      SizeCapStarts(sizes[0], f);
    } else {
      GrowthBefore(cfg, s, run, k, sizes);
      hide GrowsOnlyByAdds, SizeCap;
      SizeFollowsAdds(cfg, s, run[..n], k, sizes[..|run|]);
      AddIsTheFraction(cfg, Final(cfg, s, run[..n]), run[n], k, sizes[n], sizes[n + 1]);
      GrownStep(sizes[n], sizes[n + 1], sizes[0], f, Adds(cfg, s, run[..n], k), AcceptsAdd(cfg, Final(cfg, s, run[..n]), run[n], k));
    }
  }

  lemma SizeCapStarts(q0: real, f: real)
    ensures SizeCap(q0, f, 0) == q0
  {
  }

  lemma GrowthBefore(cfg: Config, s: State, run: seq<Step>, k: Key, sizes: seq<real>)
    requires run != [] && GrowsOnlyByAdds(cfg, s, run, k, sizes)
    ensures |sizes| == |run| + 1 && GrowsOnlyByAdds(cfg, s, run[..|run| - 1], k, sizes[..|run|])
    ensures var n := |run| - 1; GrowsAt(cfg, Final(cfg, s, run[..n]), run[n], k, sizes[n], sizes[n + 1])
  {
    hide GrowsAt, Final;
    assert forall i :: 0 <= i < |run| - 1 ==> run[..|run| - 1][..i] == run[..i];
  }

  /** If only this manager adds, and an accepted add grows the position by at most the quantity submitted, a
      position fresh at the start never outgrows (1 + fraction) to the power of the budget. */
  lemma SizeStaysBounded(cfg: Config, s: State, run: seq<Step>, k: Key, sizes: seq<real>)
    requires cfg.scaling.Some? && cfg.scaling.value.sizeFraction >= 0.0 && k !in s.tracker
    requires StaysLive(run, k) && GrowsOnlyByAdds(cfg, s, run, k, sizes) && sizes[0] >= 0.0
    ensures sizes[|run|] <= SizeCap(sizes[0], cfg.scaling.value.sizeFraction, Budget(cfg.scaling.value))
  {
    hide SizeCap, Adds, Final;
    SizeFollowsAdds(cfg, s, run, k, sizes);
    AddsStayInBudget(cfg, s, run, k);
    hide GrowsOnlyByAdds;
    SizeCapMonotone(sizes[0], cfg.scaling.value.sizeFraction, Adds(cfg, s, run, k), Budget(cfg.scaling.value));
  }

  function Budget(s: ScalingConfig): nat {
    if s.maxAdds < 0 then 0 else s.maxAdds
  }

  // ----- the one-time de-risk -----

  predicate AcceptsScaleOut(cfg: Config, scaledOut: set<Key>, c: Case, equity: real, k: Key) {
    c.position.Live() && c.position.Key() == k && Decide(cfg, scaledOut, c, equity) == ScaleOut && c.submission.Accepted?
  }

  /** De-risks of the position accepted in one cycle, and those among them whose report threw. */
  function ScaleOutsIn(cfg: Config, scaledOut: set<Key>, cases: seq<Case>, equity: real, k: Key, unreported: bool): nat {
    if cases == [] then 0
    else
      var before, c := cases[..|cases| - 1], cases[|cases| - 1];
      var accepted := AcceptsScaleOut(cfg, DeriskedAll(cfg, scaledOut, before, equity), c, equity, k);
      ScaleOutsIn(cfg, scaledOut, before, equity, k, unreported)
        + (if accepted && (unreported ==> !c.submission.reported) then 1 else 0)
  }

  function ScaleOuts(cfg: Config, s: State, run: seq<Step>, k: Key, unreported: bool): nat {
    if run == [] then 0
    else
      var before, x := run[..|run| - 1], run[|run| - 1];
      ScaleOuts(cfg, s, before, k, unreported)
        + if x.Exits? then ScaleOutsIn(cfg, Final(cfg, s, before).scaledOut, x.cases, x.equity, k, unreported) else 0
  }

  /** 1 once the position has been recorded as de-risked. */
  function Mark(scaledOut: set<Key>, k: Key): nat {
    if k in scaledOut then 1 else 0
  }

  lemma {:induction false} CycleMarksScaleOuts(cfg: Config, scaledOut: set<Key>, cases: seq<Case>, equity: real, k: Key)
    ensures ScaleOutsIn(cfg, scaledOut, cases, equity, k, false) + Mark(scaledOut, k)
         == ScaleOutsIn(cfg, scaledOut, cases, equity, k, true) + Mark(DeriskedAll(cfg, scaledOut, cases, equity), k)
  {
    if cases != [] {
      CycleMarksScaleOuts(cfg, scaledOut, cases[..|cases| - 1], equity, k);
      hide UnrealizedPct, RegimeFlipped, LossBreached;
    }
  }

  lemma {:induction false} RunMarksScaleOuts(cfg: Config, s: State, run: seq<Step>, k: Key)
    requires StaysLive(run, k)
    ensures ScaleOuts(cfg, s, run, k, false) + Mark(s.scaledOut, k)
         == ScaleOuts(cfg, s, run, k, true) + Mark(Final(cfg, s, run).scaledOut, k)
  {
    if run != [] {
      var n := |run| - 1;
      RunMarksScaleOuts(cfg, s, run[..n], k);
      if run[n].Exits? {
        CycleMarksScaleOuts(cfg, Final(cfg, s, run[..n]).scaledOut, run[n].cases, run[n].equity, k);
      }
    }
  }

  /** A living position is de-risked at most once, apart from de-risks whose report threw after the close was
      accepted: each of those may be followed by another. */
  lemma AtMostOneScaleOut(cfg: Config, s: State, run: seq<Step>, k: Key)
    requires StaysLive(run, k)
    ensures ScaleOuts(cfg, s, run, k, false) <= 1 + ScaleOuts(cfg, s, run, k, true)
    ensures k in s.scaledOut && ScaleOuts(cfg, s, run, k, true) == 0 ==> ScaleOuts(cfg, s, run, k, false) == 0
  {
    RunMarksScaleOuts(cfg, s, run, k);
  }

  lemma DecideNeedsNoMark(cfg: Config, scaledOut: set<Key>, c: Case, equity: real)
    ensures Decide(cfg, scaledOut, c, equity) == ScaleOut <==>
      Decide(cfg, {}, c, equity) == ScaleOut && c.position.Key() !in scaledOut
  {
    hide UnrealizedPct, RegimeFlipped, LossBreached;
  }

  /** De-risks of the position accepted over a run and then over the first cases of the next cycle. */
  function ScaleOutsSoFar(cfg: Config, s: State, run: seq<Step>, cases: seq<Case>, equity: real, k: Key, unreported: bool): nat {
    ScaleOuts(cfg, s, run, k, unreported) + ScaleOutsIn(cfg, Final(cfg, s, run).scaledOut, cases, equity, k, unreported)
  }

  /** Exactly when a living position is de-risked again: whenever its loss calls for it, the manager submits
      another partial close if and only if every one accepted so far went unreported. */
  lemma RepeatsOnlyUnreported(cfg: Config, s: State, run: seq<Step>, cases: seq<Case>, n: nat, equity: real)
    requires n < |cases| && StaysLive(run, cases[n].position.Key()) && cases[n].position.Key() !in s.scaledOut
    requires Decide(cfg, {}, cases[n], equity) == ScaleOut
    ensures var k := cases[n].position.Key();
      Decide(cfg, DeriskedAll(cfg, Final(cfg, s, run).scaledOut, cases[..n], equity), cases[n], equity) == ScaleOut <==>
        ScaleOutsSoFar(cfg, s, run, cases[..n], equity, k, false) == ScaleOutsSoFar(cfg, s, run, cases[..n], equity, k, true)
  {
    var k := cases[n].position.Key();
    hide Decide, DeriskedAll, ScaleOuts, ScaleOutsIn, Final;
    RunMarksScaleOuts(cfg, s, run, k);
    CycleMarksScaleOuts(cfg, Final(cfg, s, run).scaledOut, cases[..n], equity, k);
    DecideNeedsNoMark(cfg, DeriskedAll(cfg, Final(cfg, s, run).scaledOut, cases[..n], equity), cases[n], equity);
  }

  const DE_RISKING := Config(false, 0.5, Some(ScalingConfig(true, 0.01, 0.5, 1, 0, 0.02)))

  const LOSING := Position("BTC", true, 1.0, 100.0, Some(1))

  /** A cycle that sees the position ten per cent of the equity under water. */
  function LosingCycle(outcome: Submission): Step {
    Exits([Case(LOSING, Some(90.0), None, outcome)], 100.0)
  }

  lemma LosingCycleIs(s: State, outcome: Submission, unreported: bool)
    requires outcome.Accepted? && s.scaledOut == {}
    ensures var cases := LosingCycle(outcome).cases;
      && ScaleOutsIn(DE_RISKING, s.scaledOut, cases, 100.0, LOSING.Key(), unreported)
      == (if unreported && outcome.reported then 0 else 1)
      && After(DE_RISKING, s, LosingCycle(outcome)).scaledOut == (if outcome.reported then {LOSING.Key()} else {})
      && LOSING.Key() in LiveKeys(cases)
  {
    var cases := LosingCycle(outcome).cases;
    assert cases[..0] == [];
    assert cases[0] in cases;
    assert UnrealizedPct(LOSING, 90.0, 100.0) == -0.1;
    assert Decide(DE_RISKING, {}, cases[0], 100.0) == ScaleOut;
    assert ScaleOutsIn(DE_RISKING, s.scaledOut, cases[..0], 100.0, LOSING.Key(), unreported) == 0;
  }

  /** Two cycles that each close half of one living position: the first close was accepted, but not reported. */
  lemma DeRiskedTwice()
    ensures var run, k := [LosingCycle(Accepted(false)), LosingCycle(Accepted(true))], LOSING.Key();
      && StaysLive(run, k)
      && ScaleOuts(DE_RISKING, State(map[], {}), run, k, false) == 2
      && ScaleOuts(DE_RISKING, State(map[], {}), run, k, true) == 1
  {
    var first, second, s := LosingCycle(Accepted(false)), LosingCycle(Accepted(true)), State(map[], {});
    var run := [first, second];
    assert run[..1] == [first] && [first][..0] == [];
    hide ScaleOutsIn, After, LiveKeys;
    var between := After(DE_RISKING, s, first);
    assert Final(DE_RISKING, s, []) == s && Final(DE_RISKING, s, [first]) == between;
    LosingCycleIs(s, Accepted(false), false);
    LosingCycleIs(s, Accepted(false), true);
    LosingCycleIs(between, Accepted(true), false);
    LosingCycleIs(between, Accepted(true), true);
    assert ScaleOuts(DE_RISKING, s, [], LOSING.Key(), false) == ScaleOuts(DE_RISKING, s, [], LOSING.Key(), true) == 0;
    assert ScaleOuts(DE_RISKING, s, [first], LOSING.Key(), false) == ScaleOuts(DE_RISKING, s, [first], LOSING.Key(), true) == 1;
  }

  // ----- the manager -----

  /** What evaluateScaleIn reports; a gate other than Submits is the reason nothing was sent. */
  datatype ScaleInDecision = ScaleInDecision(submitted: bool, gate: Gate, addQty: real, addsTaken: int)

  /** The decisions of a cycle, each taken on the de-risks recorded by the ones before it. */
  function Decisions(cfg: Config, scaledOut: set<Key>, cases: seq<Case>, equity: real): seq<Decision> {
    if cases == [] then []
    else
      var before, c := cases[..|cases| - 1], cases[|cases| - 1];
      var ds := Decisions(cfg, scaledOut, before, equity);
      if c.position.Live() then ds + [Decide(cfg, DeriskedAll(cfg, scaledOut, before, equity), c, equity)] else ds
  }

  class ExitManager {
    const config: Config
    var scaleInTracker: map<Key, Tracker>
    var scaledOutPositions: set<Key>

    constructor (config: Config)
      ensures this.config == config && View() == State(map[], {})
    {
      this.config := config;
      scaleInTracker, scaledOutPositions := map[], {};
    }

    ghost function View(): State
      reads this
    {
      State(scaleInTracker, scaledOutPositions)
    }

    /** Walks the positions, submitting closes and de-risks, then forgets the state of keys no longer live. */
    method EvaluateExits(cases: seq<Case>, equity: real) returns (decisions: seq<Decision>)
      modifies this
      ensures View() == After(config, old(View()), Exits(cases, equity))
      ensures decisions == Decisions(config, old(scaledOutPositions), cases, equity)
    {
      hide Decide;
      decisions := [];
      var live: set<Key> := {};
      for i := 0 to |cases|
        invariant live == LiveKeys(cases[..i])
        invariant scaleInTracker == old(scaleInTracker)
        invariant scaledOutPositions == DeriskedAll(config, old(scaledOutPositions), cases[..i], equity)
        invariant decisions == Decisions(config, old(scaledOutPositions), cases[..i], equity)
      {
        assert cases[..i + 1] == cases[..i] + [cases[i]] && cases[..i + 1][..i] == cases[..i];
        var c := cases[i];
        if !c.position.isOpen || c.position.qty == 0.0 {
          assert LiveKeys(cases[..i + 1]) == LiveKeys(cases[..i]);
          continue;
        }
        var decision := Decide(config, scaledOutPositions, c, equity);
        decisions := decisions + [decision];
        assert LiveKeys(cases[..i + 1]) == LiveKeys(cases[..i]) + {c.position.Key()};
        live := live + {c.position.Key()};
        if decision == ScaleOut {
          SubmitScaleOut(c.position, c.submission);
        }
      }
      assert cases[..|cases|] == cases;
      PruneTo(live);
    }

    /** The de-risk is recorded last, after its report: a report that throws leaves it unrecorded. */
    method SubmitScaleOut(p: Position, submission: Submission)
      modifies this`scaledOutPositions
      ensures scaledOutPositions
           == if submission == Accepted(true) then old(scaledOutPositions) + {p.Key()} else old(scaledOutPositions)
    {
      if submission == Threw || !submission.reported {
        return;
      }
      if submission.Accepted? {
        scaledOutPositions := scaledOutPositions + {p.Key()};
      }
    }

    method PruneTo(live: set<Key>)
      modifies this
      ensures scaleInTracker == map k | k in old(scaleInTracker) && k in live :: old(scaleInTracker)[k]
      ensures scaledOutPositions == set k | k in old(scaledOutPositions) && k in live
    {
      var keys := scaleInTracker.Keys;
      while keys != {}
        invariant scaledOutPositions == old(scaledOutPositions)
        invariant keys <= scaleInTracker.Keys <= old(scaleInTracker).Keys
        invariant forall k :: k in scaleInTracker ==> scaleInTracker[k] == old(scaleInTracker)[k]
        invariant forall k :: k in old(scaleInTracker) && k in live ==> k in scaleInTracker
        invariant forall k :: k in scaleInTracker && k !in keys ==> k in live
        decreases |keys|
      {
        var k :| k in keys;
        if k !in live {
          scaleInTracker := scaleInTracker - {k};
        }
        keys := keys - {k};
      }
      var marks := scaledOutPositions;
      while marks != {}
        invariant scaleInTracker == map k | k in old(scaleInTracker) && k in live :: old(scaleInTracker)[k]
        invariant marks <= scaledOutPositions <= old(scaledOutPositions)
        invariant forall k :: k in old(scaledOutPositions) && k in live ==> k in scaledOutPositions
        invariant forall k :: k in scaledOutPositions && k !in marks ==> k in live
        decreases |marks|
      {
        var k :| k in marks;
        if k !in live {
          scaledOutPositions := scaledOutPositions - {k};
        }
        marks := marks - {k};
      }
    }

    /** None when scaling is off. The attempt time is recorded whether the add is accepted or rejected. */
    method EvaluateScaleIn(a: Add, outcome: Submission) returns (r: Option<ScaleInDecision>)
      modifies this`scaleInTracker
      ensures View() == After(config, old(View()), ScaleIn(a, outcome))
      ensures r.None? <==> config.scaling.None? || !config.scaling.value.enabled
      ensures r.Some? ==> r.value.gate == GateOf(config.scaling.value, TrackerOf(old(scaleInTracker), a.position.Key()), a)
      ensures r.Some? ==> (r.value.submitted <==> r.value.gate.Submits? && outcome == Accepted(true))
      ensures r.Some? ==> r.value.addQty == if r.value.submitted then r.value.gate.addQty else 0.0
      ensures r.Some? ==>
        r.value.addsTaken == TrackerOf(old(scaleInTracker), a.position.Key()).adds + (if r.value.submitted then 1 else 0)
    {
      if config.scaling.None? || !config.scaling.value.enabled {
        return None;
      }
      hide Confirmed, UnrealizedPct;
      var key := a.position.Key();
      var tracker := TrackerOf(scaleInTracker, key);
      var gate := GateOf(config.scaling.value, tracker, a);
      if !gate.Submits? || outcome == Threw {
        return Some(ScaleInDecision(false, gate, 0.0, tracker.adds));
      }
      scaleInTracker := scaleInTracker[key := Tracker(if outcome.Accepted? then gate.addNumber else tracker.adds, a.now)];
      if !outcome.reported || !outcome.Accepted? {
        return Some(ScaleInDecision(false, gate, 0.0, tracker.adds));
      }
      r := Some(ScaleInDecision(true, gate, gate.addQty, gate.addNumber));
    }
  }
}
