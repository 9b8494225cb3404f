/** How long a scaling budget lives: the key the exit manager derives from the broker's positions. */
module ScalingKeys {
  import opened Prelude
  import opened BrokerTypes
  import opened PositionMath
  import opened BrokerSpec
  import opened BrokerInvariants
  import BrokerRuns
  import BrokerTheorems
  import Scaling

  /** What the exit manager sees of a broker position. */
  function ViewOf(p: Position): Scaling.Position {
    Scaling.Position(p.symbol, p.isOpen, p.qty, p.entryPrice, p.openedAt)
  }

  function KeyOf(p: Position): Scaling.Key {
    ViewOf(p).Key()
  }

  predicate Timed(p: Position) {
    p.qty != 0.0 ==> p.isOpen && p.openedAt.Some?
  }

  /** One fill on a position, and when it happened. */
  datatype Execution = Execution(side: Side, quantity: real, price: real, leverage: Decimal.Positive, at: int)

  function Filled(p: Position, e: Execution, ins: Instrument): Position {
    FillPosition(p, e.side, e.quantity, e.price, e.leverage, ins, e.at)
  }

  function FilledAll(p: Position, es: seq<Execution>, ins: Instrument): Position {
    if es == [] then p else Filled(FilledAll(p, es[..|es| - 1], ins), es[|es| - 1], ins)
  }

  /** A fill changes the key exactly when it opens from flat at a new time: never by reducing, increasing,
      closing or flipping. */
  lemma KeyChangesIff(p: Position, e: Execution, ins: Instrument)
    requires Timed(p)
    ensures KeyOf(Filled(p, e, ins)) != KeyOf(p) <==> p.qty == 0.0 && p.openedAt != Some(e.at)
    ensures Timed(Filled(p, e, ins))
  {
    hide NewQty, AveragedEntry, RealizedBy;
  }

  /** The position was flat before some fill of the sequence, which then opened it anew. */
  ghost predicate Reopened(p: Position, es: seq<Execution>, ins: Instrument) {
    exists n :: 0 <= n < |es| && FilledAll(p, es[..n], ins).qty == 0.0
  }

  lemma ReopenedNext(p: Position, es: seq<Execution>, ins: Instrument)
    requires es != []
    ensures var before := es[..|es| - 1];
      Reopened(p, es, ins) <==> Reopened(p, before, ins) || FilledAll(p, before, ins).qty == 0.0
  {
    hide FilledAll;
    var m := |es| - 1;
    assert forall n :: 0 <= n <= m ==> es[..m][..n] == es[..n];
    if Reopened(p, es[..m], ins) {
      var n :| 0 <= n < m && FilledAll(p, es[..m][..n], ins).qty == 0.0;
      assert FilledAll(p, es[..n], ins).qty == 0.0;
    }
  }

  lemma {:induction false} OpenTimeOf(p: Position, es: seq<Execution>, ins: Instrument)
    requires p.qty != 0.0 && p.isOpen && p.openedAt.Some?
    requires forall e :: e in es ==> e.at > p.openedAt.value
    ensures var r := FilledAll(p, es, ins);
      && Timed(r) && r.symbol == p.symbol && r.openedAt.Some?
      && if Reopened(p, es, ins) then r.openedAt.value > p.openedAt.value else r.openedAt == p.openedAt
  {
    if es != [] {
      var n := |es| - 1;
      OpenTimeOf(p, es[..n], ins);
      ReopenedNext(p, es, ins);
      hide Reopened, NewQty, AveragedEntry, RealizedBy;
    }
  }

  /** Over any sequence of later fills, flips included, an open position keeps its key if and only if it was
      never flat in between. */
  lemma OnlyReopeningChangesKey(p: Position, es: seq<Execution>, ins: Instrument)
    requires p.qty != 0.0 && p.isOpen && p.openedAt.Some?
    requires forall e :: e in es ==> e.at > p.openedAt.value
    ensures KeyOf(FilledAll(p, es, ins)) == KeyOf(p) <==> !Reopened(p, es, ins)
  {
    hide Reopened, FilledAll;
    OpenTimeOf(p, es, ins);
  }

  // ----- what the manager remembers -----

  /** The cycle after the fills sees the position among its open ones. */
  predicate Seen(cases: seq<Scaling.Case>, p: Position) {
    exists c :: c in cases && c.position == ViewOf(p)
  }

  /** A flipped position is the same one to the exit manager: its add budget, cooldown and de-risk carry over to
      the position on the other side. */
  lemma FlipKeepsBudget(cfg: Scaling.Config, s: Scaling.State, p: Position, e: Execution, ins: Instrument,
                        cases: seq<Scaling.Case>, equity: real)
    requires Timed(p) && p.qty != 0.0 && KindOf(p.qty, NewQty(p.qty, e.side, e.quantity, ins)) == FLIP
    requires Seen(cases, Filled(p, e, ins))
    ensures var q, r := Filled(p, e, ins), Scaling.After(cfg, s, Scaling.Exits(cases, equity));
      && Scaling.TrackerOf(r.tracker, KeyOf(q)) == Scaling.TrackerOf(s.tracker, KeyOf(p))
      && (KeyOf(p) in s.scaledOut ==> KeyOf(q) in r.scaledOut)
  {
    hide NewQty;
    KeyChangesIff(p, e, ins);
    BudgetFollowsKey(cfg, s, KeyOf(p), Filled(p, e, ins), cases, equity);
  }

  lemma BudgetFollowsKey(cfg: Scaling.Config, s: Scaling.State, k: Scaling.Key, q: Position, cases: seq<Scaling.Case>, equity: real)
    requires q.isOpen && q.qty != 0.0 && KeyOf(q) == k && Seen(cases, q)
    ensures var r := Scaling.After(cfg, s, Scaling.Exits(cases, equity));
      && Scaling.TrackerOf(r.tracker, k) == Scaling.TrackerOf(s.tracker, k)
      && (k in s.scaledOut ==> k in r.scaledOut)
  {
    var c :| c in cases && c.position == ViewOf(q);
    assert k in Scaling.LiveKeys(cases);
    hide Scaling.DeriskedAll;
    DerisksAccumulate(cfg, s.scaledOut, cases, equity);
  }

  lemma {:induction false} DerisksAccumulate(cfg: Scaling.Config, scaledOut: set<Scaling.Key>, cases: seq<Scaling.Case>, equity: real)
    ensures scaledOut <= Scaling.DeriskedAll(cfg, scaledOut, cases, equity)
  {
    hide Scaling.Decide;
    if cases != [] {
      DerisksAccumulate(cfg, scaledOut, cases[..|cases| - 1], equity);
    }
  }

  // ----- the manager beside one position -----

  /** One thing that happens to a position or to the manager watching it. */
  datatype Moment = Trade(e: Execution) | Manage(x: Scaling.Step)

  function PositionAfter(p: Position, h: seq<Moment>, ins: Instrument): Position {
    if h == [] then p
    else
      var before := PositionAfter(p, h[..|h| - 1], ins);
      if h[|h| - 1].Trade? then Filled(before, h[|h| - 1].e, ins) else before
  }

  /** A manager that started with nothing tracked. */
  function ManagerAfter(cfg: Scaling.Config, h: seq<Moment>): Scaling.State {
    if h == [] then Scaling.State(map[], {})
    else
      var before := ManagerAfter(cfg, h[..|h| - 1]);
      if h[|h| - 1].Manage? then Scaling.After(cfg, before, h[|h| - 1].x) else before
  }

  /** An add on this symbol is sized from the position as it then is. */
  predicate AddsSee(x: Scaling.Step, p: Position) {
    x.ScaleIn? && x.add.position.symbol == p.symbol ==> x.add.position == ViewOf(p)
  }

  ghost predicate Truthful(p: Position, h: seq<Moment>, ins: Instrument) {
    forall i :: 0 <= i < |h| && h[i].Manage? ==> AddsSee(h[i].x, PositionAfter(p, h[..i], ins))
  }

  /** Trades come in time order, none before the position was opened. */
  ghost predicate InTime(p: Position, h: seq<Moment>) {
    && (forall i, j :: 0 <= i < j < |h| && h[i].Trade? && h[j].Trade? ==> h[i].e.at <= h[j].e.at)
    && (forall i :: 0 <= i < |h| && h[i].Trade? && p.openedAt.Some? ==> p.openedAt.value <= h[i].e.at)
  }

  /** An open position says since when, and not since later than t. */
  predicate OpenedBy(p: Position, t: int) {
    Timed(p) && (p.openedAt.Some? ==> p.openedAt.value <= t)
  }

  lemma {:induction false} OpenTimeIsPast(p: Position, h: seq<Moment>, ins: Instrument, t: int)
    requires OpenedBy(p, t) && forall i :: 0 <= i < |h| && h[i].Trade? ==> h[i].e.at <= t
    ensures OpenedBy(PositionAfter(p, h, ins), t) && PositionAfter(p, h, ins).symbol == p.symbol
  {
    if h != [] {
      hide NewQty, AveragedEntry, RealizedBy;
      OpenTimeIsPast(p, h[..|h| - 1], ins, t);
    }
  }

  /** Whatever is tracked for the symbol belongs to this lifecycle of its position or to an earlier one. */
  ghost predicate NothingLater(tracker: map<Scaling.Key, Scaling.Tracker>, p: Position) {
    forall at :: Scaling.Opened(p.symbol, at) in tracker ==> p.openedAt.Some? && at <= p.openedAt.value
  }

  lemma ManagingAddsNothingLater(cfg: Scaling.Config, s: Scaling.State, x: Scaling.Step, p: Position)
    requires NothingLater(s.tracker, p) && AddsSee(x, p)
    ensures NothingLater(Scaling.After(cfg, s, x).tracker, p)
  {
    hide Scaling.GateOf, Scaling.DeriskedAll;
  }

  lemma TradingKeepsNothingLater(tracker: map<Scaling.Key, Scaling.Tracker>, p: Position, e: Execution, ins: Instrument)
    requires NothingLater(tracker, p) && (p.openedAt.Some? ==> p.openedAt.value <= e.at)
    ensures NothingLater(tracker, Filled(p, e, ins))
  {
    hide NewQty, AveragedEntry, RealizedBy;
  }

  /** The manager never tracks a lifecycle that has not begun. */
  lemma {:induction false} NothingTrackedEarly(cfg: Scaling.Config, p: Position, h: seq<Moment>, ins: Instrument)
    requires Timed(p) && InTime(p, h) && Truthful(p, h, ins)
    ensures NothingLater(ManagerAfter(cfg, h).tracker, PositionAfter(p, h, ins))
  {
    if h != [] {
      var n := |h| - 1;
      assert forall i :: 0 <= i < n ==> h[..n][..i] == h[..i];
      NothingTrackedEarly(cfg, p, h[..n], ins);
      if h[n].Trade? {
        hide Filled, NothingLater;
        OpenTimeIsPast(p, h[..n], ins, h[n].e.at);
        TradingKeepsNothingLater(ManagerAfter(cfg, h[..n]).tracker, PositionAfter(p, h[..n], ins), h[n].e, ins);
      } else {
        hide NothingLater, AddsSee, Scaling.After;
        assert AddsSee(h[n].x, PositionAfter(p, h[..n], ins));
        ManagingAddsNothingLater(cfg, ManagerAfter(cfg, h[..n]), h[n].x, PositionAfter(p, h[..n], ins));
      }
    }
  }

  /** After any history of fills, cycles and adds that leaves the position open, and any fills after that: the next
      cycle finds the add count of before unless the position was closed and opened anew, and then starts from none. */
  lemma BudgetSurvivesIffNotReopened(cfg: Scaling.Config, start: Position, h: seq<Moment>, es: seq<Execution>,
                                     ins: Instrument, cases: seq<Scaling.Case>, equity: real)
    requires Timed(start) && InTime(start, h) && Truthful(start, h, ins)
    requires var p := PositionAfter(start, h, ins);
      && p.qty != 0.0 && FilledAll(p, es, ins).qty != 0.0 && Seen(cases, FilledAll(p, es, ins))
      && forall e :: e in es ==> p.openedAt.Some? ==> e.at > p.openedAt.value
    ensures var p, s := PositionAfter(start, h, ins), ManagerAfter(cfg, h);
      var q, r := FilledAll(p, es, ins), Scaling.After(cfg, s, Scaling.Exits(cases, equity));
      Scaling.TrackerOf(r.tracker, KeyOf(q))
        == if Reopened(p, es, ins) then Scaling.Tracker(0, 0) else Scaling.TrackerOf(s.tracker, KeyOf(p))
  {
    var p := PositionAfter(start, h, ins);
    hide FilledAll, Reopened, Scaling.DeriskedAll, PositionAfter, ManagerAfter, InTime, Truthful;
    StaysTimed(start, h, ins);
    NothingTrackedEarly(cfg, start, h, ins);
    OpenTimeOf(p, es, ins);
    BudgetFollowsKey(cfg, ManagerAfter(cfg, h), KeyOf(FilledAll(p, es, ins)), FilledAll(p, es, ins), cases, equity);
  }

  lemma {:induction false} StaysTimed(p: Position, h: seq<Moment>, ins: Instrument)
    requires Timed(p)
    ensures Timed(PositionAfter(p, h, ins))
  {
    if h != [] {
      hide Filled, Timed;
      StaysTimed(p, h[..|h| - 1], ins);
      if h[|h| - 1].Trade? {
        KeyChangesIff(PositionAfter(p, h[..|h| - 1], ins), h[|h| - 1].e, ins);
      }
    }
  }

  // ----- the broker's positions -----

  /** Every open position a run can reach carries its open time. */
  lemma OpenPositionsAreTimed(cfg: Config, utcDay: int, evs: seq<Event>, k: nat)
    requires Feasible(cfg, utcDay, evs) && k < |After(cfg, utcDay, evs).positions|
    ensures Timed(After(cfg, utcDay, evs).positions[k])
  {
    hide After, Feasible, OrdersOk, IdsOk, KnownSymbols, OrderRowsOk, PositionRowsOk, LogOk, LedgerOk, BracketsOk, OrdersOnGrid;
    BrokerRuns.RunsAreGood(cfg, utcDay, evs);
    assert PositionOk(cfg, After(cfg, utcDay, evs).positions[k]);
  }

  /** A restart brings every open position back under the same key. */
  lemma RestartKeepsKeys(cfg: Config, utcDay: int, evs: seq<Event>, load: Load, env: Env, s: Symbol)
    requires Feasible(cfg, utcDay, evs) && IsLoad(After(cfg, utcDay, evs).db, load)
    requires QtyOf(After(cfg, utcDay, evs).positions, s) != 0.0
    ensures var st, r := After(cfg, utcDay, evs), Step(cfg, After(cfg, utcDay, evs), Restart(load, env));
      var k, j := FindPosition(st.positions, s), FindPosition(r.positions, s);
      k < |st.positions| && j < |r.positions| && KeyOf(r.positions[j]) == KeyOf(st.positions[k])
  {
    hide After, Feasible, Step, IsLoad;
    BrokerTheorems.RestartRefinesPositions(cfg, utcDay, evs, load, env, s);
    OpenPositionsAreTimed(cfg, utcDay, evs, FindPosition(After(cfg, utcDay, evs).positions, s));
  }
}
