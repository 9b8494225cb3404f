/** Comparing what the venue holds with what this process believes, and when orders may flow. */
module Reconciliation {
  import opened Prelude

  datatype Holding = Holding(symbol: string, qty: real)

  ghost predicate NoRepeats(s: seq<string>) {
    forall i, j :: 0 <= i < j < |s| ==> s[i] != s[j]
  }

  /** Map<string, number> filled in insertion order. */
  datatype Index = Index(order: seq<string>, qty: map<string, real>) {
    function At(symbol: string): real {
      if symbol in qty then qty[symbol] else 0.0
    }

    ghost predicate Valid() {
      && (forall s :: s in order <==> s in qty)
      && NoRepeats(order)
    }
  }

  function Add(x: Index, p: Holding): Index {
    if p.qty == 0.0 then x
    else Index(if p.symbol in x.qty then x.order else x.order + [p.symbol], x.qty[p.symbol := x.At(p.symbol) + p.qty])
  }

  function IndexBySymbol(ps: seq<Holding>): Index {
    if ps == [] then Index([], map[]) else Add(IndexBySymbol(ps[..|ps| - 1]), ps[|ps| - 1])
  }

  /** The whole position in one symbol: hedged legs net out. */
  function NetQty(ps: seq<Holding>, symbol: string): real {
    SumOf((p: Holding) => if p.symbol == symbol then p.qty else 0.0, ps)
  }

  predicate Holds(ps: seq<Holding>, symbol: string) {
    exists p :: p in ps && p.symbol == symbol && p.qty != 0.0
  }

  lemma {:induction false} IndexIsNet(ps: seq<Holding>, symbol: string)
    ensures IndexBySymbol(ps).Valid()
    ensures IndexBySymbol(ps).At(symbol) == NetQty(ps, symbol)
    ensures symbol in IndexBySymbol(ps).qty <==> Holds(ps, symbol)
  {
    if ps != [] {
      var n := |ps| - 1;
      IndexIsNet(ps[..n], symbol);
      assert forall p :: p in ps <==> p in ps[..n] || p == ps[n];
    }
  }

  datatype Kind = MissingLocally | MissingAtVenue | QuantityMismatch

  datatype Discrepancy = Discrepancy(symbol: string, localQty: real, venueQty: real, difference: real, kind: Kind)

  function Compare(symbol: string, v: real, l: real): Discrepancy {
    Discrepancy(symbol, l, v, v - l,
                if l == 0.0 then MissingLocally else if v == 0.0 then MissingAtVenue else QuantityMismatch)
  }

  /** new Set([...venue.keys(), ...local.keys()]) */
  function Symbols(v: Index, l: Index): seq<string> {
    v.order + Without(l.order, v.order)
  }

  function Without(s: seq<string>, seen: seq<string>): seq<string> {
    if s == [] then []
    else
      var rest := Without(s[..|s| - 1], seen);
      if s[|s| - 1] in seen then rest else rest + [s[|s| - 1]]
  }

  lemma {:induction false} WithoutIs(s: seq<string>, seen: seq<string>)
    requires NoRepeats(s)
    ensures NoRepeats(Without(s, seen)) && forall x :: x in Without(s, seen) <==> x in s && x !in seen
  {
    if s != [] {
      var n := |s| - 1;
      WithoutIs(s[..n], seen);
      assert s[n] !in s[..n];
    }
  }

  lemma SymbolsAreAll(v: Index, l: Index)
    requires v.Valid() && l.Valid()
    ensures NoRepeats(Symbols(v, l)) && forall x :: x in Symbols(v, l) <==> x in v.qty || x in l.qty
  {
    var more := Without(l.order, v.order);
    WithoutIs(l.order, v.order);
    JoinNoRepeats(v.order, more);
  }

  lemma JoinNoRepeats(a: seq<string>, b: seq<string>)
    requires NoRepeats(a) && NoRepeats(b) && forall x :: x in b ==> x !in a
    ensures NoRepeats(a + b)
  {
    forall i, j | 0 <= i < j < |a + b| ensures (a + b)[i] != (a + b)[j] {
      if i < |a| <= j {
        assert b[j - |a|] in b && a[i] in a;
      }
    }
  }

  function Differences(symbols: seq<string>, v: Index, l: Index, tolerance: real): seq<Discrepancy> {
    if symbols == [] then []
    else
      var s := symbols[|symbols| - 1];
      var rest := Differences(symbols[..|symbols| - 1], v, l, tolerance);
      if Abs(v.At(s) - l.At(s)) <= tolerance then rest else rest + [Compare(s, v.At(s), l.At(s))]
  }

  function Mismatches(venue: seq<Holding>, local: seq<Holding>, tolerance: real): seq<Discrepancy> {
    var v, l := IndexBySymbol(venue), IndexBySymbol(local);
    Differences(Symbols(v, l), v, l, tolerance)
  }

  lemma {:induction false} DifferencesAre(symbols: seq<string>, v: Index, l: Index, tolerance: real)
    requires NoRepeats(symbols)
    ensures var ds := Differences(symbols, v, l, tolerance);
      && (forall d :: d in ds <==>
            d.symbol in symbols && d == Compare(d.symbol, v.At(d.symbol), l.At(d.symbol))
            && Abs(v.At(d.symbol) - l.At(d.symbol)) > tolerance)
      && (forall i, j :: 0 <= i < j < |ds| ==> ds[i].symbol != ds[j].symbol)
  {
    if symbols != [] {
      DifferencesAre(symbols[..|symbols| - 1], v, l, tolerance);
    }
  }

  /** One discrepancy for each symbol held on either side whose net quantities differ by more than the
      tolerance, carrying both quantities, and none for any other symbol. */
  lemma MismatchesAreExact(venue: seq<Holding>, local: seq<Holding>, tolerance: real, d: Discrepancy)
    ensures d in Mismatches(venue, local, tolerance) <==>
      && (Holds(venue, d.symbol) || Holds(local, d.symbol))
      && Abs(NetQty(venue, d.symbol) - NetQty(local, d.symbol)) > tolerance
      && d == Compare(d.symbol, NetQty(venue, d.symbol), NetQty(local, d.symbol))
    ensures var ds := Mismatches(venue, local, tolerance);
      forall i, j :: 0 <= i < j < |ds| ==> ds[i].symbol != ds[j].symbol
  {
    hide IndexBySymbol, NetQty, Holds, Compare;
    var v, l := IndexBySymbol(venue), IndexBySymbol(local);
    IndexIsNet(venue, d.symbol);
    IndexIsNet(local, d.symbol);
    SymbolsAreAll(v, l);
    DifferencesAre(Symbols(v, l), v, l, tolerance);
  }

  ghost predicate Agrees(venue: seq<Holding>, local: seq<Holding>, tolerance: real) {
    forall s: string :: Abs(NetQty(venue, s) - NetQty(local, s)) <= tolerance
  }

  /** The comparison is clean exactly when both sides agree on every symbol there is. */
  lemma CleanIsAgreement(venue: seq<Holding>, local: seq<Holding>, tolerance: real)
    requires tolerance >= 0.0
    ensures Mismatches(venue, local, tolerance) == [] <==> Agrees(venue, local, tolerance)
  {
    var ds := Mismatches(venue, local, tolerance);
    if ds == [] {
      forall s: string ensures Abs(NetQty(venue, s) - NetQty(local, s)) <= tolerance {
        MismatchesAreExact(venue, local, tolerance, Compare(s, NetQty(venue, s), NetQty(local, s)));
        IndexIsNet(venue, s);
        IndexIsNet(local, s);
      }
    } else {
      MismatchesAreExact(venue, local, tolerance, ds[0]);
      assert ds[0] in ds;
    }
  }
}

/** The guard, the reconciler and the router as one protocol over a run. */
module SafeMode {
  import opened Prelude
  import opened Reconciliation

  datatype Mode = Paper | Shadow | Live

  datatype Venue = PaperVenue | CoinDcx

  datatype Profile = Profile(mode: Mode, executionVenue: Venue, liveArmed: bool, realOrders: bool)

  /** What reading both sides produced; a read that throws leaves the exchange state unknown. */
  datatype Reading = Unreadable(message: string) | Read(venue: seq<Holding>, local: seq<Holding>)

  datatype Refusal = SafeModeActive | LiveDisarmed | RealOrdersDisabled | NoLiveAdapter

  datatype Report = Report(ok: bool, discrepancies: seq<Discrepancy>, localCount: nat, venueCount: nat,
                           error: Option<string>, safeModeTripped: bool)

  function ReportOn(r: Reading, tolerance: real): Report {
    match r
    case Unreadable(m) => Report(false, [], 0, 0, Some(m), true)
    case Read(venue, local) =>
      var ds := Mismatches(venue, local, tolerance);
      Report(ds == [], ds, |IndexBySymbol(local).qty|, |IndexBySymbol(venue).qty|, None, ds != [])
  }

  predicate WantsRealOrders(p: Profile) {
    p.executionVenue == CoinDcx && p.liveArmed && p.realOrders
  }

  /** canExecute: why an order is refused, if it is. */
  function Refused(safeMode: bool, p: Profile): Option<Refusal> {
    if safeMode then Some(SafeModeActive)
    else if p.mode == Live && !p.liveArmed then Some(LiveDisarmed)
    else if p.mode == Live && !p.realOrders then Some(RealOrdersDisabled)
    else None
  }

  function RouterRefusal(safeMode: bool, p: Profile, hasLive: bool): Option<Refusal> {
    if WantsRealOrders(p) && !hasLive then Some(NoLiveAdapter) else Refused(safeMode, p)
  }

  // ----- runs -----

  datatype Step = Submit(command: string) | Reconcile(reading: Reading) | ReconcileAndResume(reading: Reading)

  datatype Setup = Setup(profile: Profile, hasLive: bool, tolerance: real)

  /** Safe mode, and every order each broker has been handed. */
  datatype State = State(safeMode: bool, toPaper: seq<string>, toLive: seq<string>)

  function After(u: Setup, s: State, x: Step): State {
    match x
    case Submit(c) =>
      if RouterRefusal(s.safeMode, u.profile, u.hasLive).Some? then s
      else if WantsRealOrders(u.profile) && u.hasLive then s.(toLive := s.toLive + [c])
      else s.(toPaper := s.toPaper + [c])
    case Reconcile(r) => if ReportOn(r, u.tolerance).ok then s else s.(safeMode := true)
    case ReconcileAndResume(r) => s.(safeMode := !ReportOn(r, u.tolerance).ok)
  }

  function Final(u: Setup, steps: seq<Step>): State {
    if steps == [] then State(false, [], []) else After(u, Final(u, steps[..|steps| - 1]), steps[|steps| - 1])
  }

  /** A reconciliation that failed or found a mismatch. */
  predicate Trips(u: Setup, x: Step) {
    !x.Submit? && !ReportOn(x.reading, u.tolerance).ok
  }

  predicate Clears(u: Setup, x: Step) {
    x.ReconcileAndResume? && ReportOn(x.reading, u.tolerance).ok
  }

  /** Some reconciliation tripped, and nothing since has cleared it. */
  ghost predicate Blocked(u: Setup, steps: seq<Step>) {
    exists i :: 0 <= i < |steps| && Trips(u, steps[i]) && forall k :: i < k < |steps| ==> !Clears(u, steps[k])
  }

  lemma BlockedStep(u: Setup, steps: seq<Step>, x: Step)
    ensures Blocked(u, steps + [x]) <==> Trips(u, x) || (Blocked(u, steps) && !Clears(u, x))
  {
    var all := steps + [x];
    assert all[|steps|] == x && forall i :: 0 <= i < |steps| ==> all[i] == steps[i];
    if Trips(u, x) {
      assert Trips(u, all[|steps|]);
    } else if Blocked(u, steps) && !Clears(u, x) {
      var i :| 0 <= i < |steps| && Trips(u, steps[i]) && forall k :: i < k < |steps| ==> !Clears(u, steps[k]);
      assert Trips(u, all[i]);
    }
  }

  lemma SafeModeStep(u: Setup, s: State, x: Step)
    ensures After(u, s, x).safeMode <==> Trips(u, x) || (s.safeMode && !Clears(u, x))
  {
    hide ReportOn, RouterRefusal;
  }

  /** Safe mode is on exactly while some tripped reconciliation has not been cleared since. */
  lemma {:induction false} SafeModeMeans(u: Setup, steps: seq<Step>)
    ensures Final(u, steps).safeMode <==> Blocked(u, steps)
  {
    if steps != [] {
      hide Blocked, After, Trips, Clears;
      var n := |steps| - 1;
      SafeModeMeans(u, steps[..n]);
      SafeModeStep(u, Final(u, steps[..n]), steps[n]);
      BlockedStep(u, steps[..n], steps[n]);
      assert steps[..n] + [steps[n]] == steps;
    }
  }

  /** After a mismatched or failed reconciliation no broker is handed an order until a reconcileAndResume
      reads both sides and finds them in agreement on every symbol. */
  lemma {:induction false} NothingFlowsWhileUnreconciled(u: Setup, steps: seq<Step>, i: nat, j: nat)
    requires u.tolerance >= 0.0 && i < j <= |steps| && Trips(u, steps[i])
    requires forall k :: i < k < j && steps[k].ReconcileAndResume? ==>
      steps[k].reading.Unreadable? || !Agrees(steps[k].reading.venue, steps[k].reading.local, u.tolerance)
    ensures Final(u, steps[..j]).safeMode
    ensures Final(u, steps[..j]).toPaper == Final(u, steps[..i]).toPaper
    ensures Final(u, steps[..j]).toLive == Final(u, steps[..i]).toLive
  {
    assert steps[..j][..j - 1] == steps[..j - 1];
    if j > i + 1 {
      NothingFlowsWhileUnreconciled(u, steps, i, j - 1);
      var x := steps[j - 1];
      if x.ReconcileAndResume? && x.reading.Read? {
        CleanIsAgreement(x.reading.venue, x.reading.local, u.tolerance);
      }
    }
  }

  /** Orders reach the live venue only under an armed real-order profile that has an adapter; the paper broker
      only under one that does not ask for real orders. A profile that asks for real orders without an adapter
      never has an order forwarded at all. */
  lemma {:induction false} OrdersGoWhereTheProfileSays(u: Setup, steps: seq<Step>)
    ensures var asked := u.profile.executionVenue == CoinDcx && u.profile.liveArmed && u.profile.realOrders;
      && (Final(u, steps).toLive != [] ==> asked && u.hasLive)
      && (Final(u, steps).toPaper != [] ==> !asked)
      && (asked && !u.hasLive ==> Final(u, steps).toPaper == Final(u, steps).toLive == [])
  {
    if steps != [] {
      OrdersGoWhereTheProfileSays(u, steps[..|steps| - 1]);
    }
  }

  /** When exactly an order reaches the live venue: not in safe mode, armed, real orders enabled, routed to the live venue,
      and with an adapter for it, whatever the mode is called. */
  lemma LiveVenueReached(u: Setup, s: State, command: string)
    ensures After(u, s, Submit(command)).toLive != s.toLive <==>
      !s.safeMode && u.profile.executionVenue == CoinDcx && u.profile.liveArmed && u.profile.realOrders && u.hasLive
    ensures After(u, s, Submit(command)).toLive in {s.toLive, s.toLive + [command]}
  {
    assert |s.toLive + [command]| == |s.toLive| + 1;
  }

  /** When exactly an order under a live-mode profile is simulated: armed, real orders enabled, not in safe mode,
      and routed to the paper venue. */
  lemma LiveModeSimulates(u: Setup, s: State, command: string)
    requires u.profile.mode == Live
    ensures After(u, s, Submit(command)).toPaper != s.toPaper <==>
      !s.safeMode && u.profile.liveArmed && u.profile.realOrders && u.profile.executionVenue == PaperVenue
  {
    assert |s.toPaper + [command]| == |s.toPaper| + 1;
  }

  // ----- the objects -----

  /** A broker, as far as routing is concerned: the orders it has been handed. */
  class Broker {
    var submitted: seq<string>

    constructor ()
      ensures submitted == []
    {
      submitted := [];
    }

    method SubmitOrder(command: string)
      modifies this
      ensures submitted == old(submitted) + [command]
    {
      submitted := submitted + [command];
    }
  }

  class LiveTradingGuard {
    var safeMode: bool
    var safeModeReason: Option<string>

    constructor ()
      ensures !safeMode && safeModeReason == None
    {
      safeMode, safeModeReason := false, None;
    }

    method TriggerSafeMode(reason: string)
      modifies this
      ensures safeMode && safeModeReason == Some(reason)
    {
      safeMode, safeModeReason := true, Some(reason);
    }

    method ClearSafeMode()
      modifies this
      ensures !safeMode && safeModeReason == None
    {
      safeMode, safeModeReason := false, None;
    }

    method CanExecute(p: Profile) returns (refusal: Option<Refusal>)
      ensures refusal == Refused(safeMode, p)
    {
      if safeMode {
        return Some(SafeModeActive);
      }
      if p.mode == Live {
        if !p.liveArmed {
          return Some(LiveDisarmed);
        }
        if !p.realOrders {
          return Some(RealOrdersDisabled);
        }
      }
      refusal := None;
    }
  }

  class ExecutionRouter {
    const profile: Profile
    const paperBroker: Broker
    const liveBroker: Broker?
    const guard: LiveTradingGuard

    constructor (profile: Profile, paperBroker: Broker, liveBroker: Broker?, guard: LiveTradingGuard)
      ensures this.profile == profile && this.paperBroker == paperBroker
      ensures this.liveBroker == liveBroker && this.guard == guard
    {
      this.profile, this.paperBroker, this.liveBroker, this.guard := profile, paperBroker, liveBroker, guard;
    }

    ghost function View(): State
      reads guard, paperBroker, liveBroker
    {
      State(guard.safeMode, paperBroker.submitted, if liveBroker == null then [] else liveBroker.submitted)
    }

    function GetActiveBroker(): Broker {
      if WantsRealOrders(profile) && liveBroker != null then liveBroker else paperBroker
    }

    /** The refusal of a rejected order, or None when it was handed to the active broker. One object may serve
        as both brokers: it is then handed the order once. */
    method SubmitOrder(command: string, ghost tolerance: real) returns (rejected: Option<Refusal>)
      modifies GetActiveBroker()
      ensures rejected == RouterRefusal(guard.safeMode, profile, liveBroker != null)
      ensures GetActiveBroker().submitted
           == old(GetActiveBroker().submitted) + if rejected.None? then [command] else []
      ensures liveBroker != paperBroker ==>
        View() == After(Setup(profile, liveBroker != null, tolerance), old(View()), Submit(command))
    {
      if WantsRealOrders(profile) && liveBroker == null {
        return Some(NoLiveAdapter);
      }
      rejected := guard.CanExecute(profile);
      if rejected.Some? {
        return;
      }
      GetActiveBroker().SubmitOrder(command);
    }
  }

  class ExchangeReconciler {
    const guard: LiveTradingGuard
    const quantityTolerance: real
    var lastReport: Option<Report>

    constructor (guard: LiveTradingGuard, quantityTolerance: Option<real>)
      ensures this.guard == guard && lastReport == None
      ensures this.quantityTolerance == if quantityTolerance.Some? then quantityTolerance.value else 0.0
    {
      this.guard := guard;
      this.quantityTolerance := if quantityTolerance.Some? then quantityTolerance.value else 0.0;
      lastReport := None;
    }

    static method IndexPositions(ps: seq<Holding>) returns (x: Index)
      ensures x == IndexBySymbol(ps)
    {
      x := Index([], map[]);
      for i := 0 to |ps|
        invariant x == IndexBySymbol(ps[..i])
      {
        assert ps[..i + 1][..i] == ps[..i];
        var p := ps[i];
        if p.qty == 0.0 {
          continue;
        }
        var total := x.At(p.symbol) + p.qty;
        x := Index(if p.symbol in x.qty then x.order else x.order + [p.symbol], x.qty[p.symbol := total]);
      }
      assert ps[..|ps|] == ps;
    }

    method ComparePositions(venue: Index, local: Index) returns (found: seq<Discrepancy>)
      ensures found == Differences(Symbols(venue, local), venue, local, quantityTolerance)
    {
      found := [];
      var symbols := Symbols(venue, local);
      for i := 0 to |symbols|
        invariant found == Differences(symbols[..i], venue, local, quantityTolerance)
      {
        assert symbols[..i + 1][..i] == symbols[..i];
        var venueQty, localQty := venue.At(symbols[i]), local.At(symbols[i]);
        var difference := venueQty - localQty;
        if Abs(difference) <= quantityTolerance {
          continue;
        }
        var kind :=
          if localQty == 0.0 then MissingLocally else if venueQty == 0.0 then MissingAtVenue else QuantityMismatch;
        found := found + [Discrepancy(symbols[i], localQty, venueQty, difference, kind)];
      }
      assert symbols[..|symbols|] == symbols;
    }

    method Reconcile(reading: Reading) returns (report: Report)
      modifies this`lastReport, guard
      ensures report == ReportOn(reading, quantityTolerance) && lastReport == Some(report)
      ensures guard.safeMode == (old(guard.safeMode) || !report.ok)
    {
      if reading.Unreadable? {
        guard.TriggerSafeMode("RECONCILIATION_FAILED");
        report := Report(false, [], 0, 0, Some(reading.message), true);
        lastReport := Some(report);
        return;
      }
      var venue := IndexPositions(reading.venue);
      var local := IndexPositions(reading.local);
      var found := ComparePositions(venue, local);
      var ok := |found| == 0;
      var tripped := false;
      if !ok {
        guard.TriggerSafeMode("RECONCILIATION_MISMATCH");
        tripped := true;
      }
      report := Report(ok, found, |local.qty|, |venue.qty|, None, tripped);
      lastReport := Some(report);
    }

    method ReconcileAndResume(reading: Reading) returns (report: Report)
      modifies this`lastReport, guard
      ensures report == ReportOn(reading, quantityTolerance) && lastReport == Some(report)
      ensures guard.safeMode == !report.ok
    {
      report := Reconcile(reading);
      if report.ok {
        guard.ClearSafeMode();
      }
    }
  }
}
