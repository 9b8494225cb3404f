/** The event log's dual write: a table row first, a JSONL line second, across failures, crashes and restarts. */
module EventLogging {
  import opened Prelude
  import opened Sorting

  datatype Row = Row(id: string, seqNo: int, kind: string, payload: string)

  /** Where the single writer is inside append: numbered but not stored, stored but not yet in the JSONL file. */
  datatype Phase = Idle | Numbered(row: Row) | Stored(row: Row) | Down

  datatype State = State(rows: seq<Row>, lines: seq<Row>, seqNo: int, phase: Phase)

  datatype Step =
    | Begin(id: string, kind: string, payload: string)
    | Insert
    | InsertFails    // run() throws: the caller sees the error, the number stays used
    | WriteLine
    | WriteFails     // caught and logged
    | Crash
    | Restart

  predicate Enabled(s: State, x: Step) {
    match x
    case Begin(_, _, _) => s.phase.Idle?
    case Insert => s.phase.Numbered?
    case InsertFails => s.phase.Numbered?
    case WriteLine => s.phase.Stored?
    case WriteFails => s.phase.Stored?
    case Crash => !s.phase.Down?
    case Restart => s.phase.Down?
  }

  /** SELECT MAX(seq), or 0 on an empty table. */
  function MaxSeq(rows: seq<Row>): (m: int)
    ensures forall r :: r in rows ==> r.seqNo <= m
    ensures rows != [] ==> exists r :: r in rows && r.seqNo == m
  {
    if rows == [] then 0
    else
      var last := rows[|rows| - 1];
      if |rows| == 1 || MaxSeq(rows[..|rows| - 1]) < last.seqNo then last.seqNo else MaxSeq(rows[..|rows| - 1])
  }

  function After(s: State, x: Step): State
    requires Enabled(s, x)
  {
    match x
    case Begin(id, kind, payload) =>
      s.(seqNo := s.seqNo + 1, phase := Numbered(Row(id, s.seqNo + 1, kind, payload)))
    case Insert => s.(rows := s.rows + [s.phase.row], phase := Stored(s.phase.row))
    case InsertFails => s.(phase := Idle)
    case WriteLine => s.(lines := s.lines + [s.phase.row], phase := Idle)
    case WriteFails => s.(phase := Idle)
    case Crash => s.(phase := Down)
    case Restart => s.(seqNo := MaxSeq(s.rows), phase := Idle)
  }

  /** The process starts on whatever table is there, with an empty JSONL file. */
  function Opened(rows: seq<Row>): State {
    State(rows, [], MaxSeq(rows), Idle)
  }

  ghost predicate Run(s: State, steps: seq<Step>)
    decreases |steps|, 0
  {
    steps == [] || (Run(s, steps[..|steps| - 1]) && Enabled(Final(s, steps[..|steps| - 1]), steps[|steps| - 1]))
  }

  ghost function Final(s: State, steps: seq<Step>): State
    requires Run(s, steps)
    decreases |steps|, 1
  {
    if steps == [] then s else After(Final(s, steps[..|steps| - 1]), steps[|steps| - 1])
  }

  // ----- what every run keeps -----

  predicate Subsequence(a: seq<Row>, b: seq<Row>) {
    a == [] ||
    (b != [] && if a[|a| - 1] == b[|b| - 1] then Subsequence(a[..|a| - 1], b[..|b| - 1]) else Subsequence(a, b[..|b| - 1]))
  }

  lemma {:induction false} SubsequenceShorter(a: seq<Row>, b: seq<Row>)
    requires a != [] && Subsequence(a, b)
    ensures Subsequence(a[..|a| - 1], b)
    decreases |b|, 0
  {
    var a', b' := a[..|a| - 1], b[..|b| - 1];
    if a[|a| - 1] == b[|b| - 1] {
      SubsequenceSkips(a', b', b[|b| - 1]);
    } else {
      SubsequenceShorter(a, b');
      SubsequenceSkips(a', b', b[|b| - 1]);
    }
    assert b == b' + [b[|b| - 1]];
  }

  lemma {:induction false} SubsequenceSkips(a: seq<Row>, b: seq<Row>, x: Row)
    requires Subsequence(a, b)
    ensures Subsequence(a, b + [x])
    decreases |b|, 1
  {
    assert (b + [x])[..|b|] == b;
    if a != [] && a[|a| - 1] == x {
      SubsequenceShorter(a, b);
    }
  }

  lemma SubsequenceTakes(a: seq<Row>, b: seq<Row>, x: Row)
    requires Subsequence(a, b)
    ensures Subsequence(a + [x], b + [x])
  {
    assert (a + [x])[..|a|] == a && (b + [x])[..|b|] == b;
  }

  /** The rows behind the lines, as increasing positions in the table. */
  ghost predicate Picks(a: seq<Row>, b: seq<Row>, at: seq<nat>) {
    && |at| == |a|
    && (forall i :: 0 <= i < |a| ==> at[i] < |b| && a[i] == b[at[i]])
    && (forall i, j :: 0 <= i < j < |at| ==> at[i] < at[j])
  }

  lemma {:induction false} SubsequenceMeans(a: seq<Row>, b: seq<Row>) returns (at: seq<nat>)
    requires Subsequence(a, b)
    ensures Picks(a, b, at)
  {
    if a == [] {
      at := [];
    } else if a[|a| - 1] == b[|b| - 1] {
      at := SubsequenceMeans(a[..|a| - 1], b[..|b| - 1]);
      at := at + [|b| - 1];
    } else {
      at := SubsequenceMeans(a, b[..|b| - 1]);
    }
  }

  /** Every row stored since the log was opened on `base` is numbered above everything before it. */
  ghost predicate Numbering(base: seq<Row>, rows: seq<Row>) {
    base <= rows && forall i, j :: 0 <= i < j < |rows| && |base| <= j ==> rows[i].seqNo < rows[j].seqNo
  }

  /** The rows whose append is over, or at least past its file write. */
  function Settled(base: seq<Row>, s: State): seq<Row>
    requires |base| <= |s.rows| && (s.phase.Stored? ==> |base| < |s.rows|)
  {
    s.rows[|base|..if s.phase.Stored? then |s.rows| - 1 else |s.rows|]
  }

  ghost predicate Sound(base: seq<Row>, s: State) {
    && Numbering(base, s.rows)
    && (s.phase.Stored? ==> |base| < |s.rows| && s.rows[|s.rows| - 1] == s.phase.row)
    && Subsequence(s.lines, Settled(base, s))
    && (!s.phase.Down? ==> forall r :: r in s.rows ==> r.seqNo <= s.seqNo)
    && (s.phase.Numbered? ==> s.phase.row.seqNo == s.seqNo && forall r :: r in s.rows ==> r.seqNo < s.seqNo)
  }

  lemma InsertSettles(base: seq<Row>, s: State)
    requires Sound(base, s) && s.phase.Numbered?
    ensures Sound(base, After(s, Insert))
  {
    hide Subsequence;
    var r := After(s, Insert);
    assert Settled(base, r) == Settled(base, s);
  }

  lemma SettledNext(base: seq<Row>, s: State)
    requires Sound(base, s) && s.phase.Stored?
    ensures s.rows[|base|..] == Settled(base, s) + [s.phase.row]
  {
    var n := |s.rows| - 1;
    assert s.rows == s.rows[..n] + [s.phase.row];
  }

  lemma WriteSettles(base: seq<Row>, s: State, x: Step)
    requires Sound(base, s) && s.phase.Stored? && (x.WriteLine? || x.WriteFails? || x.Crash?)
    ensures Sound(base, After(s, x))
  {
    hide Subsequence;
    SettledNext(base, s);
    assert Settled(base, After(s, x)) == s.rows[|base|..];
    SubsequenceTakes(s.lines, Settled(base, s), s.phase.row);
    SubsequenceSkips(s.lines, Settled(base, s), s.phase.row);
  }

  lemma StepKeepsSound(base: seq<Row>, s: State, x: Step)
    requires Sound(base, s) && Enabled(s, x)
    ensures Sound(base, After(s, x))
  {
    if s.phase.Stored? {
      WriteSettles(base, s, x);
    } else if x.Insert? {
      InsertSettles(base, s);
    } else {
      hide Subsequence, Numbering, MaxSeq;
      assert Settled(base, After(s, x)) == Settled(base, s);
    }
  }

  lemma {:induction false} RunsAreSound(base: seq<Row>, steps: seq<Step>)
    requires Run(Opened(base), steps)
    ensures Sound(base, Final(Opened(base), steps))
  {
    if steps == [] {
      assert Settled(base, Opened(base)) == [];
    } else {
      var n := |steps| - 1;
      RunsAreSound(base, steps[..n]);
      StepKeepsSound(base, Final(Opened(base), steps[..n]), steps[n]);
    }
  }

  /** Across any interleaving of appends, failed inserts, failed line writes, crashes and restarts the table
      numbers its rows in append order, and the JSONL file lists some of those rows in that order. */
  lemma LogSurvivesCrashes(steps: seq<Step>) returns (at: seq<nat>)
    requires Run(Opened([]), steps)
    ensures var s := Final(Opened([]), steps);
      && (forall i, j :: 0 <= i < j < |s.rows| ==> s.rows[i].seqNo < s.rows[j].seqNo)
      && Picks(s.lines, s.rows, at)
  {
    RunsAreSound([], steps);
    var s := Final(Opened([]), steps);
    var settled := Settled([], s);
    if s.phase.Stored? {
      assert settled + [s.phase.row] == s.rows;
      SubsequenceSkips(s.lines, settled, s.phase.row);
    } else {
      assert settled == s.rows;
    }
    at := SubsequenceMeans(s.lines, s.rows);
  }

  /** A line goes missing only by a failed write or a crash between the two writes. */
  ghost predicate LosesLine(s: State, x: Step) {
    s.phase.Stored? && (x.WriteFails? || x.Crash?)
  }

  ghost function LinesLost(s: State, steps: seq<Step>): nat
    requires Run(s, steps)
  {
    if steps == [] then 0
    else
      var before, last := steps[..|steps| - 1], steps[|steps| - 1];
      LinesLost(s, before) + (if LosesLine(Final(s, before), last) then 1 else 0)
  }

  /** Exactly the lost lines are missing: with none lost, and no append under way, the file is the table. */
  lemma {:induction false} LostLinesAreCounted(base: seq<Row>, steps: seq<Step>)
    requires Run(Opened(base), steps)
    ensures var s := Final(Opened(base), steps);
      |s.rows| == |base| + |s.lines| + LinesLost(Opened(base), steps) + if s.phase.Stored? then 1 else 0
  {
    if steps != [] {
      LostLinesAreCounted(base, steps[..|steps| - 1]);
    }
  }

  // ----- reading back -----

  predicate NotEarlier(a: Row, b: Row) {
    a.seqNo >= b.seqNo
  }

  function Reversed(s: seq<Row>): seq<Row> {
    if s == [] then [] else [s[|s| - 1]] + Reversed(s[..|s| - 1])
  }

  lemma {:induction false} InsertNewest(s: seq<Row>, x: Row)
    requires forall r :: r in s ==> r.seqNo < x.seqNo
    ensures InsertBy(NotEarlier, s, x) == [x] + s
  {
    if s != [] {
      var n := |s| - 1;
      InsertNewest(s[..n], x);
      assert s == s[..n] + [s[n]];
    }
  }

  lemma {:induction false} ReversedMembers(s: seq<Row>)
    ensures forall r :: r in Reversed(s) <==> r in s
  {
    if s != [] {
      ReversedMembers(s[..|s| - 1]);
    }
  }

  /** ORDER BY seq DESC reads the table newest append first: the numbers never tie or run backwards. */
  lemma {:induction false} NewestFirst(rows: seq<Row>)
    requires forall i, j :: 0 <= i < j < |rows| ==> rows[i].seqNo < rows[j].seqNo
    ensures SortBy(NotEarlier, rows) == Reversed(rows)
  {
    if rows != [] {
      var n := |rows| - 1;
      NewestFirst(rows[..n]);
      ReversedMembers(rows[..n]);
      InsertNewest(Reversed(rows[..n]), rows[n]);
    }
  }

  // ----- the log object -----

  /** The durable side: the events table and the JSONL file. */
  class Disk {
    var rows: seq<Row>
    var lines: seq<Row>

    constructor ()
      ensures rows == [] && lines == []
    {
      rows, lines := [], [];
    }
  }

  class EventLog {
    const disk: Disk
    var seqNo: int

    ghost function View(): State
      reads this, disk
    {
      State(disk.rows, disk.lines, seqNo, Idle)
    }

    /** Opening the log recovers the high-water mark from the table. */
    constructor (disk: Disk)
      ensures this.disk == disk
      ensures View() == After(State(disk.rows, disk.lines, 0, Down), Restart)
    {
      this.disk := disk;
      seqNo := MaxSeq(disk.rows);
    }

    /** append: insertOk and lineOk say whether the table insert and the file write succeed. */
    method Append(id: string, kind: string, payload: string, insertOk: bool, lineOk: bool) returns (threw: bool)
      modifies this, disk
      ensures threw <==> !insertOk
      ensures var begun := After(old(View()), Begin(id, kind, payload));
        View() ==
          if !insertOk then After(begun, InsertFails)
          else After(After(begun, Insert), if lineOk then WriteLine else WriteFails)
    {
      seqNo := seqNo + 1;
      var row := Row(id, seqNo, kind, payload);
      if !insertOk {
        return true;
      }
      disk.rows := disk.rows + [row];
      if lineOk {
        disk.lines := disk.lines + [row];
      }
      threw := false;
    }
  }
}
