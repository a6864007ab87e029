/**
 * The summary part of evaluate_westgard (qc_core.py): one row per run and one
 * row per (run, level) point, each with a status and the "; "-joined sorted
 * rejection messages followed by the sorted warning messages.
 */
module Report {
  import opened Wrappers
  import opened SigmaRules
  import opened Westgard
  import opened Strings
  import opened Messages
  import opened Engine

  /** The three outcomes of a run or of a point. */
  datatype Status = Pass | Warning | Reject

  /** The text the status column holds. */
  function StatusText(s: Status): string
  {
    match s
    case Pass => "Đạt"
    case Warning => "Cảnh báo (1_2s)"
    case Reject => "Không đạt (Reject QC)"
  }

  /** Any rejection message makes a reject; otherwise any warning makes a warning. */
  function StatusOf(rejs: set<string>, warns: set<string>): Status
  {
    if rejs != {} then Reject else if warns != {} then Warning else Pass
  }

  /** The messages of a set of hits of run i (the set of strings the source's containers hold). */
  function MessagesOf(Z: Matrix, width: nat, labels: seq<string>, i: nat, hs: set<Hit>): set<string>
    requires IsMatrix(Z, width) && i < |Z| && |labels| == |Z|
  {
    set h | h in hs && WellFormed(Z, width, i, h) :: Message(Z, width, labels, i, h)
  }

  /** "; ".join(sorted(rejs) + sorted(warns)) */
  ghost function Display(rejs: set<string>, warns: set<string>): string
  {
    Join(SortedOf(rejs) + SortedOf(warns), "; ")
  }

  /** A row of the run summary: run label, status, violations and an empty operator column. */
  datatype RunRow = RunRow(run: string, status: Status, violations: string, operator: string)

  /** A row of the point summary: run label, "Ctrl N", status and rule messages. */
  datatype PointRow = PointRow(run: string, control: string, status: Status, ruleCodes: string)

  ghost function RunRowOf(run: string, rejs: set<string>, warns: set<string>): RunRow
  {
    RunRow(run, StatusOf(rejs, warns), Display(rejs, warns), "")
  }

  ghost function PointRowOf(run: string, l: nat, rejs: set<string>, warns: set<string>): PointRow
  {
    PointRow(run, Ctrl(l), StatusOf(rejs, warns), Display(rejs, warns))
  }

  /** The status and the display text of one run or point. */
  method Summary(rejs: set<string>, warns: set<string>) returns (status: Status, text: string)
    ensures status == StatusOf(rejs, warns) && text == Display(rejs, warns)
  {
    var sortedWarns := Sort(warns);
    var sortedRejs := Sort(rejs);
    if rejs != {} {
      status := Reject;
    } else if warns != {} {
      status := Warning;
    } else {
      status := Pass;
    }
    text := Join(sortedRejs + sortedWarns, "; ");
  }

  /** Where the rows of run i start in the run-major list of point rows: i * width (see RowStartProduct). */
  function RowStart(i: nat, width: nat): nat
  {
    if i == 0 then 0 else RowStart(i - 1, width) + width
  }

  /** Position of point (i, l) in the run-major list of point rows. */
  function Flat(i: nat, l: nat, width: nat): nat
  {
    RowStart(i, width) + l
  }

  /** The rows of run i start after i runs of `width` rows each. */
  lemma {:induction false} RowStartProduct(i: nat, width: nat)
    ensures RowStart(i, width) == i * width
  {
    if i > 0 {
      RowStartProduct(i - 1, width);
      assert i * width == (i - 1) * width + width;
    }
  }

  /** The rejection and warning messages of run i. */
  function RunRejects(Z: Matrix, width: nat, labels: seq<string>, active: set<RuleCode>, i: nat): set<string>
    requires IsMatrix(Z, width) && i < |Z| && |labels| == |Z|
  {
    MessagesOf(Z, width, labels, i, RejHits(Z, width, active, i))
  }

  function RunWarnings(Z: Matrix, width: nat, labels: seq<string>, i: nat): set<string>
    requires IsMatrix(Z, width) && i < |Z| && |labels| == |Z|
  {
    MessagesOf(Z, width, labels, i, WarnHits(Z, width, i))
  }

  /** The rejection and warning messages of point (i, l): those of the run's hits naming level l. */
  function PointRejects(Z: Matrix, width: nat, labels: seq<string>, active: set<RuleCode>, i: nat, l: nat): set<string>
    requires IsMatrix(Z, width) && i < |Z| && |labels| == |Z|
  {
    MessagesOf(Z, width, labels, i, Implicating(RejHits(Z, width, active, i), l))
  }

  function PointWarnings(Z: Matrix, width: nat, labels: seq<string>, i: nat, l: nat): set<string>
    requires IsMatrix(Z, width) && i < |Z| && |labels| == |Z|
  {
    MessagesOf(Z, width, labels, i, Implicating(WarnHits(Z, width, i), l))
  }

  /** The summary row of run i. */
  ghost function RunRowAt(Z: Matrix, width: nat, labels: seq<string>, active: set<RuleCode>, i: nat): RunRow
    requires IsMatrix(Z, width) && i < |Z| && |labels| == |Z|
  {
    RunRowOf(labels[i], RunRejects(Z, width, labels, active, i), RunWarnings(Z, width, labels, i))
  }

  /** The summary row of point (i, l). */
  ghost function PointRowAt(Z: Matrix, width: nat, labels: seq<string>, active: set<RuleCode>, i: nat, l: nat): PointRow
    requires IsMatrix(Z, width) && i < |Z| && |labels| == |Z|
  {
    PointRowOf(labels[i], l, PointRejects(Z, width, labels, active, i, l), PointWarnings(Z, width, labels, i, l))
  }

  /** The messages of every run's container. */
  function RunMessages(Z: Matrix, width: nat, labels: seq<string>, hs: seq<set<Hit>>): seq<set<string>>
    requires IsMatrix(Z, width) && |labels| == |Z| && |hs| == |Z|
  {
    seq(|Z|, i requires 0 <= i < |Z| => MessagesOf(Z, width, labels, i, hs[i]))
  }

  /** The messages of every point's container. */
  function PointMessages(Z: Matrix, width: nat, labels: seq<string>, hs: seq<seq<set<Hit>>>): seq<seq<set<string>>>
    requires IsMatrix(Z, width) && |labels| == |Z| && |hs| == |Z|
    requires forall i :: 0 <= i < |Z| ==> |hs[i]| == width
  {
    seq(|Z|, i requires 0 <= i < |Z| => seq(width, l requires 0 <= l < width => MessagesOf(Z, width, labels, i, hs[i][l])))
  }

  /** The run loop of the summary: status and messages of every run. */
  method RunSummaries(labels: seq<string>, rejs: seq<set<string>>, warns: seq<set<string>>) returns (rows: seq<RunRow>)
    requires |rejs| == |labels| && |warns| == |labels|
    ensures |rows| == |labels|
    ensures forall i :: 0 <= i < |labels| ==> rows[i] == RunRowOf(labels[i], rejs[i], warns[i])
  {
    rows := [];
    var i := 0;
    while i < |labels|
      invariant 0 <= i <= |labels| && |rows| == i
      invariant forall r :: 0 <= r < i ==> rows[r] == RunRowOf(labels[r], rejs[r], warns[r])
    {
      var status, text := Summary(rejs[i], warns[i]);
      var row := RunRow(labels[i], status, text, "");
      assert row == RunRowOf(labels[i], rejs[i], warns[i]);
      rows := rows + [row];
      i := i + 1;
    }
  }

  /** The level loop of the point summary: the rows of the points of one run. */
  method LevelRows(run: string, width: nat, rejs: seq<set<string>>, warns: seq<set<string>>)
    returns (rows: seq<PointRow>)
    requires |rejs| == width && |warns| == width
    ensures |rows| == width
    ensures forall l :: 0 <= l < width ==> rows[l] == PointRowOf(run, l, rejs[l], warns[l])
  {
    rows := [];
    var l := 0;
    while l < width
      invariant 0 <= l <= width && |rows| == l
      invariant forall m :: 0 <= m < l ==> rows[m] == PointRowOf(run, m, rejs[m], warns[m])
    {
      var status, text := Summary(rejs[l], warns[l]);
      var row := PointRow(run, Ctrl(l), status, text);
      assert row == PointRowOf(run, l, rejs[l], warns[l]);
      rows := rows + [row];
      l := l + 1;
    }
  }

  /** The point loop of the summary: status and messages of every (run, level), run by run. */
  method PointSummaries(labels: seq<string>, width: nat, rejs: seq<seq<set<string>>>, warns: seq<seq<set<string>>>)
    returns (rows: seq<PointRow>)
    requires |rejs| == |labels| && |warns| == |labels|
    requires forall i :: 0 <= i < |labels| ==> |rejs[i]| == width && |warns[i]| == width
    ensures |rows| == RowStart(|labels|, width)
    ensures forall i, l :: 0 <= i < |labels| && 0 <= l < width ==>
      Flat(i, l, width) < |rows| && rows[Flat(i, l, width)] == PointRowOf(labels[i], l, rejs[i][l], warns[i][l])
  {
    rows := [];
    var i := 0;
    while i < |labels|
      invariant 0 <= i <= |labels| && |rows| == RowStart(i, width)
      invariant forall r, m :: 0 <= r < i && 0 <= m < width ==>
        Flat(r, m, width) < |rows| && rows[Flat(r, m, width)] == PointRowOf(labels[r], m, rejs[r][m], warns[r][m])
    {
      var block := LevelRows(labels[i], width, rejs[i], warns[i]);
      ghost var before := rows;
      rows := rows + block;
      forall r, m | 0 <= r <= i && 0 <= m < width
        ensures Flat(r, m, width) < |rows| && rows[Flat(r, m, width)] == PointRowOf(labels[r], m, rejs[r][m], warns[r][m])
      {
        if r < i {
          assert rows[Flat(r, m, width)] == before[Flat(r, m, width)];
        } else {
          assert rows[Flat(r, m, width)] == block[m];
        }
      }
      i := i + 1;
    }
  }

  /**
   * The summary step of evaluate_westgard: from the scanned containers of every
   * run and point to the run rows and the run-major point rows.
   */
  method Summarise(Z: Matrix, width: nat, labels: seq<string>, active: set<RuleCode>,
                   rejByRun: seq<set<Hit>>, warnByRun: seq<set<Hit>>,
                   rejPoint: seq<seq<set<Hit>>>, warnPoint: seq<seq<set<Hit>>>)
    returns (runRows: seq<RunRow>, pointRows: seq<PointRow>)
    requires IsMatrix(Z, width) && |labels| == |Z|
    requires |rejByRun| == |Z| && |warnByRun| == |Z| && |rejPoint| == |Z| && |warnPoint| == |Z|
    requires forall i :: 0 <= i < |Z| ==>
      rejByRun[i] == RejHits(Z, width, active, i) && warnByRun[i] == WarnHits(Z, width, i)
    requires forall i :: 0 <= i < |Z| ==> |rejPoint[i]| == width && |warnPoint[i]| == width
    requires forall i, l :: 0 <= i < |Z| && 0 <= l < width ==>
      rejPoint[i][l] == Implicating(rejByRun[i], l) && warnPoint[i][l] == Implicating(warnByRun[i], l)
    ensures |runRows| == |Z| && |pointRows| == RowStart(|Z|, width)
    ensures forall i :: 0 <= i < |Z| ==> runRows[i] == RunRowAt(Z, width, labels, active, i)
    ensures forall i, l :: 0 <= i < |Z| && 0 <= l < width ==>
      Flat(i, l, width) < |pointRows| && pointRows[Flat(i, l, width)] == PointRowAt(Z, width, labels, active, i, l)
  {
    runRows := RunSummaries(labels, RunMessages(Z, width, labels, rejByRun), RunMessages(Z, width, labels, warnByRun));
    pointRows := PointSummaries(labels, width, PointMessages(Z, width, labels, rejPoint),
                                PointMessages(Z, width, labels, warnPoint));
  }

  /**
   * evaluate_westgard: resolves the sigma category and the active rules,
   * scans the matrix and summarises it per run and per point.
   */
  method EvaluateWestgard(Z: Matrix, width: nat, labels: seq<string>, numLevels: int, sigma: Option<real>)
    returns (cat: Category, active: set<RuleCode>, runRows: seq<RunRow>, pointRows: seq<PointRow>)
    requires IsMatrix(Z, width) && |labels| == |Z|
    ensures (cat, active) == Resolve(sigma, numLevels)
    ensures |runRows| == |Z| && |pointRows| == |Z| * width
    ensures forall i :: 0 <= i < |Z| ==> runRows[i] == RunRowAt(Z, width, labels, active, i)
    ensures forall i, l :: 0 <= i < |Z| && 0 <= l < width ==>
      Flat(i, l, width) < |pointRows| && pointRows[Flat(i, l, width)] == PointRowAt(Z, width, labels, active, i, l)
  {
    var resolved := Resolve(sigma, numLevels);
    cat, active := resolved.0, resolved.1;
    var rejByRun, warnByRun, rejPoint, warnPoint := ScanMatrix(Z, width, active);
    runRows, pointRows := Summarise(Z, width, labels, active, rejByRun, warnByRun, rejPoint, warnPoint);
    RowStartProduct(|Z|, width);
  }
}
