/**
 * The Westgard multirule checks of qc_core.py (evaluate_westgard), stated as
 * pure functions of the z-score matrix: for every check and every run, the set
 * of hits the check attaches to that run. A hit names the check and the
 * control levels (0-based columns) it implicates; the run is the index of the
 * set it belongs to, which is always the LAST run of the check's window.
 */
module Westgard {
  import opened Wrappers
  import opened SigmaRules

  /** One z-score; `None` is NaN (no measurement, or no usable mean/SD). */
  type Cell = Option<real>

  /** Rows are runs in temporal order, columns are control levels. */
  type Matrix = seq<seq<Cell>>

  /** Every run has one cell per level: the rectangular shape of the numpy array. */
  predicate IsMatrix(Z: Matrix, width: nat)
  {
    forall i :: 0 <= i < |Z| ==> |Z[i]| == width
  }

  function Abs(x: real): real { if x < 0.0 then -x else x }

  /** np.sign: 0 for exactly zero, so zero is on neither side. */
  function Sign(x: real): int
  {
    if x > 0.0 then 1 else if x < 0.0 then -1 else 0
  }

  /** `np.sign(z) or 1`: a zero counts as positive (used only by the within-run 2_2s check). */
  function SignOrOne(x: real): int
  {
    if Sign(x) == 0 then 1 else Sign(x)
  }

  /** Between 2 SD inclusive and 3 SD exclusive: the 1_2s and 2_2s band. */
  predicate InBand(x: real)
  {
    2.0 <= Abs(x) < 3.0
  }

  /** The fifteen detection patterns of the engine. */
  datatype Check =
    | OneTwoS                 // 1_2s, single point, warning only
    | OneThreeS               // 1_3s, single point
    | TwoTwoSWithinRun        // 2_2s, >= 2 levels of one run
    | TwoTwoSAcrossRuns       // 2_2s, one level, 2 consecutive runs
    | TwoOfThreeAcrossRuns    // 2of3_2s, one level, 3 consecutive runs
    | TwoOfThreeWithinRun     // 2of3_2s, >= 2 levels of one run
    | RangeFourS              // R_4s, levels of one run
    | ThreeOneSAcrossRuns     // 3_1s, one level, 3 consecutive runs
    | ThreeOneSWithinRun      // 3_1s, >= 3 levels of one run
    | FourOneSAcrossRuns      // 4_1s, one level, 4 consecutive runs
    | FourOneSBlock           // 4_1s, 2 runs x 2 levels
    | NineXAcrossRuns         // 9x, one level, 9 consecutive runs
    | NineXBlock              // 9x, 3 runs x 3 levels
    | TenXAcrossRuns          // 10x, one level, 10 consecutive runs
    | TenXBlock               // 10x, 5 runs x 2 levels

  /** The rule whose membership in the active set switches a check on. */
  function RuleOf(c: Check): RuleCode
  {
    match c
    case OneTwoS => Rule12s
    case OneThreeS => Rule13s
    case TwoTwoSWithinRun | TwoTwoSAcrossRuns => Rule22s
    case TwoOfThreeAcrossRuns | TwoOfThreeWithinRun => Rule2of3s
    case RangeFourS => RuleR4s
    case ThreeOneSAcrossRuns | ThreeOneSWithinRun => Rule31s
    case FourOneSAcrossRuns | FourOneSBlock => Rule41s
    case NineXAcrossRuns | NineXBlock => Rule9x
    case TenXAcrossRuns | TenXBlock => Rule10x
  }

  /** The checks that look at one level at a time, with the number of runs in their window. */
  predicate PerLevel(c: Check)
  {
    c.OneTwoS? || c.OneThreeS? || c.TwoTwoSAcrossRuns? || c.TwoOfThreeAcrossRuns? || c.ThreeOneSAcrossRuns?
    || c.FourOneSAcrossRuns? || c.NineXAcrossRuns? || c.TenXAcrossRuns?
  }

  function Span(c: Check): nat
  {
    match c
    case TwoTwoSAcrossRuns => 2
    case TwoOfThreeAcrossRuns | ThreeOneSAcrossRuns | NineXBlock => 3
    case FourOneSAcrossRuns => 4
    case NineXAcrossRuns => 9
    case TenXAcrossRuns => 10
    case FourOneSBlock => 2
    case TenXBlock => 5
    case _ => 1
  }

  /** The checks over a block of consecutive runs by every level. */
  predicate IsBlock(c: Check)
  {
    c.FourOneSBlock? || c.NineXBlock? || c.TenXBlock?
  }

  /** How far out every cell of a block must be: 1 SD for 4_1s, no distance (the sign alone) for 9x and 10x. */
  function Bound(c: Check): real
  {
    if c.FourOneSBlock? then 1.0 else 0.0
  }

  /** The levels a block hit names: every level of its two- or three-level matrix. */
  function BlockLevels(c: Check): seq<nat>
  {
    if c.NineXBlock? then [0, 1, 2] else [0, 1]
  }

  /** The level count a block check is guarded by. */
  function BlockWidth(c: Check): nat
  {
    if c.NineXBlock? then 3 else 2
  }

  /** The multi-run windows whose every cell must be present: all but 2of3_2s. */
  predicate AllPresentWindow(c: Check)
  {
    c.TwoTwoSAcrossRuns? || c.ThreeOneSAcrossRuns? || c.FourOneSAcrossRuns? || c.NineXAcrossRuns?
    || c.TenXAcrossRuns?
  }

  /** A detected violation: which check and which levels it implicates. */
  datatype Hit = Hit(check: Check, levels: seq<nat>)

  // -----------------------------------------------------------------------
  // Windows

  /** Runs i-k+1 .. i of level l are all present. */
  predicate ColumnPresent(Z: Matrix, width: nat, l: nat, i: nat, k: nat)
    requires IsMatrix(Z, width) && l < width && i < |Z| && k <= i + 1
  {
    forall j :: i - k < j <= i ==> Z[j][l].Some?
  }

  /**
   * Runs i-k+1 .. i of level l are all present, at least `bound` SDs out and of
   * sign `s`. A bound of 0 asks for the sign alone (the 9x and 10x checks).
   */
  predicate ColumnOnSide(Z: Matrix, width: nat, l: nat, i: nat, k: nat, s: int, bound: real)
    requires IsMatrix(Z, width) && l < width && i < |Z| && k <= i + 1
  {
    forall j :: i - k < j <= i ==> Z[j][l].Some? && Abs(Z[j][l].value) >= bound && Sign(Z[j][l].value) == s
  }

  /** The window of k runs ending at run i skips on a missing cell, then fires when all cells share a side. */
  predicate ColumnFires(Z: Matrix, width: nat, l: nat, i: nat, k: nat, bound: real)
    requires IsMatrix(Z, width) && l < width && i < |Z|
  {
    k <= i + 1 && ColumnPresent(Z, width, l, i, k)
    && (ColumnOnSide(Z, width, l, i, k, 1, bound) || ColumnOnSide(Z, width, l, i, k, -1, bound))
  }

  /** Every level of runs i-k+1 .. i is present. */
  predicate BlockPresent(Z: Matrix, width: nat, i: nat, k: nat)
    requires IsMatrix(Z, width) && i < |Z| && k <= i + 1
  {
    forall j, l :: i - k < j <= i && 0 <= l < width ==> Z[j][l].Some?
  }

  predicate BlockOnSide(Z: Matrix, width: nat, i: nat, k: nat, s: int, bound: real)
    requires IsMatrix(Z, width) && i < |Z| && k <= i + 1
  {
    forall j, l :: i - k < j <= i && 0 <= l < width ==>
      Z[j][l].Some? && Abs(Z[j][l].value) >= bound && Sign(Z[j][l].value) == s
  }

  /** The k-run by all-level block ending at run i: skipped on a missing cell, fires when all cells share a side. */
  predicate BlockFires(Z: Matrix, width: nat, i: nat, k: nat, bound: real)
    requires IsMatrix(Z, width) && i < |Z|
  {
    k <= i + 1 && BlockPresent(Z, width, i, k)
    && (BlockOnSide(Z, width, i, k, 1, bound) || BlockOnSide(Z, width, i, k, -1, bound))
  }

  /** 1 when the cell is present, at least 2 SD out and of sign s (a 2of3_2s vote). */
  function Vote(c: Cell, s: int): nat
  {
    if c.Some? && Abs(c.value) >= 2.0 && Sign(c.value) == s then 1 else 0
  }

  function Votes(Z: Matrix, width: nat, l: nat, i: nat, s: int): nat
    requires IsMatrix(Z, width) && l < width && 2 <= i < |Z|
  {
    Vote(Z[i - 2][l], s) + Vote(Z[i - 1][l], s) + Vote(Z[i][l], s)
  }

  /** Whether a per-level check fires for level l with a window ending at run i. */
  predicate FiresAt(Z: Matrix, width: nat, c: Check, i: nat, l: nat)
    requires IsMatrix(Z, width) && i < |Z| && l < width
  {
    match c
    case OneTwoS => Z[i][l].Some? && InBand(Z[i][l].value)
    case OneThreeS => Z[i][l].Some? && Abs(Z[i][l].value) >= 3.0
    case TwoTwoSAcrossRuns =>
      i >= 1 && Z[i - 1][l].Some? && Z[i][l].Some?
      && InBand(Z[i - 1][l].value) && InBand(Z[i][l].value)
      && Sign(Z[i - 1][l].value) == Sign(Z[i][l].value)
    case TwoOfThreeAcrossRuns =>
      i >= 2 && !(Z[i - 2][l].None? && Z[i - 1][l].None? && Z[i][l].None?)
      && (Votes(Z, width, l, i, 1) >= 2 || Votes(Z, width, l, i, -1) >= 2)
    case ThreeOneSAcrossRuns => ColumnFires(Z, width, l, i, 3, 1.0)
    case FourOneSAcrossRuns => ColumnFires(Z, width, l, i, 4, 1.0)
    case NineXAcrossRuns => ColumnFires(Z, width, l, i, 9, 0.0)
    case TenXAcrossRuns => ColumnFires(Z, width, l, i, 10, 0.0)
    case _ => false
  }

  /** The hits of a per-level check at run i over the levels below L. */
  function LevelHits(Z: Matrix, width: nat, c: Check, i: nat, L: nat): (hs: set<Hit>)
    requires IsMatrix(Z, width) && i < |Z| && L <= width
  {
    set l: nat | l < L && FiresAt(Z, width, c, i, l) :: Hit(c, [l])
  }

  lemma LevelHitsNone(Z: Matrix, width: nat, c: Check, i: nat)
    requires IsMatrix(Z, width) && i < |Z|
    ensures LevelHits(Z, width, c, i, 0) == {}
  {
  }

  /** Adding level l to the scanned levels adds l's hit, if the check fires there. */
  lemma LevelHitsStep(Z: Matrix, width: nat, c: Check, i: nat, l: nat)
    requires IsMatrix(Z, width) && i < |Z| && l < width
    ensures LevelHits(Z, width, c, i, l + 1)
         == LevelHits(Z, width, c, i, l) + (if FiresAt(Z, width, c, i, l) then {Hit(c, [l])} else {})
  {
  }

  /** A per-level check only fires once its whole window fits above run i. */
  lemma FiresAtNeedsWindow(Z: Matrix, width: nat, c: Check, i: nat, l: nat)
    requires IsMatrix(Z, width) && i < |Z| && l < width
    ensures FiresAt(Z, width, c, i, l) ==> i + 1 >= Span(c)
  {
  }

  // -----------------------------------------------------------------------
  // Within-run level lists

  /** The levels of a row whose cell is present and satisfies P, in increasing order. */
  function LevelsWhere(row: seq<Cell>, P: real -> bool): (ls: seq<nat>)
    ensures |ls| <= |row|
    ensures forall k :: 0 <= k < |ls| ==> ls[k] < |row| && row[ls[k]].Some? && P(row[ls[k]].value)
    ensures forall l :: 0 <= l < |row| && row[l].Some? && P(row[l].value) ==> l in ls
    ensures forall a, b :: 0 <= a < b < |ls| ==> ls[a] < ls[b]
  {
    if row == [] then []
    else
      var ls := LevelsWhere(row[..|row| - 1], P);
      var last := |row| - 1;
      if row[last].Some? && P(row[last].value) then ls + [last] else ls
  }

  predicate BandOnSide(s: int, v: real) { InBand(v) && SignOrOne(v) == s }
  predicate TwoOnSide(s: int, v: real) { Abs(v) >= 2.0 && Sign(v) == s }
  predicate OneOnSide(s: int, v: real) { Abs(v) >= 1.0 && Sign(v) == s }

  /** The 2_2s levels of a run on side s. */
  function BandLevels(row: seq<Cell>, s: int): seq<nat> { LevelsWhere(row, v => BandOnSide(s, v)) }

  /** The levels of a run at least 2 SD out on side s. */
  function TwoSDLevels(row: seq<Cell>, s: int): seq<nat> { LevelsWhere(row, v => TwoOnSide(s, v)) }

  /** The levels of a run at least 1 SD out on side s. */
  function OneSDLevels(row: seq<Cell>, s: int): seq<nat> { LevelsWhere(row, v => OneOnSide(s, v)) }

  /** A hit on the levels of the first side (+ before -) that has at least `need` of them. */
  function FirstSide(c: Check, plus: seq<nat>, minus: seq<nat>, need: nat): set<Hit>
  {
    if |plus| >= need then {Hit(c, plus)}
    else if |minus| >= need then {Hit(c, minus)}
    else {}
  }

  /** The present z-scores of a run, in level order. */
  function PresentValues(row: seq<Cell>): (vs: seq<real>)
    ensures forall v :: v in vs <==> exists l :: 0 <= l < |row| && row[l] == Some(v)
  {
    if row == [] then []
    else
      var vs := PresentValues(row[..|row| - 1]);
      if row[|row| - 1].Some? then vs + [row[|row| - 1].value] else vs
  }

  function Max(vs: seq<real>): (m: real)
    requires vs != []
    ensures m in vs && forall v :: v in vs ==> v <= m
  {
    if |vs| == 1 then vs[0]
    else var m := Max(vs[1..]); assert vs == [vs[0]] + vs[1..]; if vs[0] > m then vs[0] else m
  }

  function Min(vs: seq<real>): (m: real)
    requires vs != []
    ensures m in vs && forall v :: v in vs ==> m <= v
  {
    if |vs| == 1 then vs[0]
    else var m := Min(vs[1..]); assert vs == [vs[0]] + vs[1..]; if vs[0] < m then vs[0] else m
  }

  predicate Extreme(hi: real, lo: real, v: real) { v == hi || v == lo }

  /** Scanning one more cell of a row extends the level list by that cell's level when it qualifies. */
  lemma LevelsWhereSnoc(row: seq<Cell>, P: real -> bool, l: nat)
    requires l < |row|
    ensures LevelsWhere(row[..l + 1], P)
         == LevelsWhere(row[..l], P) + (if row[l].Some? && P(row[l].value) then [l] else [])
  {
    assert row[..l + 1][..l] == row[..l];
  }

  /** The levels of a run holding its largest or its smallest z-score. */
  function ExtremeLevels(row: seq<Cell>, hi: real, lo: real): seq<nat> { LevelsWhere(row, v => Extreme(hi, lo, v)) }

  /** R_4s for one run: over its present levels, max - min >= 4 with max >= 2 and min <= -2. */
  function RangeHits(row: seq<Cell>): set<Hit>
  {
    var vs := PresentValues(row);
    if |vs| < 2 then {}
    else
      var hi, lo := Max(vs), Min(vs);
      if hi - lo >= 4.0 && hi >= 2.0 && lo <= -2.0 then {Hit(RangeFourS, ExtremeLevels(row, hi, lo))}
      else {}
  }

  predicate RowPresent(row: seq<Cell>)
  {
    forall l :: 0 <= l < |row| ==> row[l].Some?
  }

  /** The hits check c attaches to run i (before the active-rule and level-count gates). */
  function CheckHits(Z: Matrix, width: nat, c: Check, i: nat): set<Hit>
    requires IsMatrix(Z, width) && i < |Z|
  {
    match c
    case TwoTwoSWithinRun =>
      (if |BandLevels(Z[i], 1)| >= 2 then {Hit(c, BandLevels(Z[i], 1))} else {})
      + (if |BandLevels(Z[i], -1)| >= 2 then {Hit(c, BandLevels(Z[i], -1))} else {})
    case TwoOfThreeWithinRun => FirstSide(c, TwoSDLevels(Z[i], 1), TwoSDLevels(Z[i], -1), 2)
    case RangeFourS => RangeHits(Z[i])
    case ThreeOneSWithinRun =>
      if RowPresent(Z[i]) then FirstSide(c, OneSDLevels(Z[i], 1), OneSDLevels(Z[i], -1), 3) else {}
    case FourOneSBlock | NineXBlock | TenXBlock =>
      if BlockFires(Z, width, i, Span(c), Bound(c)) then {Hit(c, BlockLevels(c))} else {}
    case _ => LevelHits(Z, width, c, i, width)
  }

  /** The guard of a check's block in the source: its rule is active, and the level count fits. */
  predicate Gate(c: Check, active: set<RuleCode>, width: nat)
  {
    RuleOf(c) in active &&
    match c
    case ThreeOneSWithinRun => width >= 3
    case FourOneSBlock | NineXBlock | TenXBlock => width == BlockWidth(c)
    case TenXAcrossRuns => width == 2
    case _ => true
  }

  function Gated(Z: Matrix, width: nat, active: set<RuleCode>, c: Check, i: nat): set<Hit>
    requires IsMatrix(Z, width) && i < |Z|
  {
    if Gate(c, active, width) then CheckHits(Z, width, c, i) else {}
  }

  /** The rejection checks in the order the source runs them: every check but 1_2s. */
  function RejChecks(): (cs: seq<Check>)
    ensures forall c :: c in cs <==> !c.OneTwoS?
  {
    [OneThreeS, TwoTwoSWithinRun, TwoTwoSAcrossRuns, TwoOfThreeAcrossRuns, TwoOfThreeWithinRun, RangeFourS,
     ThreeOneSAcrossRuns, ThreeOneSWithinRun, FourOneSAcrossRuns, FourOneSBlock, NineXAcrossRuns, NineXBlock,
     TenXAcrossRuns, TenXBlock]
  }

  /** The hits of run i from the first n rejection checks, each behind its gate. */
  function GatedPrefix(Z: Matrix, width: nat, active: set<RuleCode>, n: nat, i: nat): set<Hit>
    requires IsMatrix(Z, width) && i < |Z| && n <= |RejChecks()|
  {
    if n == 0 then {} else GatedPrefix(Z, width, active, n - 1, i) + Gated(Z, width, active, RejChecks()[n - 1], i)
  }

  /** A hit is among the first n checks' hits exactly when one of those checks passes its gate and yields it. */
  lemma {:induction false} GatedPrefixMembers(Z: Matrix, width: nat, active: set<RuleCode>, n: nat, i: nat, h: Hit)
    requires IsMatrix(Z, width) && i < |Z| && n <= |RejChecks()|
    ensures h in GatedPrefix(Z, width, active, n, i)
        <==> exists k :: 0 <= k < n && Gate(RejChecks()[k], active, width) && h in CheckHits(Z, width, RejChecks()[k], i)
  {
    if n > 0 {
      GatedPrefixMembers(Z, width, active, n - 1, i, h);
      var cs := RejChecks();
      if h in GatedPrefix(Z, width, active, n, i) && h !in GatedPrefix(Z, width, active, n - 1, i) {
        assert Gate(cs[n - 1], active, width) && h in CheckHits(Z, width, cs[n - 1], i);
      }
      if exists k :: 0 <= k < n && Gate(cs[k], active, width) && h in CheckHits(Z, width, cs[k], i) {
        var k :| 0 <= k < n && Gate(cs[k], active, width) && h in CheckHits(Z, width, cs[k], i);
        if k == n - 1 {
          assert h in Gated(Z, width, active, cs[k], i);
        }
      }
    }
  }

  /** The rejection hits of run i: every check but 1_2s, each behind its gate. */
  function RejHits(Z: Matrix, width: nat, active: set<RuleCode>, i: nat): set<Hit>
    requires IsMatrix(Z, width) && i < |Z|
  {
    GatedPrefix(Z, width, active, |RejChecks()|, i)
  }

  /** The warning hits of run i: 1_2s, which runs whatever the active rules are. */
  function WarnHits(Z: Matrix, width: nat, i: nat): set<Hit>
    requires IsMatrix(Z, width) && i < |Z|
  {
    CheckHits(Z, width, OneTwoS, i)
  }

  /**
   * What every hit attached to run i satisfies: it names at least one level,
   * all of them columns of the matrix; its window of runs fits above run i;
   * a single-level check names one level, and a 1_2s or 1_3s hit a present cell.
   */
  predicate WellFormed(Z: Matrix, width: nat, i: nat, h: Hit)
    requires IsMatrix(Z, width) && i < |Z|
  {
    && |h.levels| >= 1 && (forall k :: 0 <= k < |h.levels| ==> h.levels[k] < width)
    && Span(h.check) <= i + 1
    && (PerLevel(h.check) ==> |h.levels| == 1)
    && ((h.check.OneTwoS? || h.check.OneThreeS?) ==> Z[i][h.levels[0]].Some?)
  }

  /** The hits of a run that implicate level l: what the point (run, l) collects. */
  function Implicating(hs: set<Hit>, l: nat): (r: set<Hit>)
    ensures r <= hs
    ensures forall h :: h in hs ==> (h in r <==> l in h.levels)
  {
    set h | h in hs && l in h.levels
  }
}
