/**
 * The scanning pass of evaluate_westgard (qc_core.py): the per-run and
 * per-point containers of rejection and warning hits, filled in place by the
 * add_warn / add_rej helpers from one loop nest per rule block.
 */
module Engine {
  import opened Wrappers
  import opened SigmaRules
  import opened Westgard

  /** [l for l, sgn in zip(idxs, signs) if sgn == s] */
  function WithSign(idxs: seq<nat>, signs: seq<int>, s: int): seq<nat>
    requires |idxs| == |signs|
  {
    if idxs == [] then []
    else
      var k := |idxs| - 1;
      WithSign(idxs[..k], signs[..k], s) + (if signs[k] == s then [idxs[k]] else [])
  }

  /** Appending a level and its sign extends the list of that sign's levels. */
  lemma WithSignSnoc(idxs: seq<nat>, signs: seq<int>, l: nat, sg: int, s: int)
    requires |idxs| == |signs|
    ensures WithSign(idxs + [l], signs + [sg], s) == WithSign(idxs, signs, s) + (if sg == s then [l] else [])
  {
    assert (idxs + [l])[..|idxs|] == idxs && (signs + [sg])[..|signs|] == signs;
  }

  /** One step of the band loop: level l joins the list of its sign when it lies in the 2-3 SD band. */
  lemma BandStep(row: seq<Cell>, l: nat, idxs: seq<nat>, signs: seq<int>)
    requires l < |row| && |idxs| == |signs|
    requires WithSign(idxs, signs, 1) == BandLevels(row[..l], 1)
    requires WithSign(idxs, signs, -1) == BandLevels(row[..l], -1)
    ensures row[l].Some? && InBand(row[l].value) ==>
      var idxs', signs' := idxs + [l], signs + [SignOrOne(row[l].value)];
      WithSign(idxs', signs', 1) == BandLevels(row[..l + 1], 1)
      && WithSign(idxs', signs', -1) == BandLevels(row[..l + 1], -1)
    ensures !(row[l].Some? && InBand(row[l].value)) ==>
      WithSign(idxs, signs, 1) == BandLevels(row[..l + 1], 1)
      && WithSign(idxs, signs, -1) == BandLevels(row[..l + 1], -1)
  {
    LevelsWhereSnoc(row, v => BandOnSide(1, v), l);
    LevelsWhereSnoc(row, v => BandOnSide(-1, v), l);
    if row[l].Some? && InBand(row[l].value) {
      WithSignSnoc(idxs, signs, l, SignOrOne(row[l].value), 1);
      WithSignSnoc(idxs, signs, l, SignOrOne(row[l].value), -1);
    }
  }

  /**
   * The first loop of the within-run 2_2s check: the levels of a run in the
   * 2-3 SD band, with the sign of each (np.sign(z) or 1).
   */
  method BandIndices(row: seq<Cell>) returns (idxs: seq<nat>, signs: seq<int>)
    ensures |idxs| == |signs|
    ensures WithSign(idxs, signs, 1) == BandLevels(row, 1) && WithSign(idxs, signs, -1) == BandLevels(row, -1)
  {
    idxs, signs := [], [];
    var l := 0;
    while l < |row|
      invariant 0 <= l <= |row| && |idxs| == |signs|
      invariant WithSign(idxs, signs, 1) == BandLevels(row[..l], 1)
      invariant WithSign(idxs, signs, -1) == BandLevels(row[..l], -1)
    {
      var z := row[l];
      BandStep(row, l, idxs, signs);
      if z.Some? && 2.0 <= Abs(z.value) < 3.0 {
        idxs := idxs + [l];
        signs := signs + [SignOrOne(z.value)];
      }
      l := l + 1;
    }
    assert row[..l] == row;
  }

  /** The level loop of R_4s: the present levels whose z-score equals the run's maximum or minimum. */
  method ExtremeIndices(row: seq<Cell>, maxz: real, minz: real) returns (levels: seq<nat>)
    ensures levels == ExtremeLevels(row, maxz, minz)
  {
    levels := [];
    var l := 0;
    while l < |row|
      invariant 0 <= l <= |row| && levels == ExtremeLevels(row[..l], maxz, minz)
    {
      LevelsWhereSnoc(row, v => Extreme(maxz, minz, v), l);
      if row[l].Some? && (row[l].value == maxz || row[l].value == minz) {
        levels := levels + [l];
      }
      l := l + 1;
    }
    assert row[..l] == row;
  }

  /**
   * The per-run body of R_4s: over the present z-scores of a run (at least two
   * of them), whether max - min >= 4 with max >= 2 and min <= -2, and then the
   * levels holding the max or the min.
   */
  method RangeLevels(row: seq<Cell>) returns (fires: bool, levels: seq<nat>)
    ensures RangeHits(row) == if fires then {Hit(RangeFourS, levels)} else {}
    ensures forall k :: 0 <= k < |levels| ==> levels[k] < |row|
  {
    var vals := PresentValues(row);
    fires, levels := false, [];
    if |vals| >= 2 {
      var maxz, minz := Max(vals), Min(vals);
      if maxz - minz >= 4.0 && maxz >= 2.0 && minz <= -2.0 {
        levels := ExtremeIndices(row, maxz, minz);
        fires := true;
      }
    }
  }

  class Evaluation {
    const Z: Matrix
    const width: nat
    const active: set<RuleCode>
    /** warn_by_run and rej_by_run: the hits of each run. */
    var warnByRun: seq<set<Hit>>
    var rejByRun: seq<set<Hit>>
    /** warn_point and rej_point: the hits of each (run, level). */
    var warnPoint: seq<seq<set<Hit>>>
    var rejPoint: seq<seq<set<Hit>>>

    /** One container per run and per point; a point holds exactly the hits of its run that name its level. */
    ghost predicate Valid()
      reads this
    {
      && IsMatrix(Z, width)
      && |warnByRun| == |Z| && |rejByRun| == |Z| && |warnPoint| == |Z| && |rejPoint| == |Z|
      && (forall i :: 0 <= i < |Z| ==> |warnPoint[i]| == width && |rejPoint[i]| == width)
      && (forall i, l :: 0 <= i < |Z| && 0 <= l < width ==>
            warnPoint[i][l] == Implicating(warnByRun[i], l) && rejPoint[i][l] == Implicating(rejByRun[i], l))
    }

    constructor (Z: Matrix, width: nat, active: set<RuleCode>)
      requires IsMatrix(Z, width)
      ensures Valid() && this.Z == Z && this.width == width && this.active == active
      ensures forall i :: 0 <= i < |Z| ==> warnByRun[i] == {} && rejByRun[i] == {}
    {
      this.Z := Z;
      this.width := width;
      this.active := active;
      warnByRun := seq(|Z|, _ => {});
      rejByRun := seq(|Z|, _ => {});
      warnPoint := seq(|Z|, _ => seq(width, _ => {}));
      rejPoint := seq(|Z|, _ => seq(width, _ => {}));
    }

    /** add_warn(i, msg, levels) */
    method AddWarn(i: nat, h: Hit)
      requires Valid() && i < |Z| && forall k :: 0 <= k < |h.levels| ==> h.levels[k] < width
      modifies this
      ensures Valid()
      ensures warnByRun == old(warnByRun)[i := old(warnByRun[i]) + {h}] && rejByRun == old(rejByRun)
    {
      warnByRun := warnByRun[i := warnByRun[i] + {h}];
      var points := warnPoint[i];
      var k := 0;
      while k < |h.levels|
        invariant 0 <= k <= |h.levels| && |points| == width
        invariant forall l :: 0 <= l < width ==>
          points[l] == old(warnPoint[i][l]) + (if l in h.levels[..k] then {h} else {})
      {
        var l := h.levels[k];
        points := points[l := points[l] + {h}];
        assert h.levels[..k + 1] == h.levels[..k] + [l];
        k := k + 1;
      }
      assert h.levels[..k] == h.levels;
      warnPoint := warnPoint[i := points];
    }

    /** add_rej(i, msg, levels) */
    method AddRej(i: nat, h: Hit)
      requires Valid() && i < |Z| && forall k :: 0 <= k < |h.levels| ==> h.levels[k] < width
      modifies this
      ensures Valid()
      ensures rejByRun == old(rejByRun)[i := old(rejByRun[i]) + {h}] && warnByRun == old(warnByRun)
    {
      rejByRun := rejByRun[i := rejByRun[i] + {h}];
      var points := rejPoint[i];
      var k := 0;
      while k < |h.levels|
        invariant 0 <= k <= |h.levels| && |points| == width
        invariant forall l :: 0 <= l < width ==>
          points[l] == old(rejPoint[i][l]) + (if l in h.levels[..k] then {h} else {})
      {
        var l := h.levels[k];
        points := points[l := points[l] + {h}];
        assert h.levels[..k + 1] == h.levels[..k] + [l];
        k := k + 1;
      }
      assert h.levels[..k] == h.levels;
      rejPoint := rejPoint[i := points];
    }

    /** The 1_2s block: a warning for every present cell with 2 <= |z| < 3, whatever the active rules. */
    method ScanOneTwoS()
      requires Valid()
      modifies this
      ensures Valid() && rejByRun == old(rejByRun)
      ensures forall r :: 0 <= r < |Z| ==> warnByRun[r] == old(warnByRun[r]) + WarnHits(Z, width, r)
    {
      var i := 0;
      while i < |Z|
        invariant 0 <= i <= |Z| && Valid() && rejByRun == old(rejByRun)
        invariant forall r :: 0 <= r < |Z| ==>
          warnByRun[r] == old(warnByRun[r]) + LevelHits(Z, width, OneTwoS, r, if r < i then width else 0)
      {
        var l := 0;
        LevelHitsNone(Z, width, OneTwoS, i);
        while l < width
          invariant 0 <= l <= width && Valid() && rejByRun == old(rejByRun)
          invariant forall r :: 0 <= r < |Z| ==>
            warnByRun[r] == old(warnByRun[r]) + LevelHits(Z, width, OneTwoS, r, if r < i then width else if r == i then l else 0)
        {
          var z := Z[i][l];
          LevelHitsStep(Z, width, OneTwoS, i, l);
          if z.Some? && 2.0 <= Abs(z.value) < 3.0 {
            AddWarn(i, Hit(OneTwoS, [l]));
          }
          l := l + 1;
        }
        i := i + 1;
      }
    }

    /** The 1_3s block: a rejection for every present cell with |z| >= 3. */
    method ScanOneThreeS()
      requires Valid()
      modifies this
      ensures Valid() && warnByRun == old(warnByRun)
      ensures forall r :: 0 <= r < |Z| ==> rejByRun[r] == old(rejByRun[r]) + CheckHits(Z, width, OneThreeS, r)
    {
      var i := 0;
      while i < |Z|
        invariant 0 <= i <= |Z| && Valid() && warnByRun == old(warnByRun)
        invariant forall r :: 0 <= r < |Z| ==>
          rejByRun[r] == old(rejByRun[r]) + LevelHits(Z, width, OneThreeS, r, if r < i then width else 0)
      {
        var l := 0;
        LevelHitsNone(Z, width, OneThreeS, i);
        while l < width
          invariant 0 <= l <= width && Valid() && warnByRun == old(warnByRun)
          invariant forall r :: 0 <= r < |Z| ==>
            rejByRun[r] == old(rejByRun[r]) + LevelHits(Z, width, OneThreeS, r, if r < i then width else if r == i then l else 0)
        {
          var z := Z[i][l];
          LevelHitsStep(Z, width, OneThreeS, i, l);
          if z.Some? && Abs(z.value) >= 3.0 {
            AddRej(i, Hit(OneThreeS, [l]));
          }
          l := l + 1;
        }
        i := i + 1;
      }
    }

    /** One level of a cross-run block: each window of Span(c) runs that fires on level l adds a hit to its last run. */
    method ScanLevel(c: Check, l: nat)
      requires Valid() && l < width
      modifies this
      ensures Valid() && warnByRun == old(warnByRun)
      ensures forall r :: 0 <= r < |Z| ==>
        rejByRun[r] == old(rejByRun[r]) + (if FiresAt(Z, width, c, r, l) then {Hit(c, [l])} else {})
    {
      var i := Span(c) - 1;
      forall r | 0 <= r < |Z| && r < i ensures !FiresAt(Z, width, c, r, l) {
        FiresAtNeedsWindow(Z, width, c, r, l);
      }
      while i < |Z|
        invariant Span(c) - 1 <= i && (i <= |Z| || |Z| < Span(c))
        invariant Valid() && warnByRun == old(warnByRun)
        invariant forall r :: 0 <= r < |Z| ==>
          rejByRun[r] == old(rejByRun[r]) + (if r < i && FiresAt(Z, width, c, r, l) then {Hit(c, [l])} else {})
      {
        if FiresAt(Z, width, c, i, l) {
          AddRej(i, Hit(c, [l]));
        }
        i := i + 1;
      }
    }

    /**
     * A cross-run block (2_2s, 2of3_2s, 3_1s, 4_1s, 9x, 10x): for each level,
     * each window of Span(c) runs that fires adds a hit to the window's last run.
     */
    method ScanAcrossRuns(c: Check)
      requires Valid() && PerLevel(c) && !c.OneTwoS? && !c.OneThreeS?
      modifies this
      ensures Valid() && warnByRun == old(warnByRun)
      ensures forall r :: 0 <= r < |Z| ==> rejByRun[r] == old(rejByRun[r]) + CheckHits(Z, width, c, r)
    {
      var l := 0;
      while l < width
        invariant 0 <= l <= width && Valid() && warnByRun == old(warnByRun)
        invariant forall r :: 0 <= r < |Z| ==> rejByRun[r] == old(rejByRun[r]) + LevelHits(Z, width, c, r, l)
      {
        ScanLevel(c, l);
        forall r | 0 <= r < |Z|
          ensures LevelHits(Z, width, c, r, l + 1)
               == LevelHits(Z, width, c, r, l) + (if FiresAt(Z, width, c, r, l) then {Hit(c, [l])} else {})
        {
          LevelHitsStep(Z, width, c, r, l);
        }
        l := l + 1;
      }
    }

    /** The within-run 2_2s test of run i: the band levels of each side, when there are two or more. */
    method ScanTwoTwoSRun(i: nat)
      requires Valid() && i < |Z|
      modifies this
      ensures Valid() && warnByRun == old(warnByRun)
      ensures rejByRun[i] == old(rejByRun[i]) + CheckHits(Z, width, TwoTwoSWithinRun, i)
      ensures forall r :: 0 <= r < |Z| && r != i ==> rejByRun[r] == old(rejByRun[r])
    {
      var idxs, signs := BandIndices(Z[i]);
      var plus := WithSign(idxs, signs, 1);
      if |plus| >= 2 {
        AddRej(i, Hit(TwoTwoSWithinRun, plus));
      }
      var minus := WithSign(idxs, signs, -1);
      if |minus| >= 2 {
        AddRej(i, Hit(TwoTwoSWithinRun, minus));
      }
    }

    /** The within-run half of the 2_2s block. */
    method ScanTwoTwoSWithinRun()
      requires Valid()
      modifies this
      ensures Valid() && warnByRun == old(warnByRun)
      ensures forall r :: 0 <= r < |Z| ==> rejByRun[r] == old(rejByRun[r]) + CheckHits(Z, width, TwoTwoSWithinRun, r)
    {
      var i := 0;
      while i < |Z|
        invariant 0 <= i <= |Z| && Valid() && warnByRun == old(warnByRun)
        invariant forall r :: 0 <= r < |Z| ==>
          rejByRun[r] == old(rejByRun[r]) + (if r < i then CheckHits(Z, width, TwoTwoSWithinRun, r) else {})
      {
        ScanTwoTwoSRun(i);
        i := i + 1;
      }
    }

    /** The within-run 2of3_2s test of run i: the first side with two levels at least 2 SD out. */
    method ScanTwoOfThreeRun(i: nat)
      requires Valid() && i < |Z|
      modifies this
      ensures Valid() && warnByRun == old(warnByRun)
      ensures rejByRun[i] == old(rejByRun[i]) + CheckHits(Z, width, TwoOfThreeWithinRun, i)
      ensures forall r :: 0 <= r < |Z| && r != i ==> rejByRun[r] == old(rejByRun[r])
    {
      var plus := TwoSDLevels(Z[i], 1);
      if |plus| >= 2 {
        AddRej(i, Hit(TwoOfThreeWithinRun, plus));
      } else {
        var minus := TwoSDLevels(Z[i], -1);
        if |minus| >= 2 {
          AddRej(i, Hit(TwoOfThreeWithinRun, minus));
        }
      }
    }

    /** The within-run half of the 2of3_2s block. */
    method ScanTwoOfThreeWithinRun()
      requires Valid()
      modifies this
      ensures Valid() && warnByRun == old(warnByRun)
      ensures forall r :: 0 <= r < |Z| ==> rejByRun[r] == old(rejByRun[r]) + CheckHits(Z, width, TwoOfThreeWithinRun, r)
    {
      var i := 0;
      while i < |Z|
        invariant 0 <= i <= |Z| && Valid() && warnByRun == old(warnByRun)
        invariant forall r :: 0 <= r < |Z| ==>
          rejByRun[r] == old(rejByRun[r]) + (if r < i then CheckHits(Z, width, TwoOfThreeWithinRun, r) else {})
      {
        ScanTwoOfThreeRun(i);
        i := i + 1;
      }
    }

    /** The R_4s test of run i. */
    method ScanRangeRun(i: nat)
      requires Valid() && i < |Z|
      modifies this
      ensures Valid() && warnByRun == old(warnByRun)
      ensures rejByRun[i] == old(rejByRun[i]) + CheckHits(Z, width, RangeFourS, i)
      ensures forall r :: 0 <= r < |Z| && r != i ==> rejByRun[r] == old(rejByRun[r])
    {
      var fires, levels := RangeLevels(Z[i]);
      assert CheckHits(Z, width, RangeFourS, i) == RangeHits(Z[i]);
      if fires {
        AddRej(i, Hit(RangeFourS, levels));
      }
    }

    /** The R_4s block: a run whose present z-scores span 4 SD across both 2 SD limits. */
    method ScanRangeFourS()
      requires Valid()
      modifies this
      ensures Valid() && warnByRun == old(warnByRun)
      ensures forall r :: 0 <= r < |Z| ==> rejByRun[r] == old(rejByRun[r]) + CheckHits(Z, width, RangeFourS, r)
    {
      var i := 0;
      while i < |Z|
        invariant 0 <= i <= |Z| && Valid() && warnByRun == old(warnByRun)
        invariant forall r :: 0 <= r < |Z| ==>
          rejByRun[r] == old(rejByRun[r]) + (if r < i then CheckHits(Z, width, RangeFourS, r) else {})
      {
        ScanRangeRun(i);
        i := i + 1;
      }
    }

    /** The within-run half of the 3_1s block: a fully present run with three levels 1 SD out on one side. */
    method ScanThreeOneSWithinRun()
      requires Valid()
      modifies this
      ensures Valid() && warnByRun == old(warnByRun)
      ensures forall r :: 0 <= r < |Z| ==> rejByRun[r] == old(rejByRun[r]) + CheckHits(Z, width, ThreeOneSWithinRun, r)
    {
      var i := 0;
      while i < |Z|
        invariant 0 <= i <= |Z| && Valid() && warnByRun == old(warnByRun)
        invariant forall r :: 0 <= r < |Z| ==>
          rejByRun[r] == old(rejByRun[r]) + (if r < i then CheckHits(Z, width, ThreeOneSWithinRun, r) else {})
      {
        if RowPresent(Z[i]) {
          var plus := OneSDLevels(Z[i], 1);
          if |plus| >= 3 {
            AddRej(i, Hit(ThreeOneSWithinRun, plus));
          } else {
            var minus := OneSDLevels(Z[i], -1);
            if |minus| >= 3 {
              AddRej(i, Hit(ThreeOneSWithinRun, minus));
            }
          }
        }
        i := i + 1;
      }
    }

    /** A block check (4_1s 2x2, 9x 3x3, 10x 5x2): every cell of the block present and on one side. */
    method ScanBlocks(c: Check)
      requires Valid() && IsBlock(c) && width == BlockWidth(c)
      modifies this
      ensures Valid() && warnByRun == old(warnByRun)
      ensures forall r :: 0 <= r < |Z| ==> rejByRun[r] == old(rejByRun[r]) + CheckHits(Z, width, c, r)
    {
      var i := Span(c) - 1;
      forall r | 0 <= r < |Z| && r < i
        ensures CheckHits(Z, width, c, r) == {}
      {
      }
      while i < |Z|
        invariant Span(c) - 1 <= i && (i <= |Z| || |Z| < Span(c))
        invariant Valid() && warnByRun == old(warnByRun)
        invariant forall r :: 0 <= r < |Z| ==>
          rejByRun[r] == old(rejByRun[r]) + (if r < i then CheckHits(Z, width, c, r) else {})
      {
        if BlockFires(Z, width, i, Span(c), Bound(c)) {
          AddRej(i, Hit(c, BlockLevels(c)));
        }
        i := i + 1;
      }
    }

    /** Runs the scan of one rejection check; a block check needs the level count it is guarded by. */
    method ScanCheck(c: Check)
      requires Valid() && !c.OneTwoS? && (IsBlock(c) ==> width == BlockWidth(c))
      modifies this
      ensures Valid() && warnByRun == old(warnByRun)
      ensures forall r :: 0 <= r < |Z| ==> rejByRun[r] == old(rejByRun[r]) + CheckHits(Z, width, c, r)
    {
      match c
      case OneThreeS => ScanOneThreeS();
      case TwoTwoSWithinRun => ScanTwoTwoSWithinRun();
      case TwoOfThreeWithinRun => ScanTwoOfThreeWithinRun();
      case RangeFourS => ScanRangeFourS();
      case ThreeOneSWithinRun => ScanThreeOneSWithinRun();
      case FourOneSBlock | NineXBlock | TenXBlock => ScanBlocks(c);
      case TwoTwoSAcrossRuns | TwoOfThreeAcrossRuns | ThreeOneSAcrossRuns | FourOneSAcrossRuns
        | NineXAcrossRuns | TenXAcrossRuns => ScanAcrossRuns(c);
    }

    /**
     * The scanning part of evaluate_westgard: the 1_2s warnings, then each
     * rejection check in the source's order, run when its guard (the rule is
     * active, and the level count fits) holds.
     */
    method Scan()
      requires Valid()
      modifies this
      ensures Valid()
      ensures forall r :: 0 <= r < |Z| ==>
        warnByRun[r] == old(warnByRun[r]) + WarnHits(Z, width, r)
        && rejByRun[r] == old(rejByRun[r]) + RejHits(Z, width, active, r)
    {
      ScanOneTwoS();
      ghost var base := rejByRun;
      ghost var warned := warnByRun;
      var checks := RejChecks();
      var k := 0;
      while k < |checks|
        invariant 0 <= k <= |checks| && Valid() && warnByRun == warned
        invariant forall r :: 0 <= r < |Z| ==> rejByRun[r] == base[r] + GatedPrefix(Z, width, active, k, r)
      {
        var c := checks[k];
        if Gate(c, active, width) {
          ScanCheck(c);
        }
        k := k + 1;
      }
    }
  }

  /** The scanning part of evaluate_westgard: fresh containers, every check run over the matrix. */
  method ScanMatrix(Z: Matrix, width: nat, active: set<RuleCode>)
    returns (rejByRun: seq<set<Hit>>, warnByRun: seq<set<Hit>>, rejPoint: seq<seq<set<Hit>>>, warnPoint: seq<seq<set<Hit>>>)
    requires IsMatrix(Z, width)
    ensures |rejByRun| == |Z| && |warnByRun| == |Z| && |rejPoint| == |Z| && |warnPoint| == |Z|
    ensures forall i :: 0 <= i < |Z| ==>
      rejByRun[i] == RejHits(Z, width, active, i) && warnByRun[i] == WarnHits(Z, width, i)
    ensures forall i :: 0 <= i < |Z| ==> |rejPoint[i]| == width && |warnPoint[i]| == width
    ensures forall i, l :: 0 <= i < |Z| && 0 <= l < width ==>
      rejPoint[i][l] == Implicating(rejByRun[i], l) && warnPoint[i][l] == Implicating(warnByRun[i], l)
  {
    var ev := new Evaluation(Z, width, active);
    ev.Scan();
    rejByRun, warnByRun, rejPoint, warnPoint := ev.rejByRun, ev.warnByRun, ev.rejPoint, ev.warnPoint;
  }
}
