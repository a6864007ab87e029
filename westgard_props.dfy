/**
 * Properties of the Westgard checks of qc_core.py (evaluate_westgard), proved
 * about the functions of module Westgard.
 */
module WestgardFacts {
  import opened Wrappers
  import opened SigmaRules
  import opened Westgard

  // -----------------------------------------------------------------------
  // Shape of the hits

  /** A hit of a per-level check names the one level it fired on, below a window that fits. */
  lemma LevelHitWellFormed(Z: Matrix, width: nat, c: Check, i: nat, h: Hit)
    requires IsMatrix(Z, width) && i < |Z| && PerLevel(c) && h in LevelHits(Z, width, c, i, width)
    ensures h.check == c && WellFormed(Z, width, i, h)
  {
    var l: nat :| l < width && FiresAt(Z, width, c, i, l) && h == Hit(c, [l]);
    FiresAtNeedsWindow(Z, width, c, i, l);
  }

  /** A within-run hit over a non-empty list of the run's levels is well formed. */
  lemma RowHitWellFormed(Z: Matrix, width: nat, c: Check, i: nat, P: real -> bool)
    requires IsMatrix(Z, width) && i < |Z| && !PerLevel(c) && Span(c) == 1
    requires |LevelsWhere(Z[i], P)| >= 1
    ensures WellFormed(Z, width, i, Hit(c, LevelsWhere(Z[i], P)))
  {
  }

  /** The R_4s hit names at least the level holding the maximum. */
  lemma RangeHitWellFormed(Z: Matrix, width: nat, i: nat, h: Hit)
    requires IsMatrix(Z, width) && i < |Z| && h in RangeHits(Z[i])
    ensures h.check == RangeFourS && WellFormed(Z, width, i, h)
  {
    var vs := PresentValues(Z[i]);
    var hi, lo := Max(vs), Min(vs);
    var l :| 0 <= l < |Z[i]| && Z[i][l] == Some(hi);
    assert l in ExtremeLevels(Z[i], hi, lo);
    RowHitWellFormed(Z, width, RangeFourS, i, v => Extreme(hi, lo, v));
  }

  /** Every hit a check attaches to run i is well formed and carries that check. */
  lemma CheckHitsWellFormed(Z: Matrix, width: nat, c: Check, i: nat, h: Hit)
    requires IsMatrix(Z, width) && i < |Z| && h in CheckHits(Z, width, c, i)
    requires IsBlock(c) ==> width == BlockWidth(c)
    ensures h.check == c && WellFormed(Z, width, i, h)
  {
    match c
    case TwoTwoSWithinRun =>
      if h.levels == BandLevels(Z[i], 1) {
        RowHitWellFormed(Z, width, c, i, v => BandOnSide(1, v));
      } else {
        RowHitWellFormed(Z, width, c, i, v => BandOnSide(-1, v));
      }
    case TwoOfThreeWithinRun =>
      if h.levels == TwoSDLevels(Z[i], 1) {
        RowHitWellFormed(Z, width, c, i, v => TwoOnSide(1, v));
      } else {
        RowHitWellFormed(Z, width, c, i, v => TwoOnSide(-1, v));
      }
    case ThreeOneSWithinRun =>
      if h.levels == OneSDLevels(Z[i], 1) {
        RowHitWellFormed(Z, width, c, i, v => OneOnSide(1, v));
      } else {
        RowHitWellFormed(Z, width, c, i, v => OneOnSide(-1, v));
      }
    case RangeFourS =>
      RangeHitWellFormed(Z, width, i, h);
    case FourOneSBlock | NineXBlock | TenXBlock =>
    case _ =>
      LevelHitWellFormed(Z, width, c, i, h);
  }

  /** Every hit of the first n rejection checks is well formed and comes from its own check, past its gate. */
  lemma {:induction false} GatedPrefixWellFormed(Z: Matrix, width: nat, active: set<RuleCode>, n: nat, i: nat, h: Hit)
    requires IsMatrix(Z, width) && i < |Z| && n <= |RejChecks()| && h in GatedPrefix(Z, width, active, n, i)
    ensures WellFormed(Z, width, i, h) && !h.check.OneTwoS? && Gate(h.check, active, width)
    ensures h in CheckHits(Z, width, h.check, i)
  {
    if h in GatedPrefix(Z, width, active, n - 1, i) {
      GatedPrefixWellFormed(Z, width, active, n - 1, i, h);
    } else {
      var cs := RejChecks();
      var c := cs[n - 1];
      assert c in cs && h in Gated(Z, width, active, c, i);
      CheckHitsWellFormed(Z, width, c, i, h);
    }
  }

  /** Every rejection hit of a run is well formed. */
  lemma RejHitsWellFormed(Z: Matrix, width: nat, active: set<RuleCode>, i: nat, h: Hit)
    requires IsMatrix(Z, width) && i < |Z| && h in RejHits(Z, width, active, i)
    ensures WellFormed(Z, width, i, h) && !h.check.OneTwoS? && Gate(h.check, active, width)
    ensures h in CheckHits(Z, width, h.check, i)
  {
    GatedPrefixWellFormed(Z, width, active, |RejChecks()|, i, h);
  }

  /** Every warning hit of a run is a well-formed 1_2s hit. */
  lemma WarnHitsWellFormed(Z: Matrix, width: nat, i: nat, h: Hit)
    requires IsMatrix(Z, width) && i < |Z| && h in WarnHits(Z, width, i)
    ensures WellFormed(Z, width, i, h) && h.check.OneTwoS?
  {
    CheckHitsWellFormed(Z, width, OneTwoS, i, h);
  }

  // -----------------------------------------------------------------------
  // Which rules can reject

  /** Activating more rules never removes a rejection. */
  lemma {:induction false} GatedPrefixMonotone(Z: Matrix, width: nat, a1: set<RuleCode>, a2: set<RuleCode>, n: nat, i: nat)
    requires IsMatrix(Z, width) && i < |Z| && n <= |RejChecks()| && a1 <= a2
    ensures GatedPrefix(Z, width, a1, n, i) <= GatedPrefix(Z, width, a2, n, i)
  {
    if n > 0 {
      GatedPrefixMonotone(Z, width, a1, a2, n - 1, i);
    }
  }

  /** A method with a larger sigma is never rejected on more grounds in the same run. */
  lemma RejHitsShrinkWithSigma(Z: Matrix, width: nat, s1: real, s2: real, numLevels: int, i: nat)
    requires IsMatrix(Z, width) && i < |Z| && s1 <= s2
    ensures RejHits(Z, width, Resolve(Some(s2), numLevels).1, i) <= RejHits(Z, width, Resolve(Some(s1), numLevels).1, i)
  {
    RulesMonotoneInSigma(s1, s2, numLevels);
    GatedPrefixMonotone(Z, width, Resolve(Some(s2), numLevels).1, Resolve(Some(s1), numLevels).1, |RejChecks()|, i);
  }

  /** At six sigma only a single point 3 SD out rejects a run. */
  lemma SixSigmaOnlyOneThreeS(Z: Matrix, width: nat, sigma: Option<real>, numLevels: int, i: nat, h: Hit)
    requires IsMatrix(Z, width) && i < |Z| && CategoryOf(sigma) == Six
    requires h in RejHits(Z, width, Resolve(sigma, numLevels).1, i)
    ensures h.check == OneThreeS
  {
    RuleFamilies(Six, numLevels);
    RejHitsWellFormed(Z, width, Resolve(sigma, numLevels).1, i, h);
  }

  /** A present z-score 3 SD or more out is a 1_3s rejection of its level, whatever the sigma. */
  lemma ThreeSDAlwaysRejects(Z: Matrix, width: nat, sigma: Option<real>, numLevels: int, i: nat, l: nat)
    requires IsMatrix(Z, width) && i < |Z| && l < width && Z[i][l].Some? && Abs(Z[i][l].value) >= 3.0
    ensures Hit(OneThreeS, [l]) in RejHits(Z, width, Resolve(sigma, numLevels).1, i)
  {
    OneThreeSIffThreeSD(Z, width, Resolve(sigma, numLevels).1, i, l);
  }

  /** A 1_3s rejection of a level means that level's z-score is present and 3 SD or more out. */
  lemma OneThreeSNeedsThreeSD(Z: Matrix, width: nat, active: set<RuleCode>, i: nat, l: nat)
    requires IsMatrix(Z, width) && i < |Z| && l < width
    ensures Hit(OneThreeS, [l]) in RejHits(Z, width, active, i) ==> Z[i][l].Some? && Abs(Z[i][l].value) >= 3.0
  {
    if Hit(OneThreeS, [l]) in RejHits(Z, width, active, i) {
      RejHitsWellFormed(Z, width, active, i, Hit(OneThreeS, [l]));
      assert FiresAt(Z, width, OneThreeS, i, l);
    }
  }

  /** A present z-score in the 2-3 SD band is a 1_2s warning of its level, and never a 1_3s rejection. */
  lemma BandWarns(Z: Matrix, width: nat, active: set<RuleCode>, i: nat, l: nat)
    requires IsMatrix(Z, width) && i < |Z| && l < width && Z[i][l].Some? && InBand(Z[i][l].value)
    ensures Hit(OneTwoS, [l]) in WarnHits(Z, width, i)
    ensures Hit(OneThreeS, [l]) !in RejHits(Z, width, active, i)
  {
    assert Hit(OneTwoS, [l]) in CheckHits(Z, width, OneTwoS, i);
    OneThreeSNeedsThreeSD(Z, width, active, i, l);
  }

  /** 1_2s warns a level exactly when its z-score is present and in the 2-3 SD band, whatever rules are active. */
  lemma OneTwoSIffBand(Z: Matrix, width: nat, i: nat, l: nat)
    requires IsMatrix(Z, width) && i < |Z| && l < width
    ensures Hit(OneTwoS, [l]) in WarnHits(Z, width, i) <==> Z[i][l].Some? && InBand(Z[i][l].value)
  {
  }

  /** With 1_3s active, 1_3s rejects a level exactly when its z-score is present and 3 SD or more out. */
  lemma OneThreeSIffThreeSD(Z: Matrix, width: nat, active: set<RuleCode>, i: nat, l: nat)
    requires IsMatrix(Z, width) && i < |Z| && l < width && Rule13s in active
    ensures Hit(OneThreeS, [l]) in RejHits(Z, width, active, i) <==> Z[i][l].Some? && Abs(Z[i][l].value) >= 3.0
  {
    OneThreeSNeedsThreeSD(Z, width, active, i, l);
    if Z[i][l].Some? && Abs(Z[i][l].value) >= 3.0 {
      var h := Hit(OneThreeS, [l]);
      assert RejChecks()[0] == OneThreeS && Gate(OneThreeS, active, width);
      assert h in CheckHits(Z, width, OneThreeS, i);
      GatedPrefixMembers(Z, width, active, |RejChecks()|, i, h);
    }
  }

  /** No level is both warned by 1_2s and rejected by 1_3s in the same run. */
  lemma WarnAndRejectExclusive(Z: Matrix, width: nat, active: set<RuleCode>, i: nat, l: nat)
    requires IsMatrix(Z, width) && i < |Z| && l < width
    ensures !(Hit(OneTwoS, [l]) in WarnHits(Z, width, i) && Hit(OneThreeS, [l]) in RejHits(Z, width, active, i))
  {
    OneTwoSIffBand(Z, width, i, l);
    OneThreeSNeedsThreeSD(Z, width, active, i, l);
  }

  // -----------------------------------------------------------------------
  // Windows

  /** A missing cell silences every window of a cross-run check (other than 2of3_2s) that contains it. */
  lemma MissingCellSilencesWindow(Z: Matrix, width: nat, c: Check, i: nat, l: nat, j: nat)
    requires IsMatrix(Z, width) && i < |Z| && l < width && AllPresentWindow(c)
    requires i < j + Span(c) && j <= i && Z[j][l].None?
    ensures !FiresAt(Z, width, c, i, l)
  {
  }

  /** A z-score of exactly zero is on neither side: it breaks every run of one-sided results through it. */
  lemma ZeroCellBreaksTrend(Z: Matrix, width: nat, c: Check, i: nat, l: nat, j: nat)
    requires IsMatrix(Z, width) && i < |Z| && l < width
    requires c.ThreeOneSAcrossRuns? || c.FourOneSAcrossRuns? || c.NineXAcrossRuns? || c.TenXAcrossRuns?
    requires i < j + Span(c) && j <= i && Z[j][l] == Some(0.0)
    ensures !FiresAt(Z, width, c, i, l)
  {
  }

  /** The same for a block: one zero anywhere in it stops the 4_1s, 9x or 10x block. */
  lemma ZeroCellBreaksBlock(Z: Matrix, width: nat, c: Check, i: nat, l: nat, j: nat)
    requires IsMatrix(Z, width) && i < |Z| && l < width && IsBlock(c)
    requires i < j + Span(c) && j <= i && Z[j][l] == Some(0.0)
    ensures CheckHits(Z, width, c, i) == {}
  {
    assert Sign(Z[j][l].value) == 0;
  }

  /** A missing cell anywhere in a 4_1s, 9x or 10x block stops the block. */
  lemma MissingCellSilencesBlock(Z: Matrix, width: nat, c: Check, i: nat, l: nat, j: nat)
    requires IsMatrix(Z, width) && i < |Z| && l < width && IsBlock(c)
    requires i < j + Span(c) && j <= i && Z[j][l].None?
    ensures CheckHits(Z, width, c, i) == {}
  {
  }

  /**
   * The all-missing test of the cross-run 2of3_2s check changes nothing: three
   * missing cells cast no vote.
   */
  lemma TwoOfThreeGuardRedundant(Z: Matrix, width: nat, i: nat, l: nat)
    requires IsMatrix(Z, width) && 2 <= i < |Z| && l < width
    ensures FiresAt(Z, width, TwoOfThreeAcrossRuns, i, l)
        <==> Votes(Z, width, l, i, 1) >= 2 || Votes(Z, width, l, i, -1) >= 2
  {
  }

  /** Three votes on a side also fire 2of3_2s: the count is at least two, not exactly two. */
  lemma ThreeOfThreeFires(Z: Matrix, width: nat, i: nat, l: nat, s: int)
    requires IsMatrix(Z, width) && 2 <= i < |Z| && l < width && (s == 1 || s == -1)
    requires forall j :: i - 2 <= j <= i ==> Z[j][l].Some? && Abs(Z[j][l].value) >= 2.0 && Sign(Z[j][l].value) == s
    ensures FiresAt(Z, width, TwoOfThreeAcrossRuns, i, l)
  {
    assert Votes(Z, width, l, i, s) == 3;
  }

  // -----------------------------------------------------------------------
  // Within-run checks

  /**
   * R_4s fires exactly when the run has a present z-score of at least +2 and
   * one of at most -2: the range test and the two-value test follow from those.
   */
  lemma RangeFourSCharacterised(row: seq<Cell>)
    ensures RangeHits(row) != {}
        <==> (exists l :: 0 <= l < |row| && row[l].Some? && row[l].value >= 2.0)
             && (exists l :: 0 <= l < |row| && row[l].Some? && row[l].value <= -2.0)
  {
    var vs := PresentValues(row);
    if (exists l :: 0 <= l < |row| && row[l].Some? && row[l].value >= 2.0)
       && (exists l :: 0 <= l < |row| && row[l].Some? && row[l].value <= -2.0) {
      var a :| 0 <= a < |row| && row[a].Some? && row[a].value >= 2.0;
      var b :| 0 <= b < |row| && row[b].Some? && row[b].value <= -2.0;
      assert row[a].value in vs && row[b].value in vs;
      var ia :| 0 <= ia < |vs| && vs[ia] == row[a].value;
      var ib :| 0 <= ib < |vs| && vs[ib] == row[b].value;
      assert ia != ib;
    }
    if RangeHits(row) != {} {
      var hi, lo := Max(vs), Min(vs);
      var a :| 0 <= a < |row| && row[a] == Some(hi);
      var b :| 0 <= b < |row| && row[b] == Some(lo);
    }
  }

  /** The cross-level 3_1s check needs three levels: its level-count test changes nothing. */
  lemma ThreeOneSWithinRunNeedsThreeLevels(Z: Matrix, width: nat, i: nat)
    requires IsMatrix(Z, width) && i < |Z| && width < 3
    ensures CheckHits(Z, width, ThreeOneSWithinRun, i) == {}
  {
  }

  // -----------------------------------------------------------------------
  // Results within 2 SD

  /** Every present z-score of the matrix lies strictly within 2 SD. */
  predicate WithinTwoSD(Z: Matrix)
  {
    forall j, l :: 0 <= j < |Z| && 0 <= l < |Z[j]| && Z[j][l].Some? ==> Abs(Z[j][l].value) < 2.0
  }

  /** The trend checks: they ask for results on one side, 1 SD out or merely nonzero. */
  predicate TrendCheck(c: Check)
  {
    c.ThreeOneSAcrossRuns? || c.ThreeOneSWithinRun? || c.FourOneSAcrossRuns? || c.FourOneSBlock?
    || c.NineXAcrossRuns? || c.NineXBlock? || c.TenXAcrossRuns? || c.TenXBlock?
  }

  /** Within 2 SD, a level list of results at least 2 SD out is empty. */
  lemma NoLevelsBeyondTwo(row: seq<Cell>, P: real -> bool)
    requires forall l :: 0 <= l < |row| && row[l].Some? ==> Abs(row[l].value) < 2.0
    requires forall v :: P(v) ==> Abs(v) >= 2.0
    ensures LevelsWhere(row, P) == []
  {
  }

  /** Within 2 SD, no per-level check other than the trends fires at any level. */
  lemma QuietLevelChecks(Z: Matrix, width: nat, c: Check, i: nat)
    requires IsMatrix(Z, width) && i < |Z| && WithinTwoSD(Z)
    requires c.OneTwoS? || c.OneThreeS? || c.TwoTwoSAcrossRuns? || c.TwoOfThreeAcrossRuns?
    ensures LevelHits(Z, width, c, i, width) == {}
  {
    forall l | 0 <= l < width ensures !FiresAt(Z, width, c, i, l) {
      if c.TwoOfThreeAcrossRuns? && i >= 2 {
        assert Z[i - 2][l].Some? ==> Abs(Z[i - 2][l].value) < 2.0;
        assert Z[i - 1][l].Some? ==> Abs(Z[i - 1][l].value) < 2.0;
        assert Votes(Z, width, l, i, 1) == 0 && Votes(Z, width, l, i, -1) == 0;
      }
    }
  }

  /** Within 2 SD, no run has two levels in the 2-3 SD band. */
  lemma QuietBand(Z: Matrix, width: nat, i: nat)
    requires IsMatrix(Z, width) && i < |Z| && WithinTwoSD(Z)
    ensures CheckHits(Z, width, TwoTwoSWithinRun, i) == {}
  {
    var row := Z[i];
    assert forall l :: 0 <= l < |row| && row[l].Some? ==> Abs(row[l].value) < 2.0;
    NoLevelsBeyondTwo(row, v => BandOnSide(1, v));
    NoLevelsBeyondTwo(row, v => BandOnSide(-1, v));
  }

  /** Within 2 SD, no run has two levels 2 SD out on one side. */
  lemma QuietTwoSD(Z: Matrix, width: nat, i: nat)
    requires IsMatrix(Z, width) && i < |Z| && WithinTwoSD(Z)
    ensures CheckHits(Z, width, TwoOfThreeWithinRun, i) == {}
  {
    var row := Z[i];
    assert forall l :: 0 <= l < |row| && row[l].Some? ==> Abs(row[l].value) < 2.0;
    NoLevelsBeyondTwo(row, v => TwoOnSide(1, v));
    NoLevelsBeyondTwo(row, v => TwoOnSide(-1, v));
  }

  /** Within 2 SD, no run's highest result is 2 SD above the mean. */
  lemma QuietRange(Z: Matrix, width: nat, i: nat)
    requires IsMatrix(Z, width) && i < |Z| && WithinTwoSD(Z)
    ensures CheckHits(Z, width, RangeFourS, i) == {}
  {
    var row := Z[i];
    var vs := PresentValues(row);
    if |vs| >= 2 {
      var hi := Max(vs);
      var a :| 0 <= a < |row| && row[a] == Some(hi);
      assert Abs(row[a].value) < 2.0;
    }
  }

  /** Within 2 SD, a check other than the trend checks finds nothing. */
  lemma QuietCheckSilent(Z: Matrix, width: nat, c: Check, i: nat)
    requires IsMatrix(Z, width) && i < |Z| && WithinTwoSD(Z) && !TrendCheck(c)
    ensures CheckHits(Z, width, c, i) == {}
  {
    match c
    case TwoTwoSWithinRun => QuietBand(Z, width, i);
    case TwoOfThreeWithinRun => QuietTwoSD(Z, width, i);
    case RangeFourS => QuietRange(Z, width, i);
    case _ => QuietLevelChecks(Z, width, c, i);
  }

  /**
   * When every result is within 2 SD, 1_2s, 1_3s, 2_2s, 2of3_2s and R_4s stay
   * silent: only the trend checks can still reject a run.
   */
  lemma WithinTwoSDOnlyTrends(Z: Matrix, width: nat, active: set<RuleCode>, i: nat, h: Hit)
    requires IsMatrix(Z, width) && i < |Z| && WithinTwoSD(Z)
    ensures WarnHits(Z, width, i) == {}
    ensures h in RejHits(Z, width, active, i) ==> TrendCheck(h.check)
  {
    QuietCheckSilent(Z, width, OneTwoS, i);
    if h in RejHits(Z, width, active, i) {
      RejHitsWellFormed(Z, width, active, i, h);
      if !TrendCheck(h.check) {
        QuietCheckSilent(Z, width, h.check, i);
      }
    }
  }

  /**
   * Results within 2 SD do not guarantee a pass: three runs of one level all at
   * +1.5 SD reject the third run by 3_1s when the sigma is unknown.
   */
  lemma TrendRejectsWithinTwoSD()
    ensures var Z := [[Some(1.5)], [Some(1.5)], [Some(1.5)]];
      IsMatrix(Z, 1) && WithinTwoSD(Z) && Hit(ThreeOneSAcrossRuns, [0]) in RejHits(Z, 1, Resolve(None, 1).1, 2)
  {
    var Z := [[Some(1.5)], [Some(1.5)], [Some(1.5)]];
    var active := Resolve(None, 1).1;
    assert ColumnOnSide(Z, 1, 0, 2, 3, 1, 1.0);
    assert FiresAt(Z, 1, ThreeOneSAcrossRuns, 2, 0);
    assert Hit(ThreeOneSAcrossRuns, [0]) in CheckHits(Z, 1, ThreeOneSAcrossRuns, 2);
    assert RejChecks()[6] == ThreeOneSAcrossRuns && Gate(ThreeOneSAcrossRuns, active, 1);
    GatedPrefixMembers(Z, 1, active, |RejChecks()|, 2, Hit(ThreeOneSAcrossRuns, [0]));
  }
}
