/**
 * The text of the violation messages evaluate_westgard (qc_core.py) stores in
 * its run and point containers: one message per hit, made of the rule's short
 * name, a space and a parenthesised detail naming the control level, the runs
 * or the pattern.
 */
module Messages {
  import opened Wrappers
  import opened Westgard
  import opened Strings

  /** The short name a message of check c starts with (2of3_2s is written "2/3_2s"). */
  function Prefix(c: Check): (p: string)
    ensures p != [] && NoSpace(p) && ';' !in p && !IsSpace(p[0])
  {
    match c
    case OneTwoS => "1_2s"
    case OneThreeS => "1_3s"
    case TwoTwoSWithinRun | TwoTwoSAcrossRuns => "2_2s"
    case TwoOfThreeAcrossRuns | TwoOfThreeWithinRun => "2/3_2s"
    case RangeFourS => "R_4s"
    case ThreeOneSAcrossRuns | ThreeOneSWithinRun => "3_1s"
    case FourOneSAcrossRuns | FourOneSBlock => "4_1s"
    case NineXAcrossRuns | NineXBlock => "9x"
    case TenXAcrossRuns | TenXBlock => "10x"
  }

  /** f"Ctrl {l+1}": controls are numbered from 1. */
  function Ctrl(l: nat): (s: string)
    ensures ';' !in s
  {
    "Ctrl " + NatToString(l + 1)
  }

  /** The controls of a within-run hit, ", "-joined. */
  function Controls(levels: seq<nat>): (s: string)
    ensures ';' !in s
  {
    if levels == [] then ""
    else if |levels| == 1 then Ctrl(levels[0])
    else Ctrl(levels[0]) + ", " + Controls(levels[1..])
  }

  /** f"runs {runs[a]}–{runs[i]}" (an en dash between the labels). */
  function RunSpan(labels: seq<string>, a: nat, i: nat): (s: string)
    requires a <= i < |labels|
    ensures ';' !in labels[a] && ';' !in labels[i] ==> ';' !in s
  {
    "runs " + labels[a] + "–" + labels[i]
  }

  /** The pattern a within-run check names after the run label. */
  function RunPattern(c: Check): (w: string)
    ensures ';' !in w
  {
    match c
    case TwoOfThreeWithinRun => ", ≥2 mức QC cùng phía ≥2SD"
    case RangeFourS => ", chênh lệch ≥4SD giữa các mức QC"
    case ThreeOneSWithinRun => ", ≥3 mức QC cùng phía ≥1SD"
    case _ => ""
  }

  /** The whole detail of a block check: its runs × levels shape and the side test (≥1SD for 4_1s). */
  function BlockPattern(c: Check): (w: string)
    ensures ';' !in w
  {
    var shape := match c
      case FourOneSBlock => "2 lần chạy x 2"
      case NineXBlock => "3 lần chạy x 3"
      case _ => "5 lần chạy x 2";
    assert ';' !in shape;
    var sameSide := " mức QC, tất cả cùng phía";
    assert ';' !in sameSide;
    var bound := if c.FourOneSBlock? then " ≥1SD" else "";
    assert ';' !in bound;
    shape + sameSide + bound
  }

  /** The streak a 9x or 10x check on one control names after the control. */
  function StreakPattern(c: Check): (w: string)
    ensures ';' !in w
  {
    match c
    case NineXAcrossRuns => ", 9 kết quả liên tiếp cùng phía"
    case TenXAcrossRuns => ", 10 kết quả liên tiếp cùng phía"
    case _ => ""
  }

  /** The detail of within-run 2_2s: the controls between 2 and 3 SD on one side. */
  function SameRunDetail(levels: seq<nat>): (d: string)
    ensures ';' !in d
  {
    "cùng lần chạy, " + Controls(levels) + " cùng phía 2–3SD"
  }

  /** The detail of 1_2s and 1_3s: the control and its z-score with two decimals. */
  function ValueDetail(l: nat, z: real): (d: string)
    ensures ';' !in d
  {
    Ctrl(l) + ", z=" + Fixed2(z)
  }

  /** The detail of a rule over consecutive runs of one control: the control and the runs. */
  function SpanDetail(l: nat, labels: seq<string>, a: nat, i: nat): (d: string)
    requires a <= i < |labels|
    ensures ';' !in labels[a] && ';' !in labels[i] ==> ';' !in d
  {
    Ctrl(l) + ", " + RunSpan(labels, a, i)
  }

  /** The detail of a rule across the controls of one run: the run and the pattern. */
  function RunDetail(run: string, pattern: string): (d: string)
    ensures ';' !in run && ';' !in pattern ==> ';' !in d
  {
    "run " + run + pattern
  }

  /** The text between the parentheses of the message of hit h at run i. */
  function Detail(Z: Matrix, width: nat, labels: seq<string>, i: nat, h: Hit): string
    requires IsMatrix(Z, width) && i < |Z| && |labels| == |Z| && WellFormed(Z, width, i, h)
  {
    var l := h.levels[0];
    match h.check
    case OneTwoS => ValueDetail(l, Z[i][l].value)
    case OneThreeS => ValueDetail(l, Z[i][l].value)
    case TwoTwoSWithinRun => SameRunDetail(h.levels)
    case TwoTwoSAcrossRuns => SpanDetail(l, labels, i - 1, i)
    case TwoOfThreeAcrossRuns => SpanDetail(l, labels, i - 2, i)
    case TwoOfThreeWithinRun => RunDetail(labels[i], RunPattern(h.check))
    case RangeFourS => RunDetail(labels[i], RunPattern(h.check))
    case ThreeOneSAcrossRuns => SpanDetail(l, labels, i - 2, i)
    case ThreeOneSWithinRun => RunDetail(labels[i], RunPattern(h.check))
    case FourOneSAcrossRuns => SpanDetail(l, labels, i - 3, i)
    case FourOneSBlock => BlockPattern(h.check)
    case NineXAcrossRuns => Ctrl(l) + StreakPattern(h.check)
    case NineXBlock => BlockPattern(h.check)
    case TenXAcrossRuns => Ctrl(l) + StreakPattern(h.check)
    case TenXBlock => BlockPattern(h.check)
  }

  predicate NoSeparator(labels: seq<string>)
  {
    forall k :: 0 <= k < |labels| ==> ';' !in labels[k]
  }

  /** The span checks name the labels of runs above i; those labels hold no ';' either. */
  lemma SpanDetailNoSeparator(Z: Matrix, width: nat, labels: seq<string>, i: nat, h: Hit)
    requires IsMatrix(Z, width) && i < |Z| && |labels| == |Z| && WellFormed(Z, width, i, h) && NoSeparator(labels)
    requires h.check.TwoTwoSAcrossRuns? || h.check.TwoOfThreeAcrossRuns? || h.check.ThreeOneSAcrossRuns?
      || h.check.FourOneSAcrossRuns?
    ensures ';' !in Detail(Z, width, labels, i, h)
  {
    assert ';' !in labels[i - Span(h.check) + 1] && ';' !in labels[i];
  }

  /** The within-run checks name run i's label. */
  lemma RunDetailNoSeparator(Z: Matrix, width: nat, labels: seq<string>, i: nat, h: Hit)
    requires IsMatrix(Z, width) && i < |Z| && |labels| == |Z| && WellFormed(Z, width, i, h) && NoSeparator(labels)
    requires h.check.TwoOfThreeWithinRun? || h.check.RangeFourS? || h.check.ThreeOneSWithinRun?
    ensures ';' !in Detail(Z, width, labels, i, h)
  {
    assert ';' !in labels[i];
  }

  /** With no ';' in any run label, a detail holds no ';'. */
  lemma DetailNoSeparator(Z: Matrix, width: nat, labels: seq<string>, i: nat, h: Hit)
    requires IsMatrix(Z, width) && i < |Z| && |labels| == |Z| && WellFormed(Z, width, i, h)
    ensures NoSeparator(labels) ==> ';' !in Detail(Z, width, labels, i, h)
  {
    if NoSeparator(labels) {
      var c := h.check;
      if c.TwoTwoSAcrossRuns? || c.TwoOfThreeAcrossRuns? || c.ThreeOneSAcrossRuns? || c.FourOneSAcrossRuns? {
        SpanDetailNoSeparator(Z, width, labels, i, h);
      } else if c.TwoOfThreeWithinRun? || c.RangeFourS? || c.ThreeOneSWithinRun? {
        RunDetailNoSeparator(Z, width, labels, i, h);
      }
    }
  }

  /**
   * The message of hit h at run i. It starts with the rule's short name and a
   * space and ends with ')', and it holds no ';' when no run label does.
   */
  function Message(Z: Matrix, width: nat, labels: seq<string>, i: nat, h: Hit): (m: string)
    requires IsMatrix(Z, width) && i < |Z| && |labels| == |Z| && WellFormed(Z, width, i, h)
    ensures |m| > |Prefix(h.check)| + 1 && m == Prefix(h.check) + " " + m[|Prefix(h.check)| + 1..]
    ensures m[|m| - 1] == ')'
    ensures NoSeparator(labels) ==> ';' !in m
  {
    var p, d := Prefix(h.check), Detail(Z, width, labels, i, h);
    DetailNoSeparator(Z, width, labels, i, h);
    var rest := "(" + d + ")";
    assert (p + " " + rest)[|p| + 1..] == rest;
    p + " " + rest
  }
}
